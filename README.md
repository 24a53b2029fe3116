# python-video-queue housekeeping, fetching and input resolution in Dafny

python-video-queue keeps playlists of video streams (`QueueStream`) fed by
stream sources (`StreamSource`, e.g. YouTube channels). This project models
three parts of it:

- **Fetching** (`FetchService`). `fetch` polls a playlist's enabled YouTube
  web sources. It scans each channel's videos in the lister's order, stamps each
  source's `lastFetched`, updates the source, and appends the gathered streams
  to the playlist. `fetchYoutube` is the scan of one channel: it stops at the
  first video older than the lower bound, skips videos newer than the upper
  bound, and stops right after taking the video whose index passes
  `batchSize`.
- **Housekeeping, old interface** (`SharedService`, the root
  `SharedService.py`):
  - `prune` removes watched streams from a playlist that does not replay them.
  - `purge` removes streams and sources that no playlist lists. It also
    strips playlists of IDs whose entity is gone.
  - `search`/`searchFields` match names and URIs.
  - `getAllSoftDeleted` lists soft-deleted entities.
- **Housekeeping, new interface** (`ServicesSharedService`,
  `services/SharedService.py`): the same jobs split into prepare/do pairs:
  - `preparePrune`/`doPrune`;
  - `preparePurge`/`doPurge`, which hard-removes soft-deleted entities;
  - `preparePurgePlaylists`/`doPurgePlaylists`, which strips dangling IDs;
  - `search`, `searchFields` and `getAllSoftDeleted`.
- **Input resolution** (`CliInput`, `Main.getIdsFromInput`). Command-line
  tokens become entity IDs. A token is either a raw ID checked against the
  known IDs, or `i<digit>`, an index into the last listing.

Supporting modules:

- `Entities`: the records.
- `Seqs`: filtering and Python's `list.remove`.
- `Housekeeping`: the selections both housekeeping interfaces share.

The store is not modelled as code. Reads are maps and listings passed in.
Every write (`delete`, `remove`, `update`, `addStreams`) is recorded, in
order, in a returned list of `StoreCall`s. The outcome of each write, and
everything else that comes from outside, is a function parameter:

- the result of an `update` or of `addStreams`;
- the channel lister, title sanitising and date parsing;
- `re.search`;
- the digit helpers;
- the user's `(y/n)` answer.

Methods follow the loops of the source. Each one is proved equal to a
specification function. Lemmas state what those functions promise.

## Model

| member | source | states |
|---|---|---|
| FetchService.Fetch | FetchService.py:36-87 | Unknown playlist gives 0 and no store calls. Otherwise the calls are every source update in loop order, then one `addStreams` of everything gathered. The count is the number gathered when `addStreams` reports success, else 0. |
| FetchService.GatherAll | FetchService.py:54-81 | The source loop equals `GatherFrom`. A missing, disabled, non-web or non-YouTube source is skipped. A polled source is stamped and updated. Its streams count only when the update succeeds, and only then do later reads see the stamped source. |
| FetchService.FetchSource | FetchService.py:55-76 | One listed source: skipped unless it exists, is enabled, is web and is YouTube. Otherwise it is scanned from the caller's lower bound, or from its own parsed `lastFetched` when no bound was given, and stamped with the current time. |
| FetchService.FetchYoutube | FetchService.py:89-132 | No streams when the channel is missing, has no name, or has no video URLs. Otherwise the streams built from `Picks` of its videos. |
| FetchService.ScanVideos | FetchService.py:114-132 | The break/continue scan builds, in order, one stream per index of `Picks`, with the sanitised title, the watch URL and the current time. |
| FetchService.PicksSpec | FetchService.py:114-132 | The picked indices are strictly ascending and start at the scan position. None is older than the lower bound or newer than the upper bound. |
| FetchService.PicksIff | FetchService.py:114-130 | Index k is picked exactly when (1) it is in range and inside both bounds, and (2) every earlier video is not older than the lower bound, and is either newer than the upper bound or has index at most `batchSize`. |
| FetchService.StopsAtFirstOlder | FetchService.py:117-119 | Nothing at or after the first video older than the lower bound is taken. |
| FetchService.PicksCap | FetchService.py:127-130 | One scan takes at most `batchSize + 2` videos (at least 1 is allowed), because it stops after the first taken index above `batchSize`. |
| FetchService.PicksExample | FetchService.py:114-130 | Dates 50,40,30,20,35 with bounds (25,45] take indices 1 and 2: the first is skipped as too new, and the scan stops at 20 before reaching 35. |
| FetchService.YoutubeStreamsCap | FetchService.py:105-132 | One source contributes at most `batchSize + 2` streams (at least 1 allowed). |
| FetchService.UpdatesStamped | FetchService.py:61-77 | Every `update` fetch makes is of an enabled YouTube web source whose `lastFetched` is the current time. |
| FetchService.EveryPolledSourceUpdated | FetchService.py:54-77 | With a keyed store, every listed ID that is polled gets exactly one `update`. This holds whatever the scan found and whatever earlier updates returned. |
| FetchService.FailedUpdatesGatherNothing | FetchService.py:76-81 | When every `update` fails, no stream is gathered. |
| FetchService.GatheredCap | FetchService.py:54-81 | The gathered streams number at most the listed sources times `batchSize + 2`. |
| FetchService.GivenBoundIgnoresLastFetched | FetchService.py:65 | With a caller-given lower bound, the stored `lastFetched` values are never consulted: changing how they parse changes nothing. |
| CliInput.GetIdsFromInput | Main.py:414-452 | The token loop equals `Resolve`. No known IDs or an empty listing gives no IDs. The limit stops the loop. A failed character or list access raises IndexError. An unrecognised token is skipped, or ends the loop early with the IDs so far when `returnOnNonIds` is set. |
| CliInput.ResolveToken | Main.py:424-450 | One token equals `Classify`: an index token is read from its second character, and any other token is kept when it is a known ID. |
| CliInput.PyIndex | Main.py:433 | Python list indexing: a value exactly when `-len <= n < len`, and the element itself for `0 <= n < len`. |
| CliInput.ClassifyKnown | Main.py:424-444 | A taken ID is known: either a known ID or an entry of the listing. A raw-ID token is taken as itself. |
| CliInput.TakenKnown | Main.py:419-450 | The IDs taken from a run of tokens are all known, and there are no more of them than tokens. |
| CliInput.SkipMode | Main.py:429-430 | Without early return, a result that does not raise is exactly the IDs of the tokens within the limit, in order. |
| CliInput.StopMode | Main.py:426-427 | With early return, a result that does not raise is the IDs of a prefix of tokens that all yielded one. The prefix ends at the limit or at the first unrecognised token. |
| CliInput.ResolveBounds | Main.py:414-452 | No known IDs or no listing gives no IDs. Otherwise the result holds only known IDs and no more IDs than examined tokens. |
| CliInput.LimitIgnoresRest | Main.py:420-422 | Tokens past the limit do not affect the result. |
| CliInput.IndexTokenReadsOneDigit | Main.py:424-432 | An `i` token is read from its second character only: the rest of the token and the known IDs make no difference. |
| CliInput.WellFormedNeverRaises | Main.py:424-433 | Non-empty tokens, and index tokens with a second character whose index is in range, never raise. |
| CliInput.BareIndexRaises | Main.py:424-425 | A lone `i` raises IndexError even after a known ID was found. |
| SharedService.Prune | SharedService.py:43-108 | Missing playlist, or one that replays watched streams: nothing and no calls. Otherwise it returns the existing watched streams of the playlist and their IDs, even when the user declines or the update fails, because the "empty" dict is the data dict. The calls are `PruneCalls`: on confirmation with data, delete each stream, then update the playlist with exactly the unwatched or unknown IDs left. |
| SharedService.CollectWatched | SharedService.py:63-66 | The collected streams are the existing watched entries of the playlist, in order. |
| SharedService.StreamIdsOf | SharedService.py:69-70 | The reported IDs are the IDs of the collected streams, in the same order. |
| SharedService.DeleteAndUnlist | SharedService.py:96-102 | One deletion per selected stream (hard remove or soft delete by flag). The remaining IDs are the playlist's IDs with one occurrence of each selected ID removed. |
| SharedService.RemoveAll | SharedService.py:159-162 | Repeated `list.remove` of IDs present in the list removes one occurrence of each. |
| SharedService.PruneAgainTakesNothing | SharedService.py:63-102 | After a prune, pruning the same playlist against the same streams selects nothing. |
| SharedService.Purge | SharedService.py:110-217 | The result lists the unlinked streams and sources in store order, and never any dangling IDs. The calls are `PurgeCalls`: on confirmation with unlinked entities, delete them, then update each playlist that had a dangling ID, cleaned. |
| SharedService.CollectRefs | SharedService.py:128-133 | The collected lists contain exactly the IDs some playlist lists. |
| SharedService.CollectUnlinked | SharedService.py:135-142 | The entities of the stored IDs that no playlist lists, in store order. |
| SharedService.DanglingIds | SharedService.py:148-156 | The IDs of a playlist that `get` does not find, in order. |
| SharedService.CleanOne | SharedService.py:145-166 | A playlist changes exactly when it has a dangling ID, and then becomes its cleaned version. |
| SharedService.CleanDangling | SharedService.py:144-166 | The rewritten playlists are `PurgeUpdates`. |
| SharedService.PurgeUpdatesSpec | SharedService.py:144-166 | A playlist is rewritten exactly when it has a dangling stream or source ID, into its cleaned version. No rewritten playlist keeps a dangling ID. |
| SharedService.DeleteUnlinked | SharedService.py:202-212 | One deletion per unlinked stream, then one per unlinked source, hard or soft by flag. |
| SharedService.UpdateAll | SharedService.py:214-215 | One `update` per rewritten playlist, in order. |
| SharedService.DanglingReportEmpty | SharedService.py:158-165 | The dangling IDs a purge finds are empty exactly when no playlist needs rewriting. |
| SharedService.IntendedPurgeCleansDangling | SharedService.py:158-200 | With the dangling IDs reported, a confirmed purge updates every playlist with a dangling ID to its cleaned version. |
| SharedService.EmptyStorePurgeCalls | SharedService.py:135-200 | With no stored streams or sources, purge as written makes no call. The corrected purge updates every playlist that has a dangling ID. |
| SharedService.PurgeIgnoresDanglingOnly | SharedService.py:164-165 | A playlist listing only a missing stream: purge finds it needs cleaning, but as written makes no call. The corrected purge updates it. |
| SharedService.SearchFields | SharedService.py:253-269 | The 1-based position of the first matching field, 0 when none matches. |
| SharedService.MatchingStreams | SharedService.py:238-240 | The streams whose name or URI matches, in order. |
| SharedService.MatchingSources | SharedService.py:241-243 | The sources whose name or URI matches, in order. |
| SharedService.MatchingPlaylists | SharedService.py:244-246 | The playlists whose name matches, in order. |
| SharedService.Search | SharedService.py:219-251 | The three lists are the matching streams, sources and playlists (`SearchResult`). |
| SharedService.DeletedStreams | SharedService.py:286-288 | The soft-deleted streams, in order. |
| SharedService.DeletedSources | SharedService.py:289-291 | The soft-deleted sources, in order. |
| SharedService.DeletedPlaylists | SharedService.py:292-294 | The soft-deleted playlists, in order. |
| SharedService.GetAllSoftDeleted | SharedService.py:271-296 | The soft-deleted entities of each kind (`SoftDeleted`). |
| SharedService.PruneData.constructor | SharedService.py:56 | The prune result starts with both lists empty. |
| SharedService.PurgeData.constructor | SharedService.py:122 | The purge result starts with all four lists empty. |
| Housekeeping.PruneSelection | SharedService.py:63-70 | An ID is selected exactly when the playlist lists it and it names an existing watched stream. The collected streams carry the selected IDs in the same order. |
| Housekeeping.PruneStreams | services/SharedService.py:84-87 | One watched stream per selected ID. |
| Housekeeping.PruneRewrite | SharedService.py:96-102 | Removing the selected IDs once each leaves exactly the entries that are not existing watched streams, in order. |
| Housekeeping.StreamRefs | services/SharedService.py:180-181 | Exactly the stream IDs some playlist lists. |
| Housekeeping.SourceRefs | services/SharedService.py:180-182 | Exactly the source IDs some playlist lists. |
| Housekeeping.UnlinkedSpec | services/SharedService.py:184-195 | A stored ID is unlinked exactly when no playlist lists it. |
| Housekeeping.UnlinkedStreams | services/SharedService.py:188-191 | One stream per unlinked stream ID. |
| Housekeeping.UnlinkedSources | services/SharedService.py:192-195 | One source per unlinked source ID. |
| Housekeeping.CleanPlaylistSpec | services/SharedService.py:222-237 | A cleaned playlist keeps exactly its IDs that exist and no dangling one. It changes no other field. |
| Housekeeping.CleanPlaylistIdempotent | services/SharedService.py:222-237 | Cleaning twice is cleaning once. |
| Housekeeping.DanglingRemoval | SharedService.py:159-162 | Removing each dangling ID once leaves exactly the existing ones, in order. |
| Housekeeping.HasDanglingFilter | SharedService.py:148-158 | A list has a dangling ID exactly when the dangling IDs found are non-empty. |
| Housekeeping.SoftDeleted | services/SharedService.py:292-316 | getAllSoftDeleted (and the comprehensions of preparePurge): an entity is listed exactly when it is in the listing and soft-deleted. |
| Housekeeping.FirstMatch | services/SharedService.py:274-290 | The result is 0 exactly when no field matches. Otherwise field r matches and no earlier field does. |
| Housekeeping.SearchSpec | services/SharedService.py:241-272 | search: a stream or source is found exactly when the term matches its name or URI, a playlist exactly when it matches its name. |
| ServicesSharedService.PreparePrune | services/SharedService.py:66-92 | Missing playlist or one that replays watched streams gives nothing. Otherwise its existing watched streams, and the playlist itself when there is at least one. |
| ServicesSharedService.PrunePlanRemovable | services/SharedService.py:84-90 | The prepared stream IDs are the prune selection. Every one of them can be removed from the prepared playlist. |
| ServicesSharedService.Unlist | services/SharedService.py:113-118 | Remove the ID once from each playlist and update it, stopping at the first failed update (`UnlistFrom`). |
| ServicesSharedService.PruneStream | services/SharedService.py:107-118 | A hard remove or soft delete of the stream, then `Unlist`. |
| ServicesSharedService.DoPrune | services/SharedService.py:94-120 | The nested loop equals `DoPruneFrom`, which runs `PruneStream` per stream and returns False at the first failed update. |
| ServicesSharedService.UnlistOutcome | services/SharedService.py:113-118 | The inner loop makes only updates. It stops exactly at the first rejected one, and reports failure exactly then. |
| ServicesSharedService.DoPruneOutcome | services/SharedService.py:107-120 | doPrune's calls stop at the first rejected update. It returns True exactly when every update was accepted. |
| ServicesSharedService.DoPruneSuccess | services/SharedService.py:107-120 | On success each playlist ends with one occurrence of each pruned ID removed. |
| ServicesSharedService.PrepareThenDoPrune | services/SharedService.py:66-120 | preparePrune then doPrune: with nothing to prune, True and no calls. On success, the one playlist keeps exactly its unwatched or unknown entries. |
| ServicesSharedService.DoPurge | services/SharedService.py:141-159 | Always True. Hard-removes (soft-deleted included) each given stream, then source, then playlist. |
| ServicesSharedService.PurgeRemovesAllSoftDeleted | services/SharedService.py:122-159 | preparePurge then doPurge issues only hard removals including soft-deleted entities, and one for every soft-deleted entity. |
| ServicesSharedService.PurgeRemovesOnlySoftDeleted | services/SharedService.py:122-159 | Every ID removed is that of a soft-deleted entity of the matching kind. |
| ServicesSharedService.PreparePurgePlaylists | services/SharedService.py:161-209 | The unlinked streams and sources, and the playlists with a dangling ID (`DanglingPlaylists`). |
| ServicesSharedService.AnyMissing | services/SharedService.py:199-207 | The loop finds a missing ID exactly when the list has a dangling ID. |
| ServicesSharedService.CollectDanglingPlaylists | services/SharedService.py:198-207 | The playlist loop equals `DanglingPlaylists`. |
| ServicesSharedService.DanglingPlaylistsSpec | services/SharedService.py:198-207 | A playlist is collected exactly when it has a dangling stream ID or a dangling source ID. |
| ServicesSharedService.DanglingPlaylistTwice | services/SharedService.py:199-207 | A playlist with both kinds of dangling ID is collected twice, because each inner loop appends it. |
| ServicesSharedService.KeepExisting | services/SharedService.py:226-232 | The IDs that exist, in order. |
| ServicesSharedService.DoPurgePlaylists | services/SharedService.py:211-239 | Always True. Each given playlist is cleaned (`CleanAll`) and updated, in order. |
| ServicesSharedService.DoPurgePlaylistsSpec | services/SharedService.py:222-237 | Each cleaned playlist has no dangling ID. It keeps exactly the existing IDs and its ID, and cleaning it again changes nothing. |
| ServicesSharedService.PurgePlaylistsAgreesWithSinglePurge | services/SharedService.py:161-239 | Given one existence view for both, preparePurgePlaylists then doPurgePlaylists cleans the same set of playlists that the root purge's loop collects (`PurgeUpdates`). The root purge writes those only when confirmed with unlinked data. |

## Left out

- The store services (`get`, `getAll`, `getAllIds`, `exists`, `update`,
  `remove`, `delete`, `addStreams`) are not part of this model. Reads are
  inputs. Writes are logged calls. A write's success is an oracle.
- The root interface's `print`/`printS`/`printD` output, the summaries, the
  debug lines and `print(yt.publish_date)` are left out. Nothing is decided
  by them.
- `getPageTitle` and `downloadYoutube` are outside the modelled core.
- The pytube `Channel` lister, `sanitize`, `re.search` with `IGNORECASE`,
  `isNumber` and `int(float(c))` are function parameters. Their own
  behaviour is not modelled.
- `datetime.now()` is a single instant for a whole run. Dates are integers.
- The parsing of a stored `lastFetched` is a total function parameter. A
  parse that raises is not modelled.
- Only the branches of the code exist in the model. A numeric ID watermark,
  a take-new-only option or batched scanning is not in the code, so it is
  not modelled.
- ServicesSharedService.DoPrune: requires every listed stream ID to still be
  in each listed playlist (`Removable`). Python's `list.remove` would
  otherwise raise ValueError. Data from preparePrune always meets this
  (`PrunePlanRemovable`).
- ServicesSharedService.DoPurgePlaylists: models playlists as values. A
  playlist collected twice is mutated in place by Python, so its second
  update writes the same cleaned lists. The model cleans both copies
  independently. `CleanPlaylistIdempotent` shows the written values agree.
- SharedService.Prune, SharedService.Purge: the `exists`/`get` views are
  maps. The root `search` reads listings with the store's default (no
  soft-deleted entities). The new one passes the caller's
  `includeSoftDeleted`, which defaults to False. Both take the listings as
  inputs, so that choice happens before the model.
- FetchService.Fetch: a source whose update failed stays as it was for
  later `get`s in the same run. Its scan result is dropped.
- FetchService.Fetch: the `update` verdict depends only on the stamped
  source. A source listed twice whose first update failed therefore fails
  again the second time, since its stamped copy is the same. A store whose
  verdict changes between calls is not modelled.
- FetchService.FetchYoutube: the docstring of `fetch` promises videos in
  chronological order. The scan keeps the lister's order and nothing
  reorders it. The model follows the code, and
  `PicksSpec` proves the picks keep the lister's order.

## Findings

| source | as written | input that shows it | evidently intended | confidence | as-written member | corrected member |
|---|---|---|---|---|---|---|
| SharedService.py:164-165 | `extend` copies the (empty) reported dangling-ID lists into the local lists, instead of the local IDs into the report. So `QueueStreamId`/`StreamSourceId` stay empty, and a store whose only problem is dangling IDs hits "No data was available" and updates no playlist. | one playlist listing `["gone"]`, no stored streams or sources, user confirms | report the dangling IDs found so that playlists with dangling IDs get cleaned (the summary at lines 180-188 prints these lists too; its `.id`/`.name` on an ID string would then also need fixing) | not executed | SharedService.PurgeIgnoresDanglingOnly | SharedService.IntendedPurgeCleansDangling |
