/**
 * The root SharedService.py: prune, purge, search, searchFields and
 * getAllSoftDeleted. The stores are the views the services return; every
 * write into them is recorded, in order, as a `StoreCall`. The interactive
 * `input()` confirmation is the parameter `confirmed`.
 */
module SharedService {
  import opened Entities
  import opened Seqs
  import opened Housekeeping

  /**
   * The dict prune fills and returns. prune binds `_deletedData` and
   * `_deletedDataEmpty` to the same object of this class, so every
   * "empty" result returned after the collection is the collected data.
   */
  class PruneData {
    var queueStream: seq<QueueStream>
    var queueStreamId: seq<Id>

    constructor ()
      ensures queueStream == [] && queueStreamId == []
    {
      queueStream := [];
      queueStreamId := [];
    }
  }

  /** The dict purge fills and returns; aliased the same way as in prune. */
  class PurgeData {
    var queueStream: seq<QueueStream>
    var streamSource: seq<StreamSource>
    var queueStreamId: seq<Id>
    var streamSourceId: seq<Id>

    constructor ()
      ensures queueStream == [] && streamSource == [] && queueStreamId == [] && streamSourceId == []
    {
      queueStream := [];
      streamSource := [];
      queueStreamId := [];
      streamSourceId := [];
    }
  }

  /** `remove(id, includeSoftDeleted)` when deleting permanently, the soft `delete(id)` otherwise. */
  function StreamDeletion(id: Id, permanentlyDelete: bool, includeSoftDeleted: bool): StoreCall {
    if permanentlyDelete then RemoveStream(id, includeSoftDeleted) else DeleteStream(id)
  }

  function SourceDeletion(id: Id, permanentlyDelete: bool, includeSoftDeleted: bool): StoreCall {
    if permanentlyDelete then RemoveSource(id, includeSoftDeleted) else DeleteSource(id)
  }

  function StreamDeletions(ids: seq<Id>, permanentlyDelete: bool, includeSoftDeleted: bool): seq<StoreCall> {
    seq(|ids|, k requires 0 <= k < |ids| => StreamDeletion(ids[k], permanentlyDelete, includeSoftDeleted))
  }

  function SourceDeletions(ids: seq<Id>, permanentlyDelete: bool, includeSoftDeleted: bool): seq<StoreCall> {
    seq(|ids|, k requires 0 <= k < |ids| => SourceDeletion(ids[k], permanentlyDelete, includeSoftDeleted))
  }

  function PlaylistUpdates(ps: seq<Playlist>): seq<StoreCall> {
    seq(|ps|, k requires 0 <= k < |ps| => UpdatePlaylist(ps[k]))
  }

  /** The store calls of a prune of playlist `p` that gets past the playlist checks. */
  function PruneCalls(p: Playlist, streams: map<Id, QueueStream>, permanentlyDelete: bool,
                      includeSoftDeleted: bool, confirmed: bool): seq<StoreCall>
  {
    var ids := PruneIds(p.streamIds, streams);
    if !confirmed || ids == [] then []
    else
      StreamDeletions(ids, permanentlyDelete, includeSoftDeleted)
        + [UpdatePlaylist(p.(streamIds := Unpruned(p.streamIds, streams)))]
  }

  /** `for x in xs: s.remove(x)`. */
  method RemoveAll(s: seq<Id>, xs: seq<Id>) returns (r: seq<Id>)
    requires multiset(xs) <= multiset(s)
    ensures r == RemoveEach(s, xs)
  {
    r := s;
    var k := 0;
    while k < |xs|
      invariant 0 <= k <= |xs|
      invariant r == RemovePrefix(s, xs, k)
    {
      RemoveEachStep(s, xs, k);
      r := RemoveFirst(r, xs[k]);
      k := k + 1;
    }
  }

  /** The first loop of prune: `get` each playlist entry and keep the watched streams found. */
  method CollectWatched(ids: seq<Id>, streams: map<Id, QueueStream>) returns (qs: seq<QueueStream>)
    ensures qs == PruneStreams(ids, streams)
  {
    qs := [];
    var i := 0;
    while i < |ids|
      invariant 0 <= i <= |ids|
      invariant qs == PruneStreams(ids[..i], streams)
    {
      var id := ids[i];
      assert ids[..i + 1] == ids[..i] + [id];
      PruneStreamsSnoc(ids[..i], id, streams);
      if id in streams && streams[id].watched.Some? {
        qs := qs + [streams[id]];
      }
      i := i + 1;
    }
    assert ids[..i] == ids;
  }

  /** The second loop of prune: the ID of each collected stream. */
  method StreamIdsOf(qs: seq<QueueStream>) returns (ids: seq<Id>)
    ensures ids == IdsOfStreams(qs)
  {
    ids := [];
    var j := 0;
    while j < |qs|
      invariant 0 <= j <= |qs|
      invariant ids == IdsOfStreams(qs[..j])
    {
      ids := ids + [qs[j].id];
      j := j + 1;
    }
    assert qs[..j] == qs;
  }

  /** The deletion loop of prune: delete each stream and remove its ID once from the playlist's list. */
  method DeleteAndUnlist(ids: seq<Id>, selected: seq<QueueStream>, permanentlyDelete: bool, includeSoftDeleted: bool)
    returns (calls: seq<StoreCall>, remaining: seq<Id>)
    requires multiset(IdsOfStreams(selected)) <= multiset(ids)
    ensures calls == StreamDeletions(IdsOfStreams(selected), permanentlyDelete, includeSoftDeleted)
    ensures remaining == RemoveEach(ids, IdsOfStreams(selected))
  {
    ghost var sel := IdsOfStreams(selected);
    calls := [];
    remaining := ids;
    var k := 0;
    while k < |selected|
      invariant 0 <= k <= |selected|
      invariant calls == StreamDeletions(sel[..k], permanentlyDelete, includeSoftDeleted)
      invariant remaining == RemovePrefix(ids, sel, k)
    {
      var stream := selected[k];
      calls := calls + [StreamDeletion(stream.id, permanentlyDelete, includeSoftDeleted)];
      RemoveEachStep(ids, sel, k);
      remaining := RemoveFirst(remaining, stream.id);
      k := k + 1;
    }
    assert sel[..k] == sel;
  }

  /**
   * prune: collect the playlist's existing watched streams and their IDs; on
   * confirmation with data, delete each stream, remove its ID once from the
   * playlist, and update the playlist. Because the "empty" dict is the data
   * dict, a declined confirmation or a failed update still returns the data.
   */
  method Prune(playlistId: Id, playlists: map<Id, Playlist>, streams: map<Id, QueueStream>,
               includeSoftDeleted: bool, permanentlyDelete: bool, confirmed: bool,
               updateOk: Playlist -> bool)
    returns (result: PruneData, calls: seq<StoreCall>)
    requires StreamsKeyed(streams)
    ensures playlistId !in playlists || playlists[playlistId].playWatchedStreams ==>
      result.queueStream == [] && result.queueStreamId == [] && calls == []
    ensures playlistId in playlists && !playlists[playlistId].playWatchedStreams ==>
      && result.queueStream == PruneStreams(playlists[playlistId].streamIds, streams)
      && result.queueStreamId == PruneIds(playlists[playlistId].streamIds, streams)
      && calls == PruneCalls(playlists[playlistId], streams, permanentlyDelete, includeSoftDeleted, confirmed)
  {
    var deletedDataEmpty := new PruneData();
    var deletedData := deletedDataEmpty;
    calls := [];
    if playlistId !in playlists || playlists[playlistId].playWatchedStreams {
      return deletedDataEmpty, calls;
    }
    var playlist := playlists[playlistId];

    deletedData.queueStream := CollectWatched(playlist.streamIds, streams);
    deletedData.queueStreamId := StreamIdsOf(deletedData.queueStream);
    PruneSelection(playlist.streamIds, streams);

    if !confirmed {
      return deletedDataEmpty, calls;
    }
    if |deletedData.queueStream| == 0 && |deletedData.queueStreamId| == 0 {
      return deletedDataEmpty, calls;
    }

    PruneRewrite(playlist.streamIds, streams);
    var remaining;
    calls, remaining := DeleteAndUnlist(playlist.streamIds, deletedData.queueStream,
                                        permanentlyDelete, includeSoftDeleted);
    var updated := playlist.(streamIds := remaining);
    calls := calls + [UpdatePlaylist(updated)];
    if updateOk(updated) {
      return deletedData, calls;
    } else {
      return deletedDataEmpty, calls;
    }
  }

  /** The playlists purge rewrites: those with a dangling ID, with every dangling ID removed. */
  function PurgeUpdates(pls: seq<Playlist>, streams: map<Id, QueueStream>,
                        sources: map<Id, StreamSource>): seq<Playlist>
  {
    if pls == [] then []
    else
      var p := pls[|pls| - 1];
      PurgeUpdates(pls[..|pls| - 1], streams, sources)
        + (if HasDangling(p.streamIds, streams) || HasDangling(p.streamSourceIds, sources)
           then [CleanPlaylist(p, streams, sources)] else [])
  }

  /**
   * The store calls of purge. The reported dangling-ID lists are always empty,
   * so dangling IDs alone never pass the "no data" check.
   */
  function PurgeCalls(pls: seq<Playlist>, streams: Store<QueueStream>, sources: Store<StreamSource>,
                      permanentlyDelete: bool, includeSoftDeleted: bool, confirmed: bool): seq<StoreCall>
  {
    var qIds := Unlinked(streams.ids, StreamRefs(pls));
    var sIds := Unlinked(sources.ids, SourceRefs(pls));
    if !confirmed || (qIds == [] && sIds == []) then []
    else
      StreamDeletions(qIds, permanentlyDelete, includeSoftDeleted)
        + SourceDeletions(sIds, permanentlyDelete, includeSoftDeleted)
        + PlaylistUpdates(PurgeUpdates(pls, streams.byId, sources.byId))
  }

  /** The IDs of `ids` that `get` does not find, in order. */
  method DanglingIds<V>(ids: seq<Id>, m: map<Id, V>) returns (r: seq<Id>)
    ensures r == Filter(ids, Dangling(m))
  {
    r := [];
    var k := 0;
    while k < |ids|
      invariant 0 <= k <= |ids|
      invariant r == Filter(ids[..k], Dangling(m))
    {
      assert ids[..k + 1][..k] == ids[..k];
      if ids[k] !in m {
        r := r + [ids[k]];
      }
      k := k + 1;
    }
    assert ids[..k] == ids;
  }

  /** The first loop of purge: every stream ID and every source ID the playlists list. */
  method CollectRefs(playlists: seq<Playlist>) returns (streamRefs: seq<Id>, sourceRefs: seq<Id>)
    ensures streamRefs == StreamRefs(playlists) && sourceRefs == SourceRefs(playlists)
  {
    streamRefs, sourceRefs := [], [];
    var i := 0;
    while i < |playlists|
      invariant 0 <= i <= |playlists|
      invariant streamRefs == StreamRefs(playlists[..i])
      invariant sourceRefs == SourceRefs(playlists[..i])
    {
      assert playlists[..i + 1][..i] == playlists[..i];
      streamRefs := streamRefs + playlists[i].streamIds;
      sourceRefs := sourceRefs + playlists[i].streamSourceIds;
      i := i + 1;
    }
    assert playlists[..i] == playlists;
  }

  /** The collection loops of purge: `get` each stored ID that no playlist lists. */
  method CollectUnlinked<E>(ids: seq<Id>, refs: seq<Id>, byId: map<Id, E>) returns (es: seq<E>)
    requires forall id :: id in ids ==> id in byId
    ensures forall id :: id in Unlinked(ids, refs) ==> id in byId
    ensures es == Lookup(Unlinked(ids, refs), byId)
  {
    es := [];
    ghost var taken: seq<Id> := [];
    var j := 0;
    while j < |ids|
      invariant 0 <= j <= |ids|
      invariant taken == Unlinked(ids[..j], refs)
      invariant forall id :: id in taken ==> id in byId
      invariant es == Lookup(taken, byId)
    {
      var id := ids[j];
      assert ids[..j + 1][..j] == ids[..j];
      if id !in refs {
        es := es + [byId[id]];
        assert (taken + [id])[..|taken|] == taken;
        taken := taken + [id];
      }
      j := j + 1;
    }
    assert ids[..j] == ids;
  }

  /** The body of the playlist loop of purge, for one playlist. */
  method CleanOne(playlist: Playlist, streams: map<Id, QueueStream>, sources: map<Id, StreamSource>,
                  reportedStreamIds: seq<Id>, reportedSourceIds: seq<Id>)
    returns (changed: bool, cleaned: Playlist)
    ensures changed <==> HasDangling(playlist.streamIds, streams) || HasDangling(playlist.streamSourceIds, sources)
    ensures changed ==> cleaned == CleanPlaylist(playlist, streams, sources)
  {
    var streamIdsToRemove := DanglingIds(playlist.streamIds, streams);
    var sourceIdsToRemove := DanglingIds(playlist.streamSourceIds, sources);
    HasDanglingFilter(playlist.streamIds, streams);
    HasDanglingFilter(playlist.streamSourceIds, sources);
    cleaned := playlist;
    changed := |streamIdsToRemove| > 0 || |sourceIdsToRemove| > 0;
    if changed {
      DanglingRemoval(playlist.streamIds, streams);
      DanglingRemoval(playlist.streamSourceIds, sources);
      var keptStreams := RemoveAll(playlist.streamIds, streamIdsToRemove);
      var keptSources := RemoveAll(playlist.streamSourceIds, sourceIdsToRemove);
      cleaned := playlist.(streamIds := keptStreams, streamSourceIds := keptSources);
      // `extend` copies the reported lists into these local lists, not the other way round
      streamIdsToRemove := streamIdsToRemove + reportedStreamIds;
      sourceIdsToRemove := sourceIdsToRemove + reportedSourceIds;
    }
  }

  /** The playlist loop of purge: every playlist that had dangling IDs, with those IDs removed. */
  method CleanDangling(playlists: seq<Playlist>, streams: map<Id, QueueStream>, sources: map<Id, StreamSource>,
                       reportedStreamIds: seq<Id>, reportedSourceIds: seq<Id>)
    returns (updatedPlaylists: seq<Playlist>)
    ensures updatedPlaylists == PurgeUpdates(playlists, streams, sources)
  {
    updatedPlaylists := [];
    var i := 0;
    while i < |playlists|
      invariant 0 <= i <= |playlists|
      invariant updatedPlaylists == PurgeUpdates(playlists[..i], streams, sources)
    {
      assert playlists[..i + 1][..i] == playlists[..i];
      var changed, cleaned := CleanOne(playlists[i], streams, sources, reportedStreamIds, reportedSourceIds);
      if changed {
        updatedPlaylists := updatedPlaylists + [cleaned];
      }
      i := i + 1;
    }
    assert playlists[..i] == playlists;
  }

  /** `for p in updatedPlaylists: update(p)`. */
  method UpdateAll(pls: seq<Playlist>) returns (calls: seq<StoreCall>)
    ensures calls == PlaylistUpdates(pls)
  {
    calls := [];
    var k := 0;
    while k < |pls|
      invariant 0 <= k <= |pls|
      invariant calls == PlaylistUpdates(pls[..k])
    {
      calls := calls + [UpdatePlaylist(pls[k])];
      k := k + 1;
    }
    assert pls[..k] == pls;
  }

  /** The deletion loops of purge. */
  method DeleteUnlinked(qs: seq<QueueStream>, ss: seq<StreamSource>, permanentlyDelete: bool, includeSoftDeleted: bool)
    returns (calls: seq<StoreCall>)
    ensures calls == StreamDeletions(IdsOfStreams(qs), permanentlyDelete, includeSoftDeleted)
                     + SourceDeletions(IdsOfSources(ss), permanentlyDelete, includeSoftDeleted)
  {
    calls := [];
    var k := 0;
    while k < |qs|
      invariant 0 <= k <= |qs|
      invariant calls == StreamDeletions(IdsOfStreams(qs[..k]), permanentlyDelete, includeSoftDeleted)
    {
      calls := calls + [StreamDeletion(qs[k].id, permanentlyDelete, includeSoftDeleted)];
      k := k + 1;
    }
    assert qs[..k] == qs;
    ghost var deletions := calls;
    k := 0;
    while k < |ss|
      invariant 0 <= k <= |ss|
      invariant calls == deletions
        + SourceDeletions(IdsOfSources(ss[..k]), permanentlyDelete, includeSoftDeleted)
    {
      calls := calls + [SourceDeletion(ss[k].id, permanentlyDelete, includeSoftDeleted)];
      k := k + 1;
    }
    assert ss[..k] == ss;
  }

  /**
   * purge: report the stored streams and sources no playlist references;
   * on confirmation with data, delete them and update every playlist that had
   * dangling IDs, with those IDs removed.
   */
  method Purge(playlists: seq<Playlist>, streams: Store<QueueStream>, sources: Store<StreamSource>,
               includeSoftDeleted: bool, permanentlyDelete: bool, confirmed: bool)
    returns (result: PurgeData, calls: seq<StoreCall>)
    requires Listed(streams) && Listed(sources)
    requires StreamsKeyed(streams.byId) && SourcesKeyed(sources.byId)
    ensures result.queueStream == UnlinkedStreams(playlists, streams)
    ensures result.streamSource == UnlinkedSources(playlists, sources)
    ensures result.queueStreamId == [] && result.streamSourceId == []
    ensures calls == PurgeCalls(playlists, streams, sources, permanentlyDelete, includeSoftDeleted, confirmed)
  {
    var deletedDataEmpty := new PurgeData();
    var deletedData := deletedDataEmpty;
    calls := [];

    var playlistStreams, playlistSources := CollectRefs(playlists);
    ListedIn(streams);
    ListedIn(sources);
    var unlinkedStreams := CollectUnlinked(streams.ids, playlistStreams, streams.byId);
    var unlinkedSources := CollectUnlinked(sources.ids, playlistSources, sources.byId);
    deletedData.queueStream := unlinkedStreams;
    deletedData.streamSource := unlinkedSources;
    var updatedPlaylists := CleanDangling(playlists, streams.byId, sources.byId,
                                          deletedData.queueStreamId, deletedData.streamSourceId);

    if !confirmed {
      return deletedDataEmpty, calls;
    }
    if && |deletedData.queueStream| == 0 && |deletedData.streamSource| == 0
       && |deletedData.queueStreamId| == 0 && |deletedData.streamSourceId| == 0
    {
      return deletedDataEmpty, calls;
    }

    LookupStreamIds(Unlinked(streams.ids, playlistStreams), streams.byId);
    LookupSourceIds(Unlinked(sources.ids, playlistSources), sources.byId);
    calls := DeleteUnlinked(unlinkedStreams, unlinkedSources, permanentlyDelete, includeSoftDeleted);
    var updates := UpdateAll(updatedPlaylists);
    calls := calls + updates;
    return deletedData, calls;
  }

  /** A pruned playlist has nothing left to prune against the same streams. */
  lemma PruneAgainTakesNothing(ids: seq<Id>, streams: map<Id, QueueStream>)
    ensures PruneIds(Unpruned(ids, streams), streams) == []
  {
    var kept := Unpruned(ids, streams);
    FilterIn(ids, Not(Pruneable(streams)));
    FilterNone(kept, Pruneable(streams));
  }

  /**
   * The playlists purge writes back are exactly the cleaned versions of the
   * playlists that list an ID `get` cannot find, and none of them still
   * lists such an ID.
   */
  lemma {:induction false} PurgeUpdatesSpec(pls: seq<Playlist>, streams: map<Id, QueueStream>,
                                            sources: map<Id, StreamSource>)
    ensures forall c :: c in PurgeUpdates(pls, streams, sources) <==>
      exists p :: p in pls && (HasDangling(p.streamIds, streams) || HasDangling(p.streamSourceIds, sources))
                  && c == CleanPlaylist(p, streams, sources)
    ensures forall c :: c in PurgeUpdates(pls, streams, sources) ==>
      !HasDangling(c.streamIds, streams) && !HasDangling(c.streamSourceIds, sources)
  {
    if pls != [] {
      var init, p := pls[..|pls| - 1], pls[|pls| - 1];
      assert pls == init + [p];
      PurgeUpdatesSpec(init, streams, sources);
      CleanPlaylistSpec(p, streams, sources);
    }
  }

  // ----- the dangling-ID report of purge -----

  /** Every stream ID of the playlists that `get` cannot find, playlist by playlist. */
  function DanglingStreamIds(pls: seq<Playlist>, streams: map<Id, QueueStream>): seq<Id> {
    if pls == [] then []
    else DanglingStreamIds(pls[..|pls| - 1], streams) + Filter(pls[|pls| - 1].streamIds, Dangling(streams))
  }

  function DanglingSourceIds(pls: seq<Playlist>, sources: map<Id, StreamSource>): seq<Id> {
    if pls == [] then []
    else DanglingSourceIds(pls[..|pls| - 1], sources) + Filter(pls[|pls| - 1].streamSourceIds, Dangling(sources))
  }

  /**
   * The store calls purge makes when the dangling IDs it finds are reported,
   * as the `extend` calls evidently intend: a purge with nothing but
   * dangling IDs then still cleans the playlists.
   */
  function IntendedPurgeCalls(pls: seq<Playlist>, streams: Store<QueueStream>, sources: Store<StreamSource>,
                              permanentlyDelete: bool, includeSoftDeleted: bool, confirmed: bool): seq<StoreCall>
  {
    var qIds := Unlinked(streams.ids, StreamRefs(pls));
    var sIds := Unlinked(sources.ids, SourceRefs(pls));
    var noData := && qIds == [] && sIds == []
                  && DanglingStreamIds(pls, streams.byId) == [] && DanglingSourceIds(pls, sources.byId) == [];
    if !confirmed || noData then []
    else
      StreamDeletions(qIds, permanentlyDelete, includeSoftDeleted)
        + SourceDeletions(sIds, permanentlyDelete, includeSoftDeleted)
        + PlaylistUpdates(PurgeUpdates(pls, streams.byId, sources.byId))
  }

  /** The report is empty exactly when no playlist lists an ID `get` cannot find. */
  lemma {:induction false} DanglingReportEmpty(pls: seq<Playlist>, streams: map<Id, QueueStream>,
                                               sources: map<Id, StreamSource>)
    ensures DanglingStreamIds(pls, streams) == [] && DanglingSourceIds(pls, sources) == [] <==>
      PurgeUpdates(pls, streams, sources) == []
  {
    if pls != [] {
      var init, p := pls[..|pls| - 1], pls[|pls| - 1];
      DanglingReportEmpty(init, streams, sources);
      HasDanglingFilter(p.streamIds, streams);
      HasDanglingFilter(p.streamSourceIds, sources);
    }
  }

  /** Every playlist written back by a run of updates after some other calls has its own update call. */
  lemma UpdatesFollow(pre: seq<StoreCall>, updates: seq<Playlist>)
    ensures forall c :: c in updates ==> UpdatePlaylist(c) in pre + PlaylistUpdates(updates)
  {
    forall c | c in updates
      ensures UpdatePlaylist(c) in pre + PlaylistUpdates(updates)
    {
      var k :| 0 <= k < |updates| && updates[k] == c;
      assert (pre + PlaylistUpdates(updates))[|pre| + k] == UpdatePlaylist(c);
    }
  }

  /** A confirmed intended purge with a playlist to clean deletes the unlinked entities, then writes back. */
  lemma IntendedPurgeShape(pls: seq<Playlist>, streams: Store<QueueStream>, sources: Store<StreamSource>,
                           permanentlyDelete: bool, includeSoftDeleted: bool)
    requires PurgeUpdates(pls, streams.byId, sources.byId) != []
    ensures IntendedPurgeCalls(pls, streams, sources, permanentlyDelete, includeSoftDeleted, true)
      == StreamDeletions(Unlinked(streams.ids, StreamRefs(pls)), permanentlyDelete, includeSoftDeleted)
         + SourceDeletions(Unlinked(sources.ids, SourceRefs(pls)), permanentlyDelete, includeSoftDeleted)
         + PlaylistUpdates(PurgeUpdates(pls, streams.byId, sources.byId))
  {
    DanglingReportEmpty(pls, streams.byId, sources.byId);
  }

  /**
   * With the dangling IDs reported, a confirmed purge updates every
   * playlist that lists an ID `get` cannot find, with those IDs removed,
   * even when there is nothing unlinked to delete.
   */
  lemma IntendedPurgeCleansDangling(pls: seq<Playlist>, streams: Store<QueueStream>, sources: Store<StreamSource>,
                                    permanentlyDelete: bool, includeSoftDeleted: bool)
    ensures forall p :: p in pls && (HasDangling(p.streamIds, streams.byId) || HasDangling(p.streamSourceIds, sources.byId)) ==>
      UpdatePlaylist(CleanPlaylist(p, streams.byId, sources.byId))
        in IntendedPurgeCalls(pls, streams, sources, permanentlyDelete, includeSoftDeleted, true)
  {
    PurgeUpdatesSpec(pls, streams.byId, sources.byId);
    var updates := PurgeUpdates(pls, streams.byId, sources.byId);
    var calls := IntendedPurgeCalls(pls, streams, sources, permanentlyDelete, includeSoftDeleted, true);
    forall p | p in pls && (HasDangling(p.streamIds, streams.byId) || HasDangling(p.streamSourceIds, sources.byId))
      ensures UpdatePlaylist(CleanPlaylist(p, streams.byId, sources.byId)) in calls
    {
      assert CleanPlaylist(p, streams.byId, sources.byId) in updates;
      IntendedPurgeShape(pls, streams, sources, permanentlyDelete, includeSoftDeleted);
      UpdatesFollow(StreamDeletions(Unlinked(streams.ids, StreamRefs(pls)), permanentlyDelete, includeSoftDeleted)
                    + SourceDeletions(Unlinked(sources.ids, SourceRefs(pls)), permanentlyDelete, includeSoftDeleted),
                    updates);
    }
  }

  /**
   * With no stream or source stored there is nothing unlinked, so purge as
   * written makes no call at all, whereas the intended purge still writes
   * back every playlist that lists a missing ID.
   */
  lemma EmptyStorePurgeCalls(pls: seq<Playlist>, streams: Store<QueueStream>, sources: Store<StreamSource>,
                             permanentlyDelete: bool, includeSoftDeleted: bool, confirmed: bool)
    requires streams.ids == [] && sources.ids == []
    ensures PurgeCalls(pls, streams, sources, permanentlyDelete, includeSoftDeleted, confirmed) == []
    ensures IntendedPurgeCalls(pls, streams, sources, permanentlyDelete, includeSoftDeleted, true)
      == PlaylistUpdates(PurgeUpdates(pls, streams.byId, sources.byId))
  {
    DanglingReportEmpty(pls, streams.byId, sources.byId);
  }

  /** Cleaning a playlist whose only stream ID is missing empties its stream list. */
  lemma CleanMissingOnly(p: Playlist, gone: Id, streams: map<Id, QueueStream>, sources: map<Id, StreamSource>)
    requires p.streamIds == [gone] && p.streamSourceIds == [] && gone !in streams
    ensures CleanPlaylist(p, streams, sources) == p.(streamIds := [])
    ensures HasDangling(p.streamIds, streams)
  {
    FilterSingleton(gone, Present(streams));
    assert p.streamIds[0] !in streams;
  }

  /**
   * As written, the report's dangling-ID lists stay empty, so a store with a
   * dangling ID and nothing unlinked makes a confirmed purge do nothing: the
   * playlist keeps its dangling ID, while the intended purge cleans it.
   */
  lemma PurgeIgnoresDanglingOnly()
    ensures var p := Playlist("p", "list", false, ["gone"], [], None);
      var streams := Store([], map[]);
      var sources := Store([], map[]);
      && PurgeUpdates([p], streams.byId, sources.byId) == [p.(streamIds := [])]
      && PurgeCalls([p], streams, sources, false, false, true) == []
      && IntendedPurgeCalls([p], streams, sources, false, false, true) == [UpdatePlaylist(p.(streamIds := []))]
  {
    var p := Playlist("p", "list", false, ["gone"], [], None);
    var streams: Store<QueueStream> := Store([], map[]);
    var sources: Store<StreamSource> := Store([], map[]);
    CleanMissingOnly(p, "gone", streams.byId, sources.byId);
    assert [p][..0] == [];
    assert PurgeUpdates([p], streams.byId, sources.byId) == [p.(streamIds := [])];
    EmptyStorePurgeCalls([p], streams, sources, false, false, true);
  }

  /** searchFields: the first field the term matches, 1-based, or 0. */
  method SearchFields(searchTerm: string, fields: seq<string>, matches: (string, string) -> bool)
    returns (r: nat)
    ensures r == FirstMatch(matches, searchTerm, fields)
  {
    var i := 0;
    while i < |fields|
      invariant 0 <= i <= |fields|
      invariant forall k :: 0 <= k < i ==> !matches(searchTerm, fields[k])
    {
      if matches(searchTerm, fields[i]) {
        return i + 1;
      }
      i := i + 1;
    }
    return 0;
  }

  /** The stream loop of search. */
  method MatchingStreams(searchTerm: string, queueStreams: seq<QueueStream>, matches: (string, string) -> bool)
    returns (found: seq<QueueStream>)
    ensures found == Filter(queueStreams, StreamHit(matches, searchTerm))
  {
    found := [];
    var i := 0;
    while i < |queueStreams|
      invariant 0 <= i <= |queueStreams|
      invariant found == Filter(queueStreams[..i], StreamHit(matches, searchTerm))
    {
      var entity := queueStreams[i];
      assert queueStreams[..i + 1] == queueStreams[..i] + [entity];
      FilterSnoc(queueStreams[..i], entity, StreamHit(matches, searchTerm));
      var hit := SearchFields(searchTerm, [entity.name, entity.uri], matches);
      if hit > 0 {
        found := found + [entity];
      }
      i := i + 1;
    }
    assert queueStreams[..i] == queueStreams;
  }

  /** The source loop of search. */
  method MatchingSources(searchTerm: string, streamSources: seq<StreamSource>, matches: (string, string) -> bool)
    returns (found: seq<StreamSource>)
    ensures found == Filter(streamSources, SourceHit(matches, searchTerm))
  {
    found := [];
    var i := 0;
    while i < |streamSources|
      invariant 0 <= i <= |streamSources|
      invariant found == Filter(streamSources[..i], SourceHit(matches, searchTerm))
    {
      var entity := streamSources[i];
      assert streamSources[..i + 1] == streamSources[..i] + [entity];
      FilterSnoc(streamSources[..i], entity, SourceHit(matches, searchTerm));
      var hit := SearchFields(searchTerm, [entity.name, entity.uri], matches);
      if hit > 0 {
        found := found + [entity];
      }
      i := i + 1;
    }
    assert streamSources[..i] == streamSources;
  }

  /** The playlist loop of search: only the name is searched. */
  method MatchingPlaylists(searchTerm: string, playlists: seq<Playlist>, matches: (string, string) -> bool)
    returns (found: seq<Playlist>)
    ensures found == Filter(playlists, PlaylistHit(matches, searchTerm))
  {
    found := [];
    var i := 0;
    while i < |playlists|
      invariant 0 <= i <= |playlists|
      invariant found == Filter(playlists[..i], PlaylistHit(matches, searchTerm))
    {
      var entity := playlists[i];
      assert playlists[..i + 1] == playlists[..i] + [entity];
      FilterSnoc(playlists[..i], entity, PlaylistHit(matches, searchTerm));
      var hit := SearchFields(searchTerm, [entity.name], matches);
      if hit > 0 {
        found := found + [entity];
      }
      i := i + 1;
    }
    assert playlists[..i] == playlists;
  }

  /** search: the streams and sources whose name or URI match, and the playlists whose name matches. */
  method Search(searchTerm: string, queueStreams: seq<QueueStream>, streamSources: seq<StreamSource>,
                playlists: seq<Playlist>, matches: (string, string) -> bool)
    returns (data: EntityLists)
    ensures data == SearchResult(matches, searchTerm, queueStreams, streamSources, playlists)
  {
    var qs := MatchingStreams(searchTerm, queueStreams, matches);
    var ss := MatchingSources(searchTerm, streamSources, matches);
    var ps := MatchingPlaylists(searchTerm, playlists, matches);
    data := EntityLists(qs, ss, ps);
  }

  /** The comprehension loops of getAllSoftDeleted: keep the entities whose `deleted` is set. */
  method DeletedStreams(queueStreams: seq<QueueStream>) returns (found: seq<QueueStream>)
    ensures found == Filter(queueStreams, StreamDeleted)
  {
    found := [];
    var i := 0;
    while i < |queueStreams|
      invariant 0 <= i <= |queueStreams|
      invariant found == Filter(queueStreams[..i], StreamDeleted)
    {
      assert queueStreams[..i + 1] == queueStreams[..i] + [queueStreams[i]];
      FilterSnoc(queueStreams[..i], queueStreams[i], StreamDeleted);
      if queueStreams[i].deleted.Some? {
        found := found + [queueStreams[i]];
      }
      i := i + 1;
    }
    assert queueStreams[..i] == queueStreams;
  }

  method DeletedSources(streamSources: seq<StreamSource>) returns (found: seq<StreamSource>)
    ensures found == Filter(streamSources, SourceDeleted)
  {
    found := [];
    var i := 0;
    while i < |streamSources|
      invariant 0 <= i <= |streamSources|
      invariant found == Filter(streamSources[..i], SourceDeleted)
    {
      assert streamSources[..i + 1] == streamSources[..i] + [streamSources[i]];
      FilterSnoc(streamSources[..i], streamSources[i], SourceDeleted);
      if streamSources[i].deleted.Some? {
        found := found + [streamSources[i]];
      }
      i := i + 1;
    }
    assert streamSources[..i] == streamSources;
  }

  method DeletedPlaylists(playlists: seq<Playlist>) returns (found: seq<Playlist>)
    ensures found == Filter(playlists, PlaylistDeleted)
  {
    found := [];
    var i := 0;
    while i < |playlists|
      invariant 0 <= i <= |playlists|
      invariant found == Filter(playlists[..i], PlaylistDeleted)
    {
      assert playlists[..i + 1] == playlists[..i] + [playlists[i]];
      FilterSnoc(playlists[..i], playlists[i], PlaylistDeleted);
      if playlists[i].deleted.Some? {
        found := found + [playlists[i]];
      }
      i := i + 1;
    }
    assert playlists[..i] == playlists;
  }

  /** getAllSoftDeleted: every entity of each kind whose `deleted` is set, in store order. */
  method GetAllSoftDeleted(queueStreams: seq<QueueStream>, streamSources: seq<StreamSource>,
                           playlists: seq<Playlist>)
    returns (data: EntityLists)
    ensures data == SoftDeleted(queueStreams, streamSources, playlists)
  {
    var qs := DeletedStreams(queueStreams);
    var ss := DeletedSources(streamSources);
    var ps := DeletedPlaylists(playlists);
    data := EntityLists(qs, ss, ps);
  }
}
