/**
 * The fetcher: for each source of a playlist it decides whether to poll it,
 * scans the channel's videos (newest first) against a date window and a batch
 * cap, stamps the source's `lastFetched`, and appends what it found to the
 * playlist.
 */
module FetchService {
  import opened Entities
  import opened Seqs

  /** One video as the channel lister yields it; dates are plain instants. */
  datatype Candidate = Candidate(publishDate: int, title: string, watchUrl: string)

  /** What the channel lister reports for a source URI. */
  datatype Channel = Channel(channelName: Option<string>, videoUrls: seq<string>, videos: seq<Candidate>)

  /** The caller's scan options: `batchSize`, `takeAfter`, `takeBefore`. */
  datatype Window = Window(batchSize: int, takeAfter: Option<int>, takeBefore: Option<int>)

  /**
   * The world outside the fetcher: the channel lister, title sanitising, the
   * parsing of a stored `lastFetched`, the clock (one instant for the whole
   * run) and the source store's `update` verdict.
   */
  datatype Env = Env(
    channels: string -> Option<Channel>,
    sanitize: string -> string,
    parseLastFetched: Option<int> -> Option<int>,
    now: int,
    updateOk: StreamSource -> bool)

  function Max(a: int, b: int): int {
    if a < b then b else a
  }

  /** The video was published before the lower bound: the scan stops here. */
  predicate Older(v: Candidate, takeAfter: Option<int>) {
    takeAfter.Some? && v.publishDate < takeAfter.value
  }

  /** The video was published after the upper bound: the scan skips it. */
  predicate Newer(v: Candidate, takeBefore: Option<int>) {
    takeBefore.Some? && v.publishDate > takeBefore.value
  }

  /**
   * The indices the scan takes from position `i` on: stop at the first older
   * video, skip newer ones, take the rest, and stop right after taking one
   * whose index exceeds the batch size.
   */
  function Picks(vs: seq<Candidate>, i: nat, w: Window): seq<nat>
    decreases |vs| - i
  {
    if i >= |vs| || Older(vs[i], w.takeAfter) then []
    else if Newer(vs[i], w.takeBefore) then Picks(vs, i + 1, w)
    else [i] + (if i > w.batchSize then [] else Picks(vs, i + 1, w))
  }

  /** The stream the scan builds for a taken video. */
  function Posted(v: Candidate, sanitize: string -> string, now: int): NewStream {
    NewStream(sanitize(v.title), v.watchUrl, true, now)
  }

  predicate InRange(vs: seq<Candidate>, picks: seq<nat>) {
    forall k :: 0 <= k < |picks| ==> picks[k] < |vs|
  }

  /** The streams for the taken indices, in the order they were taken. */
  function ToStreams(vs: seq<Candidate>, picks: seq<nat>, sanitize: string -> string, now: int): (r: seq<NewStream>)
    requires InRange(vs, picks)
    ensures |r| == |picks|
    ensures forall k :: 0 <= k < |picks| ==> r[k] == Posted(vs[picks[k]], sanitize, now)
  {
    seq(|picks|, k requires 0 <= k < |picks| => Posted(vs[picks[k]], sanitize, now))
  }

  predicate Ascending(r: seq<nat>) {
    forall k, l :: 0 <= k < l < |r| ==> r[k] < r[l]
  }

  /** Every index is a position of `vs` whose video lies inside the window. */
  predicate Within(vs: seq<Candidate>, r: seq<nat>, w: Window) {
    InRange(vs, r) && forall k :: 0 <= k < |r| ==> !Older(vs[r[k]], w.takeAfter) && !Newer(vs[r[k]], w.takeBefore)
  }

  predicate From(r: seq<nat>, i: nat) {
    forall k :: 0 <= k < |r| ==> i <= r[k]
  }

  lemma PrependPick(vs: seq<Candidate>, i: nat, rest: seq<nat>, w: Window)
    requires i < |vs| && !Older(vs[i], w.takeAfter) && !Newer(vs[i], w.takeBefore)
    requires Ascending(rest) && Within(vs, rest, w) && From(rest, i + 1)
    ensures Ascending([i] + rest) && Within(vs, [i] + rest, w) && From([i] + rest, i)
  {
    var r := [i] + rest;
    assert forall k :: 1 <= k < |r| ==> r[k] == rest[k - 1];
  }

  /**
   * The taken indices are strictly increasing positions from `i` on (lister
   * order, never reversed), and each taken video lies inside the window.
   */
  lemma {:induction false} PicksSpec(vs: seq<Candidate>, i: nat, w: Window)
    ensures Ascending(Picks(vs, i, w)) && Within(vs, Picks(vs, i, w), w) && From(Picks(vs, i, w), i)
    decreases |vs| - i
  {
    if i < |vs| && !Older(vs[i], w.takeAfter) {
      PicksSpec(vs, i + 1, w);
      if !Newer(vs[i], w.takeBefore) {
        var rest := if i > w.batchSize then [] else Picks(vs, i + 1, w);
        PrependPick(vs, i, rest, w);
      }
    }
  }

  lemma PicksInRange(vs: seq<Candidate>, i: nat, w: Window)
    ensures InRange(vs, Picks(vs, i, w))
  {
    PicksSpec(vs, i, w);
  }

  /**
   * A video is taken exactly when it is inside the window and every earlier
   * video neither was older than the lower bound nor was taken past the
   * batch size.
   */
  lemma {:induction false} PicksIff(vs: seq<Candidate>, i: nat, w: Window)
    ensures forall k :: k in Picks(vs, i, w) <==>
      && i <= k < |vs|
      && !Older(vs[k], w.takeAfter) && !Newer(vs[k], w.takeBefore)
      && (forall j :: i <= j < k ==>
            !Older(vs[j], w.takeAfter) && (Newer(vs[j], w.takeBefore) || j <= w.batchSize))
    decreases |vs| - i
  {
    if i < |vs| && !Older(vs[i], w.takeAfter) {
      PicksIff(vs, i + 1, w);
      PicksSpec(vs, i + 1, w);
    }
  }

  /** Nothing at or after the first video older than the lower bound is taken. */
  lemma StopsAtFirstOlder(vs: seq<Candidate>, w: Window, j: nat)
    requires j < |vs| && Older(vs[j], w.takeAfter)
    ensures forall k :: k in Picks(vs, 0, w) ==> k < j
  {
    PicksIff(vs, 0, w);
  }

  /**
   * The cap is checked only after a take and against the overall index, so
   * at most `batchSize + 2` videos are taken from the start (one when the
   * batch size is negative).
   */
  lemma {:induction false} PicksCap(vs: seq<Candidate>, i: nat, w: Window)
    ensures |Picks(vs, i, w)| <= Max(w.batchSize + 2 - i, 1)
    decreases |vs| - i
  {
    if i < |vs| && !Older(vs[i], w.takeAfter) {
      PicksCap(vs, i + 1, w);
    }
  }

  /**
   * Newest first, with the window (25, 45]: the too-new video is skipped, the
   * two in the window are taken newest first, and the scan stops at the
   * first video older than 25 even though a later one would fit.
   */
  lemma PicksExample()
    ensures Picks([Candidate(50, "a", "u1"), Candidate(40, "b", "u2"), Candidate(30, "c", "u3"),
                   Candidate(20, "d", "u4"), Candidate(35, "e", "u5")],
                  0, Window(10, Some(25), Some(45))) == [1, 2]
  {
    var vs := [Candidate(50, "a", "u1"), Candidate(40, "b", "u2"), Candidate(30, "c", "u3"),
               Candidate(20, "d", "u4"), Candidate(35, "e", "u5")];
    var w := Window(10, Some(25), Some(45));
    assert Picks(vs, 3, w) == [];
    assert Picks(vs, 2, w) == [2];
    assert Picks(vs, 1, w) == [1, 2];
  }

  /** What `fetchYoutube` returns for the channel the lister reported. */
  function YoutubeStreams(channel: Option<Channel>, w: Window, sanitize: string -> string, now: int): seq<NewStream> {
    if channel.None? || channel.value.channelName.None? || |channel.value.videoUrls| < 1 then []
    else
      var vs := channel.value.videos;
      PicksInRange(vs, 0, w);
      ToStreams(vs, Picks(vs, 0, w), sanitize, now)
  }

  lemma ToStreamsSnoc(vs: seq<Candidate>, taken: seq<nat>, i: nat, sanitize: string -> string, now: int)
    requires InRange(vs, taken) && i < |vs|
    ensures InRange(vs, taken + [i])
    ensures ToStreams(vs, taken + [i], sanitize, now) == ToStreams(vs, taken, sanitize, now) + [Posted(vs[i], sanitize, now)]
  {
  }

  /** One turn of the scan: what remains to be taken after the decision at index `i`. */
  lemma ScanStep(vs: seq<Candidate>, taken: seq<nat>, i: nat, w: Window)
    requires i < |vs|
    ensures Older(vs[i], w.takeAfter) ==> taken + Picks(vs, i, w) == taken
    ensures !Older(vs[i], w.takeAfter) && Newer(vs[i], w.takeBefore) ==>
      taken + Picks(vs, i, w) == taken + Picks(vs, i + 1, w)
    ensures !Older(vs[i], w.takeAfter) && !Newer(vs[i], w.takeBefore) && i > w.batchSize ==>
      taken + Picks(vs, i, w) == taken + [i]
    ensures !Older(vs[i], w.takeAfter) && !Newer(vs[i], w.takeBefore) && i <= w.batchSize ==>
      taken + Picks(vs, i, w) == (taken + [i]) + Picks(vs, i + 1, w)
  {
  }

  /** The scan loop of `fetchYoutube` over the channel's videos. */
  method ScanVideos(vs: seq<Candidate>, w: Window, sanitize: string -> string, now: int)
    returns (streams: seq<NewStream>)
    ensures InRange(vs, Picks(vs, 0, w))
    ensures streams == ToStreams(vs, Picks(vs, 0, w), sanitize, now)
  {
    PicksInRange(vs, 0, w);
    streams := [];
    ghost var taken: seq<nat> := [];
    var i := 0;
    while i < |vs|
      invariant 0 <= i <= |vs|
      invariant InRange(vs, taken)
      invariant taken + Picks(vs, i, w) == Picks(vs, 0, w)
      invariant streams == ToStreams(vs, taken, sanitize, now)
    {
      var yt := vs[i];
      ScanStep(vs, taken, i, w);
      if w.takeAfter.Some? && yt.publishDate < w.takeAfter.value {
        break;
      }
      if w.takeBefore.Some? && yt.publishDate > w.takeBefore.value {
        i := i + 1;
        continue;
      }
      ToStreamsSnoc(vs, taken, i, sanitize, now);
      streams := streams + [Posted(yt, sanitize, now)];
      taken := taken + [i];
      if i > w.batchSize {
        break;
      }
      i := i + 1;
    }
    assert taken == Picks(vs, 0, w);
  }

  /** `fetchYoutube`: nothing for a missing or nameless channel or one without videos, else the scan. */
  method FetchYoutube(source: StreamSource, w: Window, channels: string -> Option<Channel>,
                      sanitize: string -> string, now: int)
    returns (streams: seq<NewStream>)
    ensures streams == YoutubeStreams(channels(source.uri), w, sanitize, now)
  {
    var channel := channels(source.uri);
    if channel.None? || channel.value.channelName.None? {
      return [];
    }
    if |channel.value.videoUrls| < 1 {
      return [];
    }
    streams := ScanVideos(channel.value.videos, w, sanitize, now);
  }

  // ----- fetch -----

  /** What fetch does with one listed source ID. */
  datatype Step = Skipped | Fetched(stamped: StreamSource, streams: seq<NewStream>)

  /** The source will be polled: it exists, fetching is enabled, and it is a web YouTube source. */
  function Eligible(sources: map<Id, StreamSource>): Id -> bool {
    id => id in sources && sources[id].enableFetch && sources[id].isWeb && sources[id].streamSourceType == YouTube
  }

  /**
   * One source: skipped when missing, disabled, not web or not YouTube;
   * otherwise scanned from the caller's lower bound (or, without one, from
   * the source's own `lastFetched`) and stamped with the current time.
   */
  function SourceStep(id: Id, sources: map<Id, StreamSource>, w: Window, env: Env): Step {
    if !Eligible(sources)(id) then Skipped
    else
      var s := sources[id];
      var after := if w.takeAfter.Some? then w.takeAfter else env.parseLastFetched(s.lastFetched);
      Fetched(s.(lastFetched := Some(env.now)),
              YoutubeStreams(env.channels(s.uri), w.(takeAfter := after), env.sanitize, env.now))
  }

  /** The `update` calls fetch makes and the streams it gathers. */
  datatype Gathered = Gathered(updates: seq<StoreCall>, streams: seq<NewStream>)

  function Join(a: Gathered, b: Gathered): Gathered {
    Gathered(a.updates + b.updates, a.streams + b.streams)
  }

  /** The `update` call and the streams one step contributes. */
  function Own(step: Step, env: Env): Gathered {
    match step
    case Skipped => Gathered([], [])
    case Fetched(stamped, streams) =>
      Gathered([UpdateSource(stamped)], if env.updateOk(stamped) then streams else [])
  }

  /** What later `get`s return after the step: the stamped source once its update succeeded. */
  function After(sources: map<Id, StreamSource>, step: Step, env: Env): map<Id, StreamSource> {
    if step.Fetched? && env.updateOk(step.stamped) then sources[step.stamped.id := step.stamped] else sources
  }

  /**
   * The source loop from the front: a polled source is stamped and updated,
   * its streams join the aggregate only when the update succeeds, and a
   * successful update is what later `get`s of that source return.
   */
  function GatherFrom(ids: seq<Id>, sources: map<Id, StreamSource>, w: Window, env: Env): Gathered
    decreases |ids|
  {
    if ids == [] then Gathered([], [])
    else
      var step := SourceStep(ids[0], sources, w, env);
      Join(Own(step, env), GatherFrom(ids[1..], After(sources, step, env), w, env))
  }

  /** The lookup, filtering and channel scan for one listed source ID. */
  method FetchSource(id: Id, sources: map<Id, StreamSource>, w: Window, env: Env) returns (step: Step)
    ensures step == SourceStep(id, sources, w, env)
  {
    if id !in sources {
      return Skipped;
    }
    var s := sources[id];
    if !s.enableFetch {
      return Skipped;
    }
    var after := if w.takeAfter.Some? then w.takeAfter else env.parseLastFetched(s.lastFetched);
    if !s.isWeb || s.streamSourceType != YouTube {
      return Skipped;
    }
    var fetched := FetchYoutube(s, w.(takeAfter := after), env.channels, env.sanitize, env.now);
    step := Fetched(s.(lastFetched := Some(env.now)), fetched);
  }

  lemma JoinAssoc(a: Gathered, b: Gathered, c: Gathered)
    ensures Join(a, Join(b, c)) == Join(Join(a, b), c)
  {
  }

  /** One turn of the source loop, from position `k`. */
  lemma GatherUnfold(ids: seq<Id>, k: nat, sources: map<Id, StreamSource>, w: Window, env: Env)
    requires k < |ids|
    ensures var step := SourceStep(ids[k], sources, w, env);
      GatherFrom(ids[k..], sources, w, env)
        == Join(Own(step, env), GatherFrom(ids[k + 1..], After(sources, step, env), w, env))
  {
    assert ids[k..][1..] == ids[k + 1..];
  }

  /** The source loop of fetch. */
  method GatherAll(ids: seq<Id>, sources: map<Id, StreamSource>, w: Window, env: Env) returns (g: Gathered)
    ensures g == GatherFrom(ids, sources, w, env)
  {
    g := Gathered([], []);
    var view := sources;
    var k := 0;
    while k < |ids|
      invariant 0 <= k <= |ids|
      invariant Join(g, GatherFrom(ids[k..], view, w, env)) == GatherFrom(ids, sources, w, env)
    {
      var step := FetchSource(ids[k], view, w, env);
      GatherUnfold(ids, k, view, w, env);
      JoinAssoc(g, Own(step, env), GatherFrom(ids[k + 1..], After(view, step, env), w, env));
      g := Join(g, Own(step, env));
      view := After(view, step, env);
      k := k + 1;
    }
  }

  /**
   * `fetch`: nothing for an unknown playlist; otherwise every polled source
   * is updated, the gathered streams are appended to the playlist in one
   * call, and the count is the number gathered when that call reports
   * success, else 0.
   */
  method Fetch(playlistId: Id, w: Window, playlists: map<Id, Playlist>, sources: map<Id, StreamSource>,
               env: Env, addResult: (Id, seq<NewStream>) -> int)
    returns (count: int, calls: seq<StoreCall>)
    ensures playlistId !in playlists ==> count == 0 && calls == []
    ensures playlistId in playlists ==>
      var p := playlists[playlistId];
      var g := GatherFrom(p.streamSourceIds, sources, w, env);
      && calls == g.updates + [AddStreams(p.id, g.streams)]
      && count == (if addResult(p.id, g.streams) > 0 then |g.streams| else 0)
  {
    if playlistId !in playlists {
      return 0, [];
    }
    var p := playlists[playlistId];
    var g := GatherAll(p.streamSourceIds, sources, w, env);
    calls := g.updates + [AddStreams(p.id, g.streams)];
    if addResult(p.id, g.streams) > 0 {
      count := |g.streams|;
    } else {
      count := 0;
    }
  }

  // ----- properties of the source loop -----

  /**
   * Every `update` fetch makes is for a polled source (enabled, web,
   * YouTube) stamped with the current time.
   */
  lemma {:induction false} UpdatesStamped(ids: seq<Id>, sources: map<Id, StreamSource>, w: Window, env: Env)
    ensures forall c :: c in GatherFrom(ids, sources, w, env).updates ==>
      && c.UpdateSource? && c.source.lastFetched == Some(env.now)
      && c.source.enableFetch && c.source.isWeb && c.source.streamSourceType == YouTube
    decreases |ids|
  {
    if ids != [] {
      match SourceStep(ids[0], sources, w, env)
      case Skipped =>
        UpdatesStamped(ids[1..], sources, w, env);
      case Fetched(stamped, streams) =>
        var next := if env.updateOk(stamped) then sources[stamped.id := stamped] else sources;
        UpdatesStamped(ids[1..], next, w, env);
    }
  }

  /** Stamping a stored source does not change which sources are polled. */
  lemma StampKeepsEligible(sources: map<Id, StreamSource>, id: Id, now: int)
    requires SourcesKeyed(sources) && id in sources
    ensures var next := sources[sources[id].id := sources[id].(lastFetched := Some(now))];
      && SourcesKeyed(next)
      && forall x :: Eligible(next)(x) == Eligible(sources)(x)
  {
  }

  /** The `update` calls are, one each and in order, for the sources with the given IDs. */
  predicate UpdatesFor(u: seq<StoreCall>, polled: seq<Id>) {
    && |u| == |polled|
    && forall k :: 0 <= k < |u| ==> u[k].UpdateSource? && u[k].source.id == polled[k]
  }

  lemma UpdatesForCons(s: StreamSource, u: seq<StoreCall>, polled: seq<Id>)
    requires UpdatesFor(u, polled)
    ensures UpdatesFor([UpdateSource(s)] + u, [s.id] + polled)
  {
  }

  /**
   * With a store whose `get` returns the source under its own ID, every
   * polled listing gets exactly one `update`, of its own source and in
   * listing order, whether or not the scan found anything and whether or not
   * an earlier update succeeded.
   */
  lemma {:induction false} EveryPolledSourceUpdated(ids: seq<Id>, sources: map<Id, StreamSource>, w: Window, env: Env)
    requires SourcesKeyed(sources)
    ensures var u := GatherFrom(ids, sources, w, env).updates;
      && |u| == |Filter(ids, Eligible(sources))|
      && forall k :: 0 <= k < |u| ==> u[k].UpdateSource? && u[k].source.id == Filter(ids, Eligible(sources))[k]
    decreases |ids|
  {
    if ids != [] {
      assert ids == [ids[0]] + ids[1..];
      FilterCons(ids[0], ids[1..], Eligible(sources));
      var rest := Filter(ids[1..], Eligible(sources));
      match SourceStep(ids[0], sources, w, env)
      case Skipped =>
        EveryPolledSourceUpdated(ids[1..], sources, w, env);
      case Fetched(stamped, streams) =>
        assert stamped.id == ids[0];
        var next := After(sources, Fetched(stamped, streams), env);
        if env.updateOk(stamped) {
          StampKeepsEligible(sources, ids[0], env.now);
          FilterExt(ids[1..], Eligible(next), Eligible(sources));
        }
        EveryPolledSourceUpdated(ids[1..], next, w, env);
        UpdatesForCons(stamped, GatherFrom(ids[1..], next, w, env).updates, rest);
    }
  }

  /** When every `update` fails, fetch gathers no streams at all. */
  lemma {:induction false} FailedUpdatesGatherNothing(ids: seq<Id>, sources: map<Id, StreamSource>, w: Window, env: Env)
    requires forall s :: !env.updateOk(s)
    ensures GatherFrom(ids, sources, w, env).streams == []
    decreases |ids|
  {
    if ids != [] {
      FailedUpdatesGatherNothing(ids[1..], sources, w, env);
    }
  }

  /** A single source contributes at most `batchSize + 2` streams (at least one allowed). */
  lemma YoutubeStreamsCap(channel: Option<Channel>, w: Window, sanitize: string -> string, now: int)
    ensures |YoutubeStreams(channel, w, sanitize, now)| <= Max(w.batchSize + 2, 1)
  {
    if channel.Some? {
      PicksCap(channel.value.videos, 0, w);
    }
  }

  /** One listed source contributes at most the per-source cap. */
  lemma StepCap(id: Id, sources: map<Id, StreamSource>, w: Window, env: Env)
    ensures |Own(SourceStep(id, sources, w, env), env).streams| <= Max(w.batchSize + 2, 1)
  {
    if Eligible(sources)(id) {
      var s := sources[id];
      var after := if w.takeAfter.Some? then w.takeAfter else env.parseLastFetched(s.lastFetched);
      YoutubeStreamsCap(env.channels(s.uri), w.(takeAfter := after), env.sanitize, env.now);
    }
  }

  lemma PeelFactor(n: nat, c: int)
    requires n > 0
    ensures n * c == (n - 1) * c + c
  {
  }

  /** The aggregate is bounded by the per-source cap times the number of listed sources. */
  lemma {:induction false} GatheredCap(ids: seq<Id>, sources: map<Id, StreamSource>, w: Window, env: Env)
    ensures |GatherFrom(ids, sources, w, env).streams| <= |ids| * Max(w.batchSize + 2, 1)
    decreases |ids|
  {
    if ids != [] {
      var step := SourceStep(ids[0], sources, w, env);
      StepCap(ids[0], sources, w, env);
      GatheredCap(ids[1..], After(sources, step, env), w, env);
      PeelFactor(|ids|, Max(w.batchSize + 2, 1));
    }
  }

  /**
   * When the caller gives a lower bound, the stored `lastFetched` values are
   * not consulted: how they parse makes no difference to the run.
   */
  lemma {:induction false} GivenBoundIgnoresLastFetched(ids: seq<Id>, sources: map<Id, StreamSource>, w: Window,
                                                        env: Env, parse: Option<int> -> Option<int>)
    requires w.takeAfter.Some?
    ensures GatherFrom(ids, sources, w, env) == GatherFrom(ids, sources, w, env.(parseLastFetched := parse))
    decreases |ids|
  {
    if ids != [] {
      var env' := env.(parseLastFetched := parse);
      assert SourceStep(ids[0], sources, w, env) == SourceStep(ids[0], sources, w, env');
      match SourceStep(ids[0], sources, w, env)
      case Skipped =>
        GivenBoundIgnoresLastFetched(ids[1..], sources, w, env, parse);
      case Fetched(stamped, streams) =>
        var next := if env.updateOk(stamped) then sources[stamped.id := stamped] else sources;
        GivenBoundIgnoresLastFetched(ids[1..], next, w, env, parse);
    }
  }
}
