/**
 * services/SharedService.py: the prepare/do pairs for prune and purge. Each
 * prepare step reads the stores and returns a PlaylistDetailed (here
 * `EntityLists`); each do step makes the store calls for it. `exists(id)` is
 * key membership in the existence views `existingStreams`/`existingSources`.
 * search, searchFields and getAllSoftDeleted are the same code as in the root
 * SharedService.py and share that model.
 */
module ServicesSharedService {
  import opened Entities
  import opened Seqs
  import opened Housekeeping
  import SharedService

  // ----- preparePrune -----

  /** What preparePrune returns for a playlist that passes its checks. */
  function PrunePlan(p: Playlist, streams: map<Id, QueueStream>): EntityLists {
    var qs := PruneStreams(p.streamIds, streams);
    EntityLists(qs, [], if |qs| > 0 then [p] else [])
  }

  /**
   * preparePrune: nothing for a missing playlist or one that replays watched
   * streams; otherwise its existing watched streams, and the playlist itself
   * when there is at least one.
   */
  method PreparePrune(playlistId: Id, playlists: map<Id, Playlist>, streams: map<Id, QueueStream>)
    returns (data: EntityLists)
    ensures playlistId !in playlists || playlists[playlistId].playWatchedStreams ==> data == NoEntities
    ensures playlistId in playlists && !playlists[playlistId].playWatchedStreams ==>
      data == PrunePlan(playlists[playlistId], streams)
  {
    if playlistId !in playlists || playlists[playlistId].playWatchedStreams {
      return NoEntities;
    }
    var playlist := playlists[playlistId];
    var qs := SharedService.CollectWatched(playlist.streamIds, streams);
    data := EntityLists(qs, [], []);
    if |data.queueStream| > 0 {
      data := data.(playlist := data.playlist + [playlist]);
    }
  }

  // ----- doPrune -----

  /** The outcome of a run of store calls: the boolean result, the calls made, and the playlists as left in memory. */
  datatype Run = Run(ok: bool, calls: seq<StoreCall>, playlists: seq<Playlist>)

  /** A run preceded by some calls already made. */
  function Then(before: seq<StoreCall>, r: Run): Run {
    Run(r.ok, before + r.calls, r.playlists)
  }

  /** `id` is still in the stream lists of the playlists from position `j` on. */
  predicate Holds(id: Id, pls: seq<Playlist>, j: nat) {
    forall k :: j <= k < |pls| ==> id in pls[k].streamIds
  }

  /**
   * The inner loop of doPrune, from playlist `j` on: remove `id` once from the
   * playlist, update it, and stop at the first update that fails.
   */
  function UnlistFrom(id: Id, pls: seq<Playlist>, j: nat, updateOk: Playlist -> bool): (r: Run)
    requires j <= |pls| && Holds(id, pls, j)
    ensures |r.playlists| == |pls|
    ensures r.ok ==> forall k :: 0 <= k < |pls| ==>
      r.playlists[k] == if k < j then pls[k] else pls[k].(streamIds := RemoveFirst(pls[k].streamIds, id))
    decreases |pls| - j
  {
    if j == |pls| then Run(true, [], pls)
    else
      var p := pls[j].(streamIds := RemoveFirst(pls[j].streamIds, id));
      if !updateOk(p) then Run(false, [UpdatePlaylist(p)], pls[j := p])
      else Then([UpdatePlaylist(p)], UnlistFrom(id, pls[j := p], j + 1, updateOk))
  }

  /** Every stream ID to prune can be removed from every playlist, as often as it is listed. */
  predicate Removable(ids: seq<Id>, pls: seq<Playlist>) {
    forall k :: 0 <= k < |pls| ==> multiset(ids) <= multiset(pls[k].streamIds)
  }

  /** The first ID can be removed from every playlist, and the rest can be removed afterwards. */
  lemma RemovableHead(ids: seq<Id>, pls: seq<Playlist>)
    requires Removable(ids, pls) && ids != []
    ensures Holds(ids[0], pls, 0)
    ensures forall k :: 0 <= k < |pls| ==> multiset(ids[1..]) <= multiset(RemoveFirst(pls[k].streamIds, ids[0]))
  {
    assert ids == [ids[0]] + ids[1..];
    assert multiset(ids) == multiset{ids[0]} + multiset(ids[1..]);
    forall k | 0 <= k < |pls| ensures ids[0] in pls[k].streamIds {
      assert ids[0] in multiset(pls[k].streamIds);
    }
  }

  /**
   * doPrune over the stream IDs `ids`: delete the stream, unlist it from every
   * playlist, and stop at the first failed update.
   */
  function DoPruneFrom(ids: seq<Id>, pls: seq<Playlist>, permanentlyDelete: bool, includeSoftDeleted: bool,
                       updateOk: Playlist -> bool): (r: Run)
    requires Removable(ids, pls)
    ensures |r.playlists| == |pls|
    decreases |ids|
  {
    if ids == [] then Run(true, [], pls)
    else
      RemovableHead(ids, pls);
      var del := SharedService.StreamDeletion(ids[0], permanentlyDelete, includeSoftDeleted);
      var u := UnlistFrom(ids[0], pls, 0, updateOk);
      if !u.ok then Then([del], u)
      else
        assert Removable(ids[1..], u.playlists) by {
          forall k | 0 <= k < |pls|
            ensures multiset(ids[1..]) <= multiset(u.playlists[k].streamIds)
          {
            assert u.playlists[k].streamIds == RemoveFirst(pls[k].streamIds, ids[0]);
          }
        }
        Then([del] + u.calls, DoPruneFrom(ids[1..], u.playlists, permanentlyDelete, includeSoftDeleted, updateOk))
  }

  /** One step of doPrune: the first stream's deletion and unlisting, then the rest. */
  lemma DoPruneStep(ids: seq<Id>, pls: seq<Playlist>, permanentlyDelete: bool, includeSoftDeleted: bool,
                    updateOk: Playlist -> bool)
    requires Removable(ids, pls) && ids != []
    ensures Holds(ids[0], pls, 0)
    ensures var u := UnlistFrom(ids[0], pls, 0, updateOk);
      var del := SharedService.StreamDeletion(ids[0], permanentlyDelete, includeSoftDeleted);
      && (u.ok ==> Removable(ids[1..], u.playlists))
      && DoPruneFrom(ids, pls, permanentlyDelete, includeSoftDeleted, updateOk) ==
           if u.ok then Then([del] + u.calls, DoPruneFrom(ids[1..], u.playlists, permanentlyDelete, includeSoftDeleted, updateOk))
           else Then([del], u)
  {
    RemovableHead(ids, pls);
    var u := UnlistFrom(ids[0], pls, 0, updateOk);
    if u.ok {
      forall k | 0 <= k < |pls| ensures multiset(ids[1..]) <= multiset(u.playlists[k].streamIds) {
        assert u.playlists[k].streamIds == RemoveFirst(pls[k].streamIds, ids[0]);
      }
    }
  }

  /** The inner loop of doPrune for one stream ID. */
  method Unlist(id: Id, pls: seq<Playlist>, updateOk: Playlist -> bool)
    returns (ok: bool, calls: seq<StoreCall>, updated: seq<Playlist>)
    requires Holds(id, pls, 0)
    ensures Run(ok, calls, updated) == UnlistFrom(id, pls, 0, updateOk)
  {
    calls := [];
    updated := pls;
    var j := 0;
    while j < |updated|
      invariant 0 <= j <= |updated| == |pls|
      invariant Holds(id, updated, j)
      invariant Then(calls, UnlistFrom(id, updated, j, updateOk)) == UnlistFrom(id, pls, 0, updateOk)
    {
      var playlist := updated[j].(streamIds := RemoveFirst(updated[j].streamIds, id));
      updated := updated[j := playlist];
      calls := calls + [UpdatePlaylist(playlist)];
      if !updateOk(playlist) {
        return false, calls, updated;
      }
      j := j + 1;
    }
    ok := true;
  }

  /** The body of doPrune's outer loop: delete one stream and unlist it from every playlist. */
  method PruneStream(stream: QueueStream, pls: seq<Playlist>, includeSoftDeleted: bool, permanentlyDelete: bool,
                     updateOk: Playlist -> bool)
    returns (ok: bool, calls: seq<StoreCall>, updated: seq<Playlist>)
    requires Holds(stream.id, pls, 0)
    ensures Run(ok, calls, updated) ==
      Then([SharedService.StreamDeletion(stream.id, permanentlyDelete, includeSoftDeleted)],
           UnlistFrom(stream.id, pls, 0, updateOk))
  {
    var updates;
    ok, updates, updated := Unlist(stream.id, pls, updateOk);
    calls := [SharedService.StreamDeletion(stream.id, permanentlyDelete, includeSoftDeleted)] + updates;
  }

  /**
   * doPrune: for each stream of the data, delete it (hard or soft) and remove
   * its ID once from each playlist of the data, updating the playlist each
   * time; false at the first failed update, true otherwise.
   */
  method DoPrune(data: EntityLists, includeSoftDeleted: bool, permanentlyDelete: bool, updateOk: Playlist -> bool)
    returns (ok: bool, calls: seq<StoreCall>, playlists: seq<Playlist>)
    requires Removable(IdsOfStreams(data.queueStream), data.playlist)
    ensures Run(ok, calls, playlists) ==
      DoPruneFrom(IdsOfStreams(data.queueStream), data.playlist, permanentlyDelete, includeSoftDeleted, updateOk)
  {
    ghost var ids := IdsOfStreams(data.queueStream);
    calls := [];
    playlists := data.playlist;
    var i := 0;
    while i < |data.queueStream|
      invariant 0 <= i <= |data.queueStream|
      invariant Removable(ids[i..], playlists)
      invariant Then(calls, DoPruneFrom(ids[i..], playlists, permanentlyDelete, includeSoftDeleted, updateOk))
        == DoPruneFrom(ids, data.playlist, permanentlyDelete, includeSoftDeleted, updateOk)
    {
      assert ids[i..][0] == data.queueStream[i].id && ids[i..][1..] == ids[i + 1..];
      DoPruneStep(ids[i..], playlists, permanentlyDelete, includeSoftDeleted, updateOk);
      var pruned, streamCalls;
      pruned, streamCalls, playlists := PruneStream(data.queueStream[i], playlists, includeSoftDeleted,
                                                    permanentlyDelete, updateOk);
      calls := calls + streamCalls;
      if !pruned {
        return false, calls, playlists;
      }
      i := i + 1;
    }
    ok := true;
  }

  /**
   * A run stops at its first rejected update: every update before its last
   * call was accepted, a run that returns true had every update accepted,
   * and a run that returns false ends with the rejected update.
   */
  predicate StopsAtFirstFailure(r: Run, updateOk: Playlist -> bool) {
    && (forall k :: 0 <= k < |r.calls| - 1 && r.calls[k].UpdatePlaylist? ==> updateOk(r.calls[k].playlist))
    && (r.ok ==> forall k :: 0 <= k < |r.calls| && r.calls[k].UpdatePlaylist? ==> updateOk(r.calls[k].playlist))
    && (!r.ok ==> r.calls != [] && r.calls[|r.calls| - 1].UpdatePlaylist?
                  && !updateOk(r.calls[|r.calls| - 1].playlist))
  }

  /** Calls that made no rejected update, placed before a run, keep it stopping at its first failure. */
  lemma ThenStops(before: seq<StoreCall>, r: Run, updateOk: Playlist -> bool)
    requires forall k :: 0 <= k < |before| && before[k].UpdatePlaylist? ==> updateOk(before[k].playlist)
    requires StopsAtFirstFailure(r, updateOk)
    ensures StopsAtFirstFailure(Then(before, r), updateOk)
  {
    var cs := before + r.calls;
    forall k | 0 <= k < |cs| - 1 && cs[k].UpdatePlaylist? ensures updateOk(cs[k].playlist) {
      if k >= |before| {
        assert cs[k] == r.calls[k - |before|];
      }
    }
    if !r.ok {
      assert cs[|cs| - 1] == r.calls[|r.calls| - 1];
    } else {
      forall k | 0 <= k < |cs| && cs[k].UpdatePlaylist? ensures updateOk(cs[k].playlist) {
        if k >= |before| {
          assert cs[k] == r.calls[k - |before|];
        }
      }
    }
  }

  /** The inner loop makes only updates and stops at the first one rejected. */
  lemma {:induction false} UnlistOutcome(id: Id, pls: seq<Playlist>, j: nat, updateOk: Playlist -> bool)
    requires j <= |pls| && Holds(id, pls, j)
    ensures var r := UnlistFrom(id, pls, j, updateOk);
      && (forall k :: 0 <= k < |r.calls| ==> r.calls[k].UpdatePlaylist?)
      && StopsAtFirstFailure(r, updateOk)
    decreases |pls| - j
  {
    if j < |pls| {
      var p := pls[j].(streamIds := RemoveFirst(pls[j].streamIds, id));
      if updateOk(p) {
        var rest := UnlistFrom(id, pls[j := p], j + 1, updateOk);
        UnlistOutcome(id, pls[j := p], j + 1, updateOk);
        ThenStops([UpdatePlaylist(p)], rest, updateOk);
      }
    }
  }

  /** A deletion followed by a successful run's calls holds no rejected update. */
  lemma AcceptedBefore(del: StoreCall, u: Run, updateOk: Playlist -> bool)
    requires !del.UpdatePlaylist? && u.ok && StopsAtFirstFailure(u, updateOk)
    ensures var cs := [del] + u.calls;
      forall k :: 0 <= k < |cs| && cs[k].UpdatePlaylist? ==> updateOk(cs[k].playlist)
  {
    var cs := [del] + u.calls;
    forall k | 0 <= k < |cs| && cs[k].UpdatePlaylist? ensures updateOk(cs[k].playlist) {
      assert cs[k] == u.calls[k - 1];
    }
  }

  /**
   * doPrune returns false exactly when an update was rejected: the rejected
   * update is its last call, so no later stream is processed, and every
   * update before it was accepted.
   */
  lemma {:induction false} DoPruneOutcome(ids: seq<Id>, pls: seq<Playlist>, permanentlyDelete: bool,
                                          includeSoftDeleted: bool, updateOk: Playlist -> bool)
    requires Removable(ids, pls)
    ensures StopsAtFirstFailure(DoPruneFrom(ids, pls, permanentlyDelete, includeSoftDeleted, updateOk), updateOk)
    decreases |ids|
  {
    if ids != [] {
      DoPruneStep(ids, pls, permanentlyDelete, includeSoftDeleted, updateOk);
      UnlistOutcome(ids[0], pls, 0, updateOk);
      var u := UnlistFrom(ids[0], pls, 0, updateOk);
      var del := SharedService.StreamDeletion(ids[0], permanentlyDelete, includeSoftDeleted);
      if u.ok {
        var rest := DoPruneFrom(ids[1..], u.playlists, permanentlyDelete, includeSoftDeleted, updateOk);
        DoPruneOutcome(ids[1..], u.playlists, permanentlyDelete, includeSoftDeleted, updateOk);
        AcceptedBefore(del, u, updateOk);
        ThenStops([del] + u.calls, rest, updateOk);
      } else {
        ThenStops([del], u, updateOk);
      }
    }
  }

  /** Removing `x` first and then `xs` is removing `[x] + xs`. */
  lemma {:induction false} RemoveEachCons(s: seq<Id>, x: Id, xs: seq<Id>)
    requires multiset([x] + xs) <= multiset(s)
    ensures x in s && multiset(xs) <= multiset(RemoveFirst(s, x))
    ensures RemoveEach(s, [x] + xs) == RemoveEach(RemoveFirst(s, x), xs)
    decreases |xs|
  {
    assert multiset([x] + xs) == multiset{x} + multiset(xs);
    assert x in multiset(s);
    if xs != [] {
      var init, last := xs[..|xs| - 1], xs[|xs| - 1];
      assert xs == init + [last];
      assert ([x] + xs)[..|[x] + xs| - 1] == [x] + init;
      assert multiset([x] + init) <= multiset([x] + xs);
      RemoveEachCons(s, x, init);
    } else {
      assert ([x] + xs)[..0] == [];
    }
  }

  /**
   * When doPrune succeeds, every playlist of the data has lost each pruned
   * ID once, in the order `list.remove` removes them, and nothing else.
   */
  lemma {:induction false} DoPruneSuccess(ids: seq<Id>, pls: seq<Playlist>, permanentlyDelete: bool,
                                          includeSoftDeleted: bool, updateOk: Playlist -> bool)
    requires Removable(ids, pls)
    ensures var r := DoPruneFrom(ids, pls, permanentlyDelete, includeSoftDeleted, updateOk);
      r.ok ==> forall k :: 0 <= k < |pls| ==>
        r.playlists[k] == pls[k].(streamIds := RemoveEach(pls[k].streamIds, ids))
    decreases |ids|
  {
    if ids != [] {
      DoPruneStep(ids, pls, permanentlyDelete, includeSoftDeleted, updateOk);
      var u := UnlistFrom(ids[0], pls, 0, updateOk);
      if u.ok {
        DoPruneSuccess(ids[1..], u.playlists, permanentlyDelete, includeSoftDeleted, updateOk);
        assert [ids[0]] + ids[1..] == ids;
        forall k | 0 <= k < |pls|
          ensures RemoveEach(u.playlists[k].streamIds, ids[1..]) == RemoveEach(pls[k].streamIds, ids)
        {
          assert u.playlists[k].streamIds == RemoveFirst(pls[k].streamIds, ids[0]);
          RemoveEachCons(pls[k].streamIds, ids[0], ids[1..]);
        }
      }
    } else {
      forall k | 0 <= k < |pls| ensures pls[k].(streamIds := RemoveEach(pls[k].streamIds, ids)) == pls[k] { }
    }
  }

  /** The plan preparePrune makes names the selected IDs, and each can be removed from the playlist it lists. */
  lemma PrunePlanRemovable(p: Playlist, streams: map<Id, QueueStream>)
    requires StreamsKeyed(streams)
    ensures IdsOfStreams(PrunePlan(p, streams).queueStream) == PruneIds(p.streamIds, streams)
    ensures Removable(IdsOfStreams(PrunePlan(p, streams).queueStream), PrunePlan(p, streams).playlist)
  {
    PruneSelection(p.streamIds, streams);
    PruneRewrite(p.streamIds, streams);
  }

  /**
   * preparePrune then doPrune: the plan always satisfies doPrune's demand that
   * every ID can be removed, and a successful run leaves the pruned playlist
   * with exactly the entries that are not existing watched streams, as the
   * root prune does.
   */
  lemma PrepareThenDoPrune(p: Playlist, streams: map<Id, QueueStream>, permanentlyDelete: bool,
                           includeSoftDeleted: bool, updateOk: Playlist -> bool)
    requires StreamsKeyed(streams)
    ensures Removable(IdsOfStreams(PrunePlan(p, streams).queueStream), PrunePlan(p, streams).playlist)
    ensures var plan := PrunePlan(p, streams);
      var r := DoPruneFrom(IdsOfStreams(plan.queueStream), plan.playlist, permanentlyDelete, includeSoftDeleted, updateOk);
      && (PruneIds(p.streamIds, streams) == [] ==> r == Run(true, [], []))
      && (r.ok && PruneIds(p.streamIds, streams) != [] ==>
            r.playlists == [p.(streamIds := Unpruned(p.streamIds, streams))])
  {
    PrunePlanRemovable(p, streams);
    var plan := PrunePlan(p, streams);
    var ids := IdsOfStreams(plan.queueStream);
    DoPruneSuccess(ids, plan.playlist, permanentlyDelete, includeSoftDeleted, updateOk);
    PruneRewrite(p.streamIds, streams);
  }

  // ----- preparePurge / doPurge -----

  function StreamRemovals(qs: seq<QueueStream>): seq<StoreCall> {
    seq(|qs|, k requires 0 <= k < |qs| => RemoveStream(qs[k].id, true))
  }

  function SourceRemovals(ss: seq<StreamSource>): seq<StoreCall> {
    seq(|ss|, k requires 0 <= k < |ss| => RemoveSource(ss[k].id, true))
  }

  function PlaylistRemovals(ps: seq<Playlist>): seq<StoreCall> {
    seq(|ps|, k requires 0 <= k < |ps| => RemovePlaylist(ps[k].id, true))
  }

  /** doPurge: hard-remove every listed entity, soft-deleted ones included; the result is always true. */
  method DoPurge(data: EntityLists) returns (ok: bool, calls: seq<StoreCall>)
    ensures ok
    ensures calls == StreamRemovals(data.queueStream) + SourceRemovals(data.streamSource)
                     + PlaylistRemovals(data.playlist)
  {
    calls := [];
    var k := 0;
    while k < |data.queueStream|
      invariant 0 <= k <= |data.queueStream|
      invariant calls == StreamRemovals(data.queueStream[..k])
    {
      calls := calls + [RemoveStream(data.queueStream[k].id, true)];
      k := k + 1;
    }
    assert data.queueStream[..k] == data.queueStream;
    ghost var streamCalls := calls;
    k := 0;
    while k < |data.streamSource|
      invariant 0 <= k <= |data.streamSource|
      invariant calls == streamCalls + SourceRemovals(data.streamSource[..k])
    {
      calls := calls + [RemoveSource(data.streamSource[k].id, true)];
      k := k + 1;
    }
    assert data.streamSource[..k] == data.streamSource;
    ghost var entityCalls := calls;
    k := 0;
    while k < |data.playlist|
      invariant 0 <= k <= |data.playlist|
      invariant calls == entityCalls + PlaylistRemovals(data.playlist[..k])
    {
      calls := calls + [RemovePlaylist(data.playlist[k].id, true)];
      k := k + 1;
    }
    assert data.playlist[..k] == data.playlist;
    ok := true;
  }

  /** What doPurge issues for the data preparePurge collects. */
  function PurgeRemovals(qs: seq<QueueStream>, ss: seq<StreamSource>, ps: seq<Playlist>): seq<StoreCall> {
    var d := SoftDeleted(qs, ss, ps);
    StreamRemovals(d.queueStream) + SourceRemovals(d.streamSource) + PlaylistRemovals(d.playlist)
  }

  /**
   * preparePurge then doPurge removes every soft-deleted entity, hard and
   * including soft-deleted ones, and issues nothing but such removals.
   */
  lemma PurgeRemovesAllSoftDeleted(qs: seq<QueueStream>, ss: seq<StreamSource>, ps: seq<Playlist>)
    ensures var calls := PurgeRemovals(qs, ss, ps);
      && (forall c :: c in calls ==> (c.RemoveStream? || c.RemoveSource? || c.RemovePlaylist?) && c.includeSoftDeleted)
      && (forall q :: q in qs && q.deleted.Some? ==> RemoveStream(q.id, true) in calls)
      && (forall s :: s in ss && s.deleted.Some? ==> RemoveSource(s.id, true) in calls)
      && (forall p :: p in ps && p.deleted.Some? ==> RemovePlaylist(p.id, true) in calls)
  {
    var d := SoftDeleted(qs, ss, ps);
    var a, b, c := StreamRemovals(d.queueStream), SourceRemovals(d.streamSource), PlaylistRemovals(d.playlist);
    forall q | q in qs && q.deleted.Some? ensures RemoveStream(q.id, true) in a + b + c {
      var k :| 0 <= k < |d.queueStream| && d.queueStream[k] == q;
      assert a[k] == RemoveStream(q.id, true);
    }
    forall s | s in ss && s.deleted.Some? ensures RemoveSource(s.id, true) in a + b + c {
      var k :| 0 <= k < |d.streamSource| && d.streamSource[k] == s;
      assert b[k] == RemoveSource(s.id, true);
    }
    forall p | p in ps && p.deleted.Some? ensures RemovePlaylist(p.id, true) in a + b + c {
      var k :| 0 <= k < |d.playlist| && d.playlist[k] == p;
      assert c[k] == RemovePlaylist(p.id, true);
    }
  }

  /** Every entity preparePurge then doPurge removes is a soft-deleted one. */
  lemma PurgeRemovesOnlySoftDeleted(qs: seq<QueueStream>, ss: seq<StreamSource>, ps: seq<Playlist>)
    ensures var calls := PurgeRemovals(qs, ss, ps);
      && (forall id :: RemoveStream(id, true) in calls ==> exists q :: q in qs && q.deleted.Some? && q.id == id)
      && (forall id :: RemoveSource(id, true) in calls ==> exists s :: s in ss && s.deleted.Some? && s.id == id)
      && (forall id :: RemovePlaylist(id, true) in calls ==> exists p :: p in ps && p.deleted.Some? && p.id == id)
  {
    var d := SoftDeleted(qs, ss, ps);
    var a, b := StreamRemovals(d.queueStream), SourceRemovals(d.streamSource);
    var calls := PurgeRemovals(qs, ss, ps);
    forall id | RemoveStream(id, true) in calls ensures exists q :: q in qs && q.deleted.Some? && q.id == id {
      var k :| 0 <= k < |calls| && calls[k] == RemoveStream(id, true);
      assert d.queueStream[k] in d.queueStream;
    }
    forall id | RemoveSource(id, true) in calls ensures exists s :: s in ss && s.deleted.Some? && s.id == id {
      var k :| 0 <= k < |calls| && calls[k] == RemoveSource(id, true);
      assert d.streamSource[k - |a|] in d.streamSource;
    }
    forall id | RemovePlaylist(id, true) in calls ensures exists p :: p in ps && p.deleted.Some? && p.id == id {
      var k :| 0 <= k < |calls| && calls[k] == RemovePlaylist(id, true);
      assert d.playlist[k - |a| - |b|] in d.playlist;
    }
  }

  // ----- preparePurgePlaylists / doPurgePlaylists -----

  /**
   * The playlists preparePurgePlaylists lists: each playlist once for having a
   * stream ID that does not exist, and once more for a source ID that does not.
   */
  function DanglingPlaylists(pls: seq<Playlist>, existingStreams: map<Id, QueueStream>,
                             existingSources: map<Id, StreamSource>): seq<Playlist>
  {
    if pls == [] then []
    else
      var p := pls[|pls| - 1];
      DanglingPlaylists(pls[..|pls| - 1], existingStreams, existingSources)
        + (if HasDangling(p.streamIds, existingStreams) then [p] else [])
        + (if HasDangling(p.streamSourceIds, existingSources) then [p] else [])
  }

  /** `for id in ids: if not exists(id): …; break`: whether some ID does not exist. */
  method AnyMissing<V>(ids: seq<Id>, existing: map<Id, V>) returns (missing: bool)
    ensures missing == HasDangling(ids, existing)
  {
    var k := 0;
    while k < |ids|
      invariant 0 <= k <= |ids|
      invariant forall j :: 0 <= j < k ==> ids[j] in existing
    {
      if ids[k] !in existing {
        return true;
      }
      k := k + 1;
    }
    return false;
  }

  /**
   * preparePurgePlaylists: the stored streams and sources no playlist lists
   * (fetched with `get`), and the playlists that list an ID with no entity.
   */
  method PreparePurgePlaylists(playlists: seq<Playlist>, streams: Store<QueueStream>, sources: Store<StreamSource>,
                               existingStreams: map<Id, QueueStream>, existingSources: map<Id, StreamSource>)
    returns (data: EntityLists)
    requires Listed(streams) && Listed(sources)
    ensures data.queueStream == UnlinkedStreams(playlists, streams)
    ensures data.streamSource == UnlinkedSources(playlists, sources)
    ensures data.playlist == DanglingPlaylists(playlists, existingStreams, existingSources)
  {
    var allStreamIds, allSourceIds := SharedService.CollectRefs(playlists);
    var unlinkedStreamIds := Unlinked(streams.ids, allStreamIds);
    var unlinkedSourceIds := Unlinked(sources.ids, allSourceIds);
    ListedIn(streams);
    ListedIn(sources);
    FilterSpec(streams.ids, NotIn(allStreamIds));
    FilterSpec(sources.ids, NotIn(allSourceIds));
    FilterIdempotent(streams.ids, NotIn(allStreamIds));
    FilterIdempotent(sources.ids, NotIn(allSourceIds));
    var qs := SharedService.CollectUnlinked(unlinkedStreamIds, allStreamIds, streams.byId);
    var ss := SharedService.CollectUnlinked(unlinkedSourceIds, allSourceIds, sources.byId);
    var ps := CollectDanglingPlaylists(playlists, existingStreams, existingSources);
    data := EntityLists(qs, ss, ps);
  }

  /** The playlist loop of preparePurgePlaylists. */
  method CollectDanglingPlaylists(playlists: seq<Playlist>, existingStreams: map<Id, QueueStream>,
                                  existingSources: map<Id, StreamSource>)
    returns (ps: seq<Playlist>)
    ensures ps == DanglingPlaylists(playlists, existingStreams, existingSources)
  {
    ps := [];
    var i := 0;
    while i < |playlists|
      invariant 0 <= i <= |playlists|
      invariant ps == DanglingPlaylists(playlists[..i], existingStreams, existingSources)
    {
      var playlist := playlists[i];
      assert playlists[..i + 1][..i] == playlists[..i];
      var missingStream := AnyMissing(playlist.streamIds, existingStreams);
      if missingStream {
        ps := ps + [playlist];
      }
      var missingSource := AnyMissing(playlist.streamSourceIds, existingSources);
      if missingSource {
        ps := ps + [playlist];
      }
      i := i + 1;
    }
    assert playlists[..i] == playlists;
  }

  /**
   * A playlist is listed exactly when it lists an ID that does not exist, and
   * it is listed twice when both its stream and its source lists have one.
   */
  lemma {:induction false} DanglingPlaylistsSpec(pls: seq<Playlist>, existingStreams: map<Id, QueueStream>,
                                                 existingSources: map<Id, StreamSource>)
    ensures forall p :: p in DanglingPlaylists(pls, existingStreams, existingSources) <==>
      p in pls && (HasDangling(p.streamIds, existingStreams) || HasDangling(p.streamSourceIds, existingSources))
  {
    if pls != [] {
      var init := pls[..|pls| - 1];
      assert pls == init + [pls[|pls| - 1]];
      DanglingPlaylistsSpec(init, existingStreams, existingSources);
    }
  }

  /** A single playlist with both kinds of dangling ID is listed twice. */
  lemma DanglingPlaylistTwice(p: Playlist, existingStreams: map<Id, QueueStream>,
                              existingSources: map<Id, StreamSource>)
    requires HasDangling(p.streamIds, existingStreams) && HasDangling(p.streamSourceIds, existingSources)
    ensures DanglingPlaylists([p], existingStreams, existingSources) == [p, p]
  {
    assert [p][..0] == [];
  }

  /** Each listed playlist cleaned, in order: what doPurgePlaylists writes back. */
  function CleanAll(pls: seq<Playlist>, existingStreams: map<Id, QueueStream>,
                    existingSources: map<Id, StreamSource>): (r: seq<Playlist>)
    ensures |r| == |pls|
  {
    seq(|pls|, k requires 0 <= k < |pls| => CleanPlaylist(pls[k], existingStreams, existingSources))
  }

  /** `[id for id in ids if exists(id)]` as doPurgePlaylists builds it. */
  method KeepExisting<V>(ids: seq<Id>, existing: map<Id, V>) returns (kept: seq<Id>)
    ensures kept == Filter(ids, Present(existing))
  {
    kept := [];
    var k := 0;
    while k < |ids|
      invariant 0 <= k <= |ids|
      invariant kept == Filter(ids[..k], Present(existing))
    {
      assert ids[..k + 1] == ids[..k] + [ids[k]];
      FilterSnoc(ids[..k], ids[k], Present(existing));
      if ids[k] in existing {
        kept := kept + [ids[k]];
      }
      k := k + 1;
    }
    assert ids[..k] == ids;
  }

  /**
   * doPurgePlaylists: set each listed playlist's ID lists to the IDs that
   * exist, update it, and return true.
   */
  method DoPurgePlaylists(data: EntityLists, existingStreams: map<Id, QueueStream>,
                          existingSources: map<Id, StreamSource>)
    returns (ok: bool, cleaned: seq<Playlist>, calls: seq<StoreCall>)
    ensures ok
    ensures cleaned == CleanAll(data.playlist, existingStreams, existingSources)
    ensures calls == SharedService.PlaylistUpdates(cleaned)
  {
    cleaned := [];
    calls := [];
    var i := 0;
    while i < |data.playlist|
      invariant 0 <= i <= |data.playlist|
      invariant cleaned == CleanAll(data.playlist[..i], existingStreams, existingSources)
      invariant calls == SharedService.PlaylistUpdates(cleaned)
    {
      var playlist := data.playlist[i];
      var updatedStreamIds := KeepExisting(playlist.streamIds, existingStreams);
      var updatedSourceIds := KeepExisting(playlist.streamSourceIds, existingSources);
      playlist := playlist.(streamIds := updatedStreamIds, streamSourceIds := updatedSourceIds);
      cleaned := cleaned + [playlist];
      calls := calls + [UpdatePlaylist(playlist)];
      i := i + 1;
    }
    assert data.playlist[..i] == data.playlist;
    ok := true;
  }

  /**
   * A playlist listed twice is the same object both times, so its second
   * pass filters an already filtered playlist; that changes nothing, and the
   * second update writes the same playlist again. Every written playlist
   * lists only IDs that exist, and keeps every one that does.
   */
  lemma DoPurgePlaylistsSpec(pls: seq<Playlist>, existingStreams: map<Id, QueueStream>,
                             existingSources: map<Id, StreamSource>)
    ensures var cleaned := CleanAll(pls, existingStreams, existingSources);
      && (forall k :: 0 <= k < |pls| ==>
            CleanPlaylist(cleaned[k], existingStreams, existingSources) == cleaned[k])
      && (forall k :: 0 <= k < |pls| ==>
            && !HasDangling(cleaned[k].streamIds, existingStreams)
            && !HasDangling(cleaned[k].streamSourceIds, existingSources)
            && (forall id :: id in cleaned[k].streamIds <==> id in pls[k].streamIds && id in existingStreams)
            && (forall id :: id in cleaned[k].streamSourceIds <==> id in pls[k].streamSourceIds && id in existingSources)
            && cleaned[k].id == pls[k].id)
  {
    forall k | 0 <= k < |pls|
      ensures var c := CleanPlaylist(pls[k], existingStreams, existingSources);
        && CleanPlaylist(c, existingStreams, existingSources) == c
        && !HasDangling(c.streamIds, existingStreams)
        && !HasDangling(c.streamSourceIds, existingSources)
        && (forall id :: id in c.streamIds <==> id in pls[k].streamIds && id in existingStreams)
        && (forall id :: id in c.streamSourceIds <==> id in pls[k].streamSourceIds && id in existingSources)
        && c.id == pls[k].id
    {
      CleanPlaylistIdempotent(pls[k], existingStreams, existingSources);
      CleanPlaylistSpec(pls[k], existingStreams, existingSources);
    }
  }

  /**
   * Given the same view of which streams and sources exist, the two-step
   * playlist purge writes back the same playlists as the single-step purge
   * of the older service (possibly twice, never any other).
   */
  lemma PurgePlaylistsAgreesWithSinglePurge(pls: seq<Playlist>, existingStreams: map<Id, QueueStream>,
                                            existingSources: map<Id, StreamSource>)
    ensures forall c ::
      (c in CleanAll(DanglingPlaylists(pls, existingStreams, existingSources), existingStreams, existingSources)
       <==> c in SharedService.PurgeUpdates(pls, existingStreams, existingSources))
  {
    var dangling := DanglingPlaylists(pls, existingStreams, existingSources);
    var cleaned := CleanAll(dangling, existingStreams, existingSources);
    DanglingPlaylistsSpec(pls, existingStreams, existingSources);
    SharedService.PurgeUpdatesSpec(pls, existingStreams, existingSources);
    forall c | c in cleaned
      ensures c in SharedService.PurgeUpdates(pls, existingStreams, existingSources)
    {
      var k :| 0 <= k < |cleaned| && cleaned[k] == c;
      assert dangling[k] in dangling;
    }
    forall c | c in SharedService.PurgeUpdates(pls, existingStreams, existingSources)
      ensures c in cleaned
    {
      var p :| p in pls && (HasDangling(p.streamIds, existingStreams) || HasDangling(p.streamSourceIds, existingSources))
               && c == CleanPlaylist(p, existingStreams, existingSources);
      assert p in dangling;
      var k :| 0 <= k < |dangling| && dangling[k] == p;
      assert cleaned[k] == c;
    }
  }
}
