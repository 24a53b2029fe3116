/**
 * Selection rules shared by both SharedService files: which streams a prune
 * takes, which stored entities no playlist references, which playlist IDs
 * dangle, which entities are soft-deleted, and how a search term matches.
 * The store views are maps and lists already filtered by the services'
 * `includeSoftDeleted` flag; `re.search` is the predicate `matches`.
 */
module Housekeeping {
  import opened Entities
  import opened Seqs

  /** The three entity lists of a report: the root file's dict, or a PlaylistDetailed. */
  datatype EntityLists = EntityLists(
    queueStream: seq<QueueStream>,
    streamSource: seq<StreamSource>,
    playlist: seq<Playlist>)

  const NoEntities := EntityLists([], [], [])

  // ----- prune: watched streams of one playlist -----

  /** A playlist entry is pruned when `get` finds its stream and the stream has been watched. */
  function Pruneable(streams: map<Id, QueueStream>): Id -> bool {
    id => id in streams && streams[id].watched.Some?
  }

  function PruneIds(ids: seq<Id>, streams: map<Id, QueueStream>): seq<Id> {
    Filter(ids, Pruneable(streams))
  }

  /** The watched streams a prune collects, in playlist order. */
  function PruneStreams(ids: seq<Id>, streams: map<Id, QueueStream>): (r: seq<QueueStream>)
    ensures |r| == |PruneIds(ids, streams)|
    ensures forall k :: 0 <= k < |r| ==> r[k].watched.Some?
  {
    FilterSpec(ids, Pruneable(streams));
    Lookup(PruneIds(ids, streams), streams)
  }

  /** Extending the playlist by one entry extends the collected streams by that entry's stream, if it is taken. */
  lemma PruneStreamsSnoc(ids: seq<Id>, id: Id, streams: map<Id, QueueStream>)
    ensures PruneStreams(ids + [id], streams) ==
      PruneStreams(ids, streams) + (if id in streams && streams[id].watched.Some? then [streams[id]] else [])
  {
    FilterSnoc(ids, id, Pruneable(streams));
    FilterSpec(ids, Pruneable(streams));
    var sel := PruneIds(ids, streams);
    if id in streams && streams[id].watched.Some? {
      LookupSnoc(sel, id, streams);
    }
  }

  /** The playlist entries a prune keeps. */
  function Unpruned(ids: seq<Id>, streams: map<Id, QueueStream>): seq<Id> {
    Filter(ids, Not(Pruneable(streams)))
  }

  /**
   * The prune selection: an ID is taken exactly when it is in the playlist and
   * names an existing watched stream, and the collected streams carry those
   * IDs in the same order.
   */
  lemma PruneSelection(ids: seq<Id>, streams: map<Id, QueueStream>)
    requires StreamsKeyed(streams)
    ensures forall id :: id in PruneIds(ids, streams) <==>
      id in ids && id in streams && streams[id].watched.Some?
    ensures IdsOfStreams(PruneStreams(ids, streams)) == PruneIds(ids, streams)
  {
    FilterSpec(ids, Pruneable(streams));
    var sel := PruneIds(ids, streams);
    forall id | id in ids && Pruneable(streams)(id) ensures id in sel {
      var k :| 0 <= k < |ids| && ids[k] == id;
    }
    var qs := PruneStreams(ids, streams);
    forall k | 0 <= k < |sel| ensures IdsOfStreams(qs)[k] == sel[k] {
      assert sel[k] in streams;
    }
  }

  /**
   * Removing each taken ID once from the playlist (`streamIds.remove`) leaves
   * exactly the entries that are not existing watched streams, in order.
   */
  lemma PruneRewrite(ids: seq<Id>, streams: map<Id, QueueStream>)
    ensures multiset(PruneIds(ids, streams)) <= multiset(ids)
    ensures RemoveEach(ids, PruneIds(ids, streams)) == Unpruned(ids, streams)
    ensures forall id :: id in Unpruned(ids, streams) <==>
      id in ids && !(id in streams && streams[id].watched.Some?)
  {
    FilterIn(ids, Not(Pruneable(streams)));
    RemoveEachFilter(ids, Pruneable(streams));
  }

  // ----- purge: references, unlinked entities, dangling IDs -----

  /** Every stream ID any playlist lists (the `extend` loop over all playlists). */
  function StreamRefs(pls: seq<Playlist>): (r: seq<Id>)
    ensures forall id :: id in r <==> exists k :: 0 <= k < |pls| && id in pls[k].streamIds
  {
    if pls == [] then []
    else
      var init := pls[..|pls| - 1];
      assert forall k :: 0 <= k < |init| ==> init[k] == pls[k];
      StreamRefs(init) + pls[|pls| - 1].streamIds
  }

  /** Every source ID any playlist lists. */
  function SourceRefs(pls: seq<Playlist>): (r: seq<Id>)
    ensures forall id :: id in r <==> exists k :: 0 <= k < |pls| && id in pls[k].streamSourceIds
  {
    if pls == [] then []
    else
      var init := pls[..|pls| - 1];
      assert forall k :: 0 <= k < |init| ==> init[k] == pls[k];
      SourceRefs(init) + pls[|pls| - 1].streamSourceIds
  }

  function NotIn(refs: seq<Id>): Id -> bool {
    id => id !in refs
  }

  /** The stored IDs that the reference list does not mention, in store order. */
  function Unlinked(ids: seq<Id>, refs: seq<Id>): seq<Id> {
    Filter(ids, NotIn(refs))
  }

  /**
   * A stored stream or source is unlinked exactly when no playlist lists it
   * (in `streamIds` for streams, in `streamSourceIds` for sources).
   */
  lemma UnlinkedSpec(streamIds: seq<Id>, sourceIds: seq<Id>, pls: seq<Playlist>)
    ensures forall id :: id in Unlinked(streamIds, StreamRefs(pls)) <==>
      id in streamIds && forall k :: 0 <= k < |pls| ==> id !in pls[k].streamIds
    ensures forall id :: id in Unlinked(sourceIds, SourceRefs(pls)) <==>
      id in sourceIds && forall k :: 0 <= k < |pls| ==> id !in pls[k].streamSourceIds
  {
    FilterIn(streamIds, NotIn(StreamRefs(pls)));
    FilterIn(sourceIds, NotIn(SourceRefs(pls)));
  }

  /** The entities behind the unlinked stream IDs (`get` of each), in store order. */
  function UnlinkedStreams(pls: seq<Playlist>, streams: Store<QueueStream>): (r: seq<QueueStream>)
    requires Listed(streams)
    ensures |r| == |Unlinked(streams.ids, StreamRefs(pls))|
  {
    var ids := Unlinked(streams.ids, StreamRefs(pls));
    FilterIn(streams.ids, NotIn(StreamRefs(pls)));
    forall id | id in ids ensures id in streams.byId {
      var j :| 0 <= j < |streams.ids| && streams.ids[j] == id;
    }
    Lookup(ids, streams.byId)
  }

  /** The entities behind the unlinked source IDs, in store order. */
  function UnlinkedSources(pls: seq<Playlist>, sources: Store<StreamSource>): (r: seq<StreamSource>)
    requires Listed(sources)
    ensures |r| == |Unlinked(sources.ids, SourceRefs(pls))|
  {
    var ids := Unlinked(sources.ids, SourceRefs(pls));
    FilterIn(sources.ids, NotIn(SourceRefs(pls)));
    forall id | id in ids ensures id in sources.byId {
      var j :| 0 <= j < |sources.ids| && sources.ids[j] == id;
    }
    Lookup(ids, sources.byId)
  }

  function Present<V>(m: map<Id, V>): Id -> bool {
    id => id in m
  }

  function Dangling<V>(m: map<Id, V>): Id -> bool {
    id => id !in m
  }

  /** Some listed ID has no entity behind it. */
  predicate HasDangling<V>(ids: seq<Id>, m: map<Id, V>) {
    exists k :: 0 <= k < |ids| && ids[k] !in m
  }

  /** A playlist with every ID that has no entity dropped, other entries kept in order. */
  function CleanPlaylist(p: Playlist, streams: map<Id, QueueStream>, sources: map<Id, StreamSource>): Playlist {
    p.(streamIds := Filter(p.streamIds, Present(streams)),
       streamSourceIds := Filter(p.streamSourceIds, Present(sources)))
  }

  /** Cleaning keeps exactly the IDs that exist and changes no other field. */
  lemma CleanPlaylistSpec(p: Playlist, streams: map<Id, QueueStream>, sources: map<Id, StreamSource>)
    ensures var c := CleanPlaylist(p, streams, sources);
      && (forall id :: id in c.streamIds <==> id in p.streamIds && id in streams)
      && (forall id :: id in c.streamSourceIds <==> id in p.streamSourceIds && id in sources)
      && !HasDangling(c.streamIds, streams) && !HasDangling(c.streamSourceIds, sources)
      && c.id == p.id && c.name == p.name && c.playWatchedStreams == p.playWatchedStreams
      && c.deleted == p.deleted
  {
    FilterIn(p.streamIds, Present(streams));
    FilterIn(p.streamSourceIds, Present(sources));
  }

  /** Cleaning a cleaned playlist changes nothing. */
  lemma CleanPlaylistIdempotent(p: Playlist, streams: map<Id, QueueStream>, sources: map<Id, StreamSource>)
    ensures CleanPlaylist(CleanPlaylist(p, streams, sources), streams, sources) == CleanPlaylist(p, streams, sources)
  {
    FilterIdempotent(p.streamIds, Present(streams));
    FilterIdempotent(p.streamSourceIds, Present(sources));
  }

  /**
   * Removing each dangling ID once (`list.remove` per ID, as the root purge
   * does) gives the cleaned list the services version builds by filtering.
   */
  lemma DanglingRemoval<V>(ids: seq<Id>, m: map<Id, V>)
    ensures multiset(Filter(ids, Dangling(m))) <= multiset(ids)
    ensures RemoveEach(ids, Filter(ids, Dangling(m))) == Filter(ids, Present(m))
  {
    RemoveEachFilter(ids, Dangling(m));
    FilterExt(ids, Not(Dangling(m)), Present(m));
  }

  /** A list has a dangling ID exactly when the dangling filter finds one. */
  lemma HasDanglingFilter<V>(ids: seq<Id>, m: map<Id, V>)
    ensures HasDangling(ids, m) <==> Filter(ids, Dangling(m)) != []
  {
    FilterIn(ids, Dangling(m));
    if HasDangling(ids, m) {
      var k :| 0 <= k < |ids| && ids[k] !in m;
      assert ids[k] in Filter(ids, Dangling(m));
    }
  }

  /** The listed IDs of a store, as a membership fact. */
  lemma ListedIn<E>(s: Store<E>)
    requires Listed(s)
    ensures forall id :: id in s.ids ==> id in s.byId
  {
    forall id | id in s.ids ensures id in s.byId {
      var j :| 0 <= j < |s.ids| && s.ids[j] == id;
    }
  }

  /** Entities fetched by key carry their keys. */
  lemma LookupStreamIds(ids: seq<Id>, m: map<Id, QueueStream>)
    requires StreamsKeyed(m)
    requires forall id :: id in ids ==> id in m
    ensures IdsOfStreams(Lookup(ids, m)) == ids
  {
  }

  lemma LookupSourceIds(ids: seq<Id>, m: map<Id, StreamSource>)
    requires SourcesKeyed(m)
    requires forall id :: id in ids ==> id in m
    ensures IdsOfSources(Lookup(ids, m)) == ids
  {
  }

  // ----- soft-deleted entities -----

  predicate StreamDeleted(q: QueueStream) { q.deleted.Some? }
  predicate SourceDeleted(s: StreamSource) { s.deleted.Some? }
  predicate PlaylistDeleted(p: Playlist) { p.deleted.Some? }

  /**
   * The soft-deleted entities of each kind, in store order (the list
   * comprehensions `[_ for _ in all if _.deleted != None]`).
   */
  function SoftDeleted(qs: seq<QueueStream>, ss: seq<StreamSource>, ps: seq<Playlist>): (r: EntityLists)
    ensures forall q :: q in r.queueStream <==> q in qs && q.deleted.Some?
    ensures forall s :: s in r.streamSource <==> s in ss && s.deleted.Some?
    ensures forall p :: p in r.playlist <==> p in ps && p.deleted.Some?
  {
    FilterIn(qs, StreamDeleted);
    FilterIn(ss, SourceDeleted);
    FilterIn(ps, PlaylistDeleted);
    EntityLists(Filter(qs, StreamDeleted), Filter(ss, SourceDeleted), Filter(ps, PlaylistDeleted))
  }

  // ----- search -----

  /**
   * The 1-based position of the first field the term matches, 0 when none does
   * (`searchFields`).
   */
  function FirstMatch(matches: (string, string) -> bool, term: string, fields: seq<string>): (r: nat)
    ensures r <= |fields|
    ensures r == 0 <==> forall k :: 0 <= k < |fields| ==> !matches(term, fields[k])
    ensures r > 0 ==> matches(term, fields[r - 1])
    ensures forall k :: 0 <= k < r - 1 ==> !matches(term, fields[k])
  {
    if fields == [] then 0
    else if matches(term, fields[0]) then 1
    else
      var rest := FirstMatch(matches, term, fields[1..]);
      if rest == 0 then 0 else rest + 1
  }

  function StreamHit(matches: (string, string) -> bool, term: string): QueueStream -> bool {
    (q: QueueStream) => FirstMatch(matches, term, [q.name, q.uri]) > 0
  }

  function SourceHit(matches: (string, string) -> bool, term: string): StreamSource -> bool {
    (s: StreamSource) => FirstMatch(matches, term, [s.name, s.uri]) > 0
  }

  function PlaylistHit(matches: (string, string) -> bool, term: string): Playlist -> bool {
    (p: Playlist) => FirstMatch(matches, term, [p.name]) > 0
  }

  /** What `search` collects from the three listings. */
  function SearchResult(matches: (string, string) -> bool, term: string,
                        qs: seq<QueueStream>, ss: seq<StreamSource>, ps: seq<Playlist>): EntityLists {
    EntityLists(Filter(qs, StreamHit(matches, term)), Filter(ss, SourceHit(matches, term)),
                Filter(ps, PlaylistHit(matches, term)))
  }

  /**
   * A stream or source is found exactly when the term matches its name or its
   * URI; a playlist exactly when the term matches its name.
   */
  lemma SearchSpec(matches: (string, string) -> bool, term: string,
                   qs: seq<QueueStream>, ss: seq<StreamSource>, ps: seq<Playlist>)
    ensures var r := SearchResult(matches, term, qs, ss, ps);
      && (forall q :: q in r.queueStream <==> q in qs && (matches(term, q.name) || matches(term, q.uri)))
      && (forall s :: s in r.streamSource <==> s in ss && (matches(term, s.name) || matches(term, s.uri)))
      && (forall p :: p in r.playlist <==> p in ps && matches(term, p.name))
  {
    var r := SearchResult(matches, term, qs, ss, ps);
    FilterIn(qs, StreamHit(matches, term));
    FilterIn(ss, SourceHit(matches, term));
    FilterIn(ps, PlaylistHit(matches, term));
    forall q | q in qs && (matches(term, q.name) || matches(term, q.uri)) ensures q in r.queueStream {
      assert [q.name, q.uri][0] == q.name && [q.name, q.uri][1] == q.uri;
    }
    forall q | q in r.queueStream ensures matches(term, q.name) || matches(term, q.uri) {
      assert [q.name, q.uri][0] == q.name && [q.name, q.uri][1] == q.uri;
    }
    forall s | s in ss && (matches(term, s.name) || matches(term, s.uri)) ensures s in r.streamSource {
      assert [s.name, s.uri][0] == s.name && [s.name, s.uri][1] == s.uri;
    }
    forall s | s in r.streamSource ensures matches(term, s.name) || matches(term, s.uri) {
      assert [s.name, s.uri][0] == s.name && [s.name, s.uri][1] == s.uri;
    }
    forall p | p in ps && matches(term, p.name) ensures p in r.playlist {
      assert [p.name][0] == p.name;
    }
    forall p | p in r.playlist ensures matches(term, p.name) {
      assert [p.name][0] == p.name;
    }
  }
}
