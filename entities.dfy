/** Entities of the media-queue datastore and the calls the services make on it. */
module Entities {

  type Id = string

  datatype Option<T> = None | Some(value: T)

  /** A stored QueueStream (one playable item). `watched` and `deleted` are timestamps, absent when unset. */
  datatype QueueStream = QueueStream(
    id: Id,
    name: string,
    uri: string,
    isWeb: bool,
    watched: Option<int>,
    deleted: Option<int>)

  /** The enum value a StreamSource carries; only YOUTUBE has a fetch strategy. */
  datatype StreamSourceType = YouTube | OtherType

  /** A stored StreamSource (a channel to poll). */
  datatype StreamSource = StreamSource(
    id: Id,
    name: string,
    uri: string,
    enableFetch: bool,
    isWeb: bool,
    streamSourceType: StreamSourceType,
    lastFetched: Option<int>,
    deleted: Option<int>)

  /** A stored Playlist: it references streams and sources by ID. */
  datatype Playlist = Playlist(
    id: Id,
    name: string,
    playWatchedStreams: bool,
    streamIds: seq<Id>,
    streamSourceIds: seq<Id>,
    deleted: Option<int>)

  /** A QueueStream built by the fetcher before the playlist service stores it. */
  datatype NewStream = NewStream(name: string, uri: string, isWeb: bool, added: int)

  /** One call into an entity store service, in the order the code makes them. */
  datatype StoreCall =
    | DeleteStream(streamId: Id)
    | RemoveStream(streamId: Id, includeSoftDeleted: bool)
    | DeleteSource(sourceId: Id)
    | RemoveSource(sourceId: Id, includeSoftDeleted: bool)
    | RemovePlaylist(playlistId: Id, includeSoftDeleted: bool)
    | UpdatePlaylist(playlist: Playlist)
    | UpdateSource(source: StreamSource)
    | AddStreams(toPlaylist: Id, streams: seq<NewStream>)

  /** What a store service shows: `getAllIds` in store order, and `get` by ID. */
  datatype Store<E> = Store(ids: seq<Id>, byId: map<Id, E>)

  /** Every listed ID can be fetched with `get`. */
  predicate Listed<E>(s: Store<E>) {
    forall k :: 0 <= k < |s.ids| ==> s.ids[k] in s.byId
  }

  /** `get(id)` returns an entity whose own `id` is `id`. */
  predicate StreamsKeyed(m: map<Id, QueueStream>) {
    forall k :: k in m ==> m[k].id == k
  }

  predicate SourcesKeyed(m: map<Id, StreamSource>) {
    forall k :: k in m ==> m[k].id == k
  }

  predicate PlaylistsKeyed(m: map<Id, Playlist>) {
    forall k :: k in m ==> m[k].id == k
  }

  function IdsOfStreams(qs: seq<QueueStream>): seq<Id> {
    seq(|qs|, k requires 0 <= k < |qs| => qs[k].id)
  }

  function IdsOfSources(ss: seq<StreamSource>): seq<Id> {
    seq(|ss|, k requires 0 <= k < |ss| => ss[k].id)
  }
}
