/** The records the workspace receives from the playlist API. Identifiers are
    server-assigned and only compared for equality; every other field is the
    text the server returned or the user typed. */
module Catalog {

  type Id = int

  datatype Song = Song(id: Id, playlistId: string, title: string, artist: string, duration: string)

  datatype Playlist = Playlist(id: Id, name: string, genre: string, likes: int, songs: seq<Song>)

  /** The identifiers of a playlist list, in order. */
  function Ids(s: seq<Playlist>): seq<Id> {
    seq(|s|, i requires 0 <= i < |s| => s[i].id)
  }
}
