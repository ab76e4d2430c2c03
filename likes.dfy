/** The one local patch the workspace applies without refetching: after a like,
    the like count the server returned replaces the `likes` field of the
    playlists with the liked id (`playlists.map(...)` in `handleLike`). */
module Likes {
  import opened Catalog
  import opened Search

  /** `a` and `b` agree on every field except possibly `likes`. */
  predicate SameExceptLikes(a: Playlist, b: Playlist) {
    a.id == b.id && a.name == b.name && a.genre == b.genre && a.songs == b.songs
  }

  /** The list after a like of playlist `id` answered with `likes`: same length
      and order, the liked entries carry the new count and nothing else of
      theirs changes, every other entry is untouched. */
  function PatchLikes(s: seq<Playlist>, id: Id, likes: int): (r: seq<Playlist>)
    ensures |r| == |s| && Ids(r) == Ids(s)
    ensures forall i :: 0 <= i < |s| && s[i].id == id ==> SameExceptLikes(r[i], s[i]) && r[i].likes == likes
    ensures forall i :: 0 <= i < |s| && s[i].id != id ==> r[i] == s[i]
  {
    if s == [] then []
    else [if s[0].id == id then s[0].(likes := likes) else s[0]] + PatchLikes(s[1..], id, likes)
  }

  /** Liking an id the list does not hold leaves the list as it was. */
  lemma AbsentIdUnchanged(s: seq<Playlist>, id: Id, likes: int)
    requires id !in Ids(s)
    ensures PatchLikes(s, id, likes) == s
  {
    var r := PatchLikes(s, id, likes);
    forall i | 0 <= i < |s| ensures r[i] == s[i] {
      assert Ids(s)[i] == s[i].id;
    }
  }

  /** Of two likes of the same playlist the later answer is the one held. */
  lemma LaterLikeWins(s: seq<Playlist>, id: Id, a: int, b: int)
    ensures PatchLikes(PatchLikes(s, id, a), id, b) == PatchLikes(s, id, b)
  {
  }

  /** A like never changes which playlists the search shows, only their counts:
      searching the patched list is patching the search result. */
  lemma {:induction false} LikeCommutesWithFilter(s: seq<Playlist>, id: Id, likes: int, term: string, genre: string)
    ensures FilterPlaylists(PatchLikes(s, id, likes), term, genre)
         == PatchLikes(FilterPlaylists(s, term, genre), id, likes)
  {
    if s != [] {
      var p := PatchLikes(s, id, likes);
      assert p[1..] == PatchLikes(s[1..], id, likes);
      assert Matches(p[0], term, genre) == Matches(s[0], term, genre);
      LikeCommutesWithFilter(s[1..], id, likes, term, genre);
      var f := FilterPlaylists(s, term, genre);
      if Matches(s[0], term, genre) {
        assert f == [s[0]] + FilterPlaylists(s[1..], term, genre);
        assert f[1..] == FilterPlaylists(s[1..], term, genre);
      }
    }
  }
}
