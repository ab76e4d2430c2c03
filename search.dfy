/** The workspace's search: `filteredPlaylists`, a case-insensitive match of a
    name term and a genre term, recomputed from the held list and never stored. */
module Search {
  import opened Text
  import opened Catalog

  /** A playlist passes the search when its lower-cased name contains the
      lower-cased name term and its lower-cased genre contains the lower-cased
      genre term. */
  predicate Matches(p: Playlist, term: string, genre: string)
    ensures Matches(p, term, genre) <==>
      (exists i :: OccursAt(LowerStr(p.name), LowerStr(term), i)) &&
      (exists j :: OccursAt(LowerStr(p.genre), LowerStr(genre), j))
  {
    ContainsIffOccurs(LowerStr(p.name), LowerStr(term));
    ContainsIffOccurs(LowerStr(p.genre), LowerStr(genre));
    Contains(LowerStr(p.name), LowerStr(term)) && Contains(LowerStr(p.genre), LowerStr(genre))
  }

  /** `playlists.filter(...)`: the matching playlists, in list order. */
  function FilterPlaylists(s: seq<Playlist>, term: string, genre: string): (r: seq<Playlist>)
    ensures |r| <= |s|
    ensures forall p :: p in r ==> p in s && Matches(p, term, genre)
  {
    if s == [] then []
    else (if Matches(s[0], term, genre) then [s[0]] else []) + FilterPlaylists(s[1..], term, genre)
  }

  /** `r` is obtained from `s` by deleting elements, keeping the order of the rest. */
  predicate IsSubsequence<T(==)>(r: seq<T>, s: seq<T>)
    decreases |s|
  {
    r == [] || (s != [] && ((r[0] == s[0] && IsSubsequence(r[1..], s[1..])) || IsSubsequence(r, s[1..])))
  }

  /** The search result is an order-preserving selection from the list. */
  lemma {:induction false} FilterIsSubsequence(s: seq<Playlist>, term: string, genre: string)
    ensures IsSubsequence(FilterPlaylists(s, term, genre), s)
  {
    if s != [] {
      var rest := FilterPlaylists(s[1..], term, genre);
      FilterIsSubsequence(s[1..], term, genre);
      if Matches(s[0], term, genre) {
        var r := [s[0]] + rest;
        assert FilterPlaylists(s, term, genre) == r;
        assert r[0] == s[0] && r[1..] == rest;
        assert IsSubsequence(r[1..], s[1..]);
      } else {
        assert FilterPlaylists(s, term, genre) == rest;
      }
    }
  }

  /** Every matching entry is kept as often as it occurs, every other entry dropped. */
  lemma {:induction false} FilterOccurrences(s: seq<Playlist>, term: string, genre: string, p: Playlist)
    ensures multiset(FilterPlaylists(s, term, genre))[p]
         == if Matches(p, term, genre) then multiset(s)[p] else 0
  {
    if s != [] {
      FilterOccurrences(s[1..], term, genre, p);
      assert s == [s[0]] + s[1..];
      assert multiset(s) == multiset([s[0]]) + multiset(s[1..]);
    }
  }

  /** A playlist is shown exactly when it is held and matches both terms. */
  lemma {:induction false} FilterKeepsExactly(s: seq<Playlist>, term: string, genre: string, p: Playlist)
    ensures p in FilterPlaylists(s, term, genre) <==> p in s && Matches(p, term, genre)
  {
    FilterOccurrences(s, term, genre, p);
    assert p in FilterPlaylists(s, term, genre) <==> multiset(FilterPlaylists(s, term, genre))[p] > 0;
    assert p in s <==> multiset(s)[p] > 0;
  }

  /** With both search boxes empty the whole list is shown. */
  lemma {:induction false} FilterEmptyTerms(s: seq<Playlist>)
    ensures FilterPlaylists(s, "", "") == s
  {
    if s != [] {
      assert LowerStr("") == "";
      assert Matches(s[0], "", "");
      FilterEmptyTerms(s[1..]);
      assert s == [s[0]] + s[1..];
    }
  }

  /** Searching the search result again with the same terms changes nothing. */
  lemma {:induction false} FilterIdempotent(s: seq<Playlist>, term: string, genre: string)
    ensures FilterPlaylists(FilterPlaylists(s, term, genre), term, genre) == FilterPlaylists(s, term, genre)
  {
    if s != [] {
      var rest := FilterPlaylists(s[1..], term, genre);
      FilterIdempotent(s[1..], term, genre);
      if Matches(s[0], term, genre) {
        var r := [s[0]] + rest;
        assert FilterPlaylists(s, term, genre) == r;
        assert r[0] == s[0] && r[1..] == rest;
        assert FilterPlaylists(r, term, genre) == [s[0]] + FilterPlaylists(rest, term, genre);
      } else {
        assert FilterPlaylists(s, term, genre) == rest;
      }
    }
  }
}
