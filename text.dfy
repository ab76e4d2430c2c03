/** Text operations the playlist search relies on: lower-casing and substring
    containment (JavaScript's `toLowerCase` and `includes` on strings).
    Lower-casing is modelled on ASCII letters only. */
module Text {

  predicate IsUpper(c: char) {
    'A' <= c <= 'Z'
  }

  /** The small letter of an ASCII capital; every other character unchanged. */
  function Lower(c: char): (d: char)
    ensures !IsUpper(d)
    ensures IsUpper(c) ==> d as int == c as int + 32
    ensures !IsUpper(c) ==> d == c
  {
    if IsUpper(c) then (c as int - 'A' as int + 'a' as int) as char else c
  }

  /** `s.toLowerCase()`, restricted to ASCII capitals. */
  function LowerStr(s: string): (r: string)
    ensures |r| == |s|
    ensures forall i :: 0 <= i < |s| ==> !IsUpper(r[i])
    ensures forall i :: 0 <= i < |s| && !IsUpper(s[i]) ==> r[i] == s[i]
    ensures forall i :: 0 <= i < |s| && IsUpper(s[i]) ==> r[i] as int == s[i] as int + 32
  {
    seq(|s|, i requires 0 <= i < |s| => Lower(s[i]))
  }

  /** Lower-casing a lower-cased string changes nothing. */
  lemma LowerStrIdempotent(s: string)
    ensures LowerStr(LowerStr(s)) == LowerStr(s)
  {
  }

  predicate IsPrefix(p: string, s: string) {
    |p| <= |s| && s[..|p|] == p
  }

  /** `h.includes(n)`: `n` starts at some position of `h`. */
  predicate Contains(h: string, n: string)
    ensures Contains(h, n) ==> |n| <= |h|
    decreases |h|
  {
    IsPrefix(n, h) || (|h| > 0 && Contains(h[1..], n))
  }

  /** `n` occurs in `h` starting at index `i`. */
  predicate OccursAt(h: string, n: string, i: int) {
    0 <= i && i + |n| <= |h| && h[i..i + |n|] == n
  }

  /** The recursive definition of Contains agrees with the positional one:
      `h` contains `n` exactly when `n` occurs in `h` at some index. */
  lemma {:induction false} ContainsIffOccurs(h: string, n: string)
    ensures Contains(h, n) <==> exists i :: OccursAt(h, n, i)
    decreases |h|
  {
    if IsPrefix(n, h) {
      assert OccursAt(h, n, 0);
    } else if |h| > 0 {
      ContainsIffOccurs(h[1..], n);
      if Contains(h[1..], n) {
        var i :| OccursAt(h[1..], n, i);
        assert h[i + 1..i + 1 + |n|] == h[1..][i..i + |n|];
        assert OccursAt(h, n, i + 1);
      } else if exists i :: OccursAt(h, n, i) {
        var i :| OccursAt(h, n, i);
        assert i > 0;
        var t := h[1..];
        assert |t| == |h| - 1 && i - 1 + |n| <= |t|;
        forall k | 0 <= k < |n| ensures t[i - 1 + k] == n[k] {
          assert t[i - 1 + k] == h[i + k] == h[i..i + |n|][k];
        }
        assert t[i - 1..i - 1 + |n|] == n;
        assert OccursAt(t, n, i - 1);
      }
    }
  }

  /** Every string contains the empty string, the case `includes('')`. */
  lemma ContainsEmpty(h: string)
    ensures Contains(h, "")
  {
  }
}
