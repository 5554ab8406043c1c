/**
 * String primitives used by the catalog search: `toLowerCase` restricted to
 * ASCII letters, and `includes` (substring containment).
 */
module Text {

  /** One character of `toLowerCase`: 'A'..'Z' move to 'a'..'z', everything else stays. */
  function LowerChar(c: char): (r: char)
    ensures !('A' <= r <= 'Z')
    ensures 'A' <= c <= 'Z' ==> r as int == c as int + 32 && 'a' <= r <= 'z'
    ensures !('A' <= c <= 'Z') ==> r == c
  {
    if 'A' <= c <= 'Z' then (c as int + 32) as char else c
  }

  /** `s.toLowerCase()`, on ASCII letters only. */
  function Lower(s: string): (r: string)
    ensures |r| == |s|
    ensures forall i :: 0 <= i < |s| ==> r[i] == LowerChar(s[i])
  {
    if s == [] then [] else [LowerChar(s[0])] + Lower(s[1..])
  }

  lemma {:induction false} LowerIdempotent(s: string)
    ensures Lower(Lower(s)) == Lower(s)
  {
    if s != [] {
      LowerIdempotent(s[1..]);
      assert Lower(s)[1..] == Lower(s[1..]);
    }
  }

  /** `h.includes(n)`: `n` occurs in `h` at some position. */
  predicate Contains(h: string, n: string)
    decreases |h|
  {
    n <= h || (h != [] && Contains(h[1..], n))
  }

  /** Containment agrees with the positional reading of `includes`. */
  lemma {:induction false} ContainsIffOccurs(h: string, n: string)
    ensures Contains(h, n) <==> exists i :: 0 <= i <= |h| && n <= h[i..]
    decreases |h|
  {
    assert h[0..] == h;
    if h != [] {
      ContainsIffOccurs(h[1..], n);
      if Contains(h[1..], n) {
        var i :| 0 <= i <= |h[1..]| && n <= h[1..][i..];
        assert h[1..][i..] == h[i + 1..];
      }
      if exists i :: 0 <= i <= |h| && n <= h[i..] {
        var i :| 0 <= i <= |h| && n <= h[i..];
        if i > 0 {
          assert h[1..][i - 1..] == h[i..];
          assert Contains(h[1..], n);
        }
      }
    } else {
      assert forall i :: 0 <= i <= |h| ==> h[i..] == h;
    }
  }

  lemma ContainsEmpty(h: string)
    ensures Contains(h, "")
  {
  }

  lemma {:induction false} PrefixContains(a: string, b: string, c: string)
    requires b <= c && Contains(b, a)
    ensures Contains(c, a)
    decreases |b|
  {
    if a <= b {
      assert c[..|a|] == b[..|a|];
    } else {
      assert b[1..] <= c[1..];
      PrefixContains(a, b[1..], c[1..]);
    }
  }

  /** Containment is transitive: a piece of a piece of `c` is a piece of `c`. */
  lemma {:induction false} ContainsTransitive(a: string, b: string, c: string)
    requires Contains(b, a) && Contains(c, b)
    ensures Contains(c, a)
    decreases |c|
  {
    if b <= c {
      PrefixContains(a, b, c);
    } else {
      ContainsTransitive(a, b, c[1..]);
    }
  }
}
