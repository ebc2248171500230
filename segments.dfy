/** The string operations the navigator applies to script names: JavaScript's
    `includes(":")`, `split(":")[0]`, `substring(k)` and `startsWith(p)`, on
    Dafny strings (`seq<char>`). Names are compared character by character,
    case-sensitively. */
module Segments {

  /** `s.includes(":")` */
  predicate HasColon(s: string) {
    ':' in s
  }

  /** `s.split(":")[0]`: the longest prefix of `s` that holds no colon, which is
      all of `s` when it has none and stops right before the first colon
      otherwise. */
  function FirstSegment(s: string): (r: string)
    ensures ':' !in r
    ensures !HasColon(s) ==> r == s
  {
    if s == [] || s[0] == ':' then [] else [s[0]] + FirstSegment(s[1..])
  }

  /** The first segment of `key:rest` is `key`, whatever follows the colon. */
  lemma {:induction false} FirstSegmentOf(key: string, rest: string)
    requires ':' !in key
    ensures FirstSegment(key + ":" + rest) == key
  {
    if key != [] {
      assert key + ":" + rest == [key[0]] + (key[1..] + ":" + rest);
      FirstSegmentOf(key[1..], rest);
    }
  }

  /** `s.substring(k)` for a non-negative `k`: the characters from index `k`
      on, or the empty string when `k` is past the end. */
  function Suffix(s: string, k: nat): (r: string)
    ensures |r| == if k <= |s| then |s| - k else 0
  {
    if k <= |s| then s[k..] else []
  }

  /** `s.startsWith(p)` */
  predicate StartsWith(s: string, p: string) {
    p <= s
  }

  /** A prefix ending in `key + ":"`, where `key` holds no colon, is present
      exactly when the first segment of `s` is `key` and a colon follows it.
      This is what ties `startsWith(prefix + ":")` narrowing to
      `split(":")[0]` grouping. */
  lemma {:induction false} KeyColonPrefix(s: string, key: string)
    requires ':' !in key
    ensures StartsWith(s, key + ":") <==> HasColon(s) && FirstSegment(s) == key
  {
    if key == [] {
      assert key + ":" == ":";
    } else if s != [] && s[0] == key[0] {
      KeyColonPrefix(s[1..], key[1..]);
      assert key + ":" == [key[0]] + (key[1..] + ":");
      assert s == [s[0]] + s[1..];
      assert HasColon(s) <==> HasColon(s[1..]);
    } else {
      assert (key + ":")[0] == key[0];
      if s != [] && HasColon(s) {
        assert FirstSegment(s) == [] || FirstSegment(s)[0] == s[0];
      }
    }
  }

  /** Once `a` is known to be a prefix of `s`, `a + b` is a prefix of `s`
      exactly when `b` is a prefix of what follows `a` in `s`. */
  lemma PrefixThenRest(s: string, a: string, b: string)
    requires StartsWith(s, a)
    ensures StartsWith(s, a + b) <==> StartsWith(Suffix(s, |a|), b)
  {
    var rest := Suffix(s, |a|);
    assert s == s[..|a|] + s[|a|..];
    assert s == a + rest;
    if StartsWith(rest, b) {
      assert a + b == s[..|a| + |b|];
    }
    if StartsWith(s, a + b) {
      assert b == rest[..|b|];
    }
  }
}
