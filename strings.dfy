/** String operations of JavaScript used by the pipeline, on ASCII text. */
module Strings {

  /** String.prototype.toLowerCase on one character, restricted to ASCII letters. */
  function LowerChar(c: char): char
  {
    if 'A' <= c <= 'Z' then (c as int + 32) as char else c
  }

  function UpperChar(c: char): char
  {
    if 'a' <= c <= 'z' then (c as int - 32) as char else c
  }

  function Lower(s: string): string
  {
    seq(|s|, i requires 0 <= i < |s| => LowerChar(s[i]))
  }

  function Upper(s: string): string
  {
    seq(|s|, i requires 0 <= i < |s| => UpperChar(s[i]))
  }

  /** Lower-casing is insensitive to how the input was cased. */
  lemma LowerOfUpper(s: string)
    ensures Lower(Upper(s)) == Lower(s)
  {
    assert forall i :: 0 <= i < |s| ==> LowerChar(UpperChar(s[i])) == LowerChar(s[i]);
  }

  /** `sub` appears in `s` starting at index `i`. */
  ghost predicate OccursAt(sub: string, s: string, i: int)
  {
    0 <= i && i + |sub| <= |s| && s[i..i + |sub|] == sub
  }

  ghost predicate Occurs(sub: string, s: string)
  {
    exists i :: OccursAt(sub, s, i)
  }

  lemma SliceOfSlice(s: string, lo: nat, hi: nat, i: nat, n: nat)
    requires lo + i + n <= hi <= |s|
    ensures s[lo..hi][i..i + n] == s[lo + i..lo + i + n]
  {
    var inner, outer := s[lo..hi][i..i + n], s[lo + i..lo + i + n];
    assert forall k :: 0 <= k < n ==> inner[k] == outer[k];
  }

  /** String.prototype.includes: does `sub` appear somewhere in `s`? */
  function Includes(s: string, sub: string): bool
    decreases |s|
  {
    |sub| <= |s| && (s[..|sub|] == sub || Includes(s[1..], sub))
  }

  /** The scanning definition of `includes` agrees with the positional one. */
  lemma {:induction false} IncludesIff(s: string, sub: string)
    ensures Includes(s, sub) <==> Occurs(sub, s)
    decreases |s|
  {
    if |sub| > |s| {
    } else if s[..|sub|] == sub {
      assert OccursAt(sub, s, 0);
    } else {
      IncludesIff(s[1..], sub);
      if Includes(s[1..], sub) {
        var i :| OccursAt(sub, s[1..], i);
        SliceOfSlice(s, 1, |s|, i, |sub|);
        assert OccursAt(sub, s, i + 1);
      }
      if Occurs(sub, s) {
        var i :| OccursAt(sub, s, i);
        assert i != 0;
        SliceOfSlice(s, 1, |s|, i - 1, |sub|);
        assert OccursAt(sub, s[1..], i - 1);
      }
    }
  }

  /** The empty string is included in every string. */
  lemma IncludesEmpty(s: string)
    ensures Includes(s, "")
  {
  }

  lemma OccursInPrefixed(sub: string, prefix: string, s: string)
    requires Occurs(sub, s)
    ensures Occurs(sub, prefix + s)
  {
    var i :| OccursAt(sub, s, i);
    assert (prefix + s)[|prefix| + i..|prefix| + i + |sub|] == s[i..i + |sub|];
    assert OccursAt(sub, prefix + s, |prefix| + i);
  }

  lemma OccursInSuffixed(sub: string, s: string, suffix: string)
    requires Occurs(sub, s)
    ensures Occurs(sub, s + suffix)
  {
    var i :| OccursAt(sub, s, i);
    assert (s + suffix)[i..i + |sub|] == s[i..i + |sub|];
    assert OccursAt(sub, s + suffix, i);
  }

  lemma OccursTransitive(a: string, b: string, c: string)
    requires Occurs(a, b) && Occurs(b, c)
    ensures Occurs(a, c)
  {
    var i :| OccursAt(a, b, i);
    var j :| OccursAt(b, c, j);
    SliceOfSlice(c, j, j + |b|, i, |a|);
    assert OccursAt(a, c, j + i);
  }

  lemma OccursInItself(s: string)
    ensures Occurs(s, s)
  {
    assert OccursAt(s, s, 0);
  }

  /** Array.prototype.join. */
  function Join(parts: seq<string>, separator: string): string
    decreases |parts|
  {
    if |parts| == 0 then ""
    else if |parts| == 1 then parts[0]
    else parts[0] + separator + Join(parts[1..], separator)
  }

  /** Every joined part appears in the joined string. */
  lemma {:induction false} JoinContainsEach(parts: seq<string>, separator: string, k: nat)
    requires k < |parts|
    ensures Occurs(parts[k], Join(parts, separator))
    decreases |parts|
  {
    if |parts| == 1 {
      OccursInItself(parts[0]);
    } else if k == 0 {
      OccursInItself(parts[0]);
      OccursInSuffixed(parts[0], parts[0], separator + Join(parts[1..], separator));
      assert parts[0] + (separator + Join(parts[1..], separator)) == Join(parts, separator);
    } else {
      JoinContainsEach(parts[1..], separator, k - 1);
      OccursInPrefixed(parts[k], parts[0] + separator, Join(parts[1..], separator));
    }
  }
}
