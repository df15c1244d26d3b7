/**
  JavaScript string operations the application relies on: `includes`,
  `toLowerCase`, `trim` and the regular-expression class `\s`.
  Case folding is ASCII-only; the whitespace set is the one ECMAScript uses
  for `trim` and `\s` (WhiteSpace and LineTerminator code points).
 */
module Text {

  datatype Option<T> = None | Some(value: T)

  /** `t` occurs in `s` starting at index `i`. */
  predicate OccursAt(s: string, t: string, i: nat)
  {
    i + |t| <= |s| && s[i..i + |t|] == t
  }

  /** `s.includes(t)`. */
  predicate Contains(s: string, t: string)
  {
    exists i | 0 <= i <= |s| :: OccursAt(s, t, i)
  }

  /** A witness occurrence is enough to show containment. */
  lemma ContainsAt(s: string, t: string, i: nat)
    requires i + |t| <= |s| && s[i..i + |t|] == t
    ensures Contains(s, t)
  {
    assert OccursAt(s, t, i);
  }

  /** A character that `t` uses and `s` lacks rules out containment. */
  lemma NotContainsByChar(s: string, t: string, c: char)
    requires c in t && c !in s
    ensures !Contains(s, t)
  {
  }

  /** Containment survives extending the haystack on the left or the right. */
  lemma ContainsInConcat(a: string, s: string, b: string, t: string)
    requires Contains(s, t)
    ensures Contains(a + s + b, t)
  {
    var i :| 0 <= i <= |s| && OccursAt(s, t, i);
    var u := a + s + b;
    assert u[|a| + i..|a| + i + |t|] == s[i..i + |t|];
    assert OccursAt(u, t, |a| + i);
  }

  /** `String.prototype.toLowerCase` restricted to ASCII letters. */
  function LowerChar(c: char): (r: char)
    ensures 'A' <= c <= 'Z' ==> r as int == c as int + 32
    ensures !('A' <= c <= 'Z') ==> r == c
  {
    if 'A' <= c <= 'Z' then (c as int + 32) as char else c
  }

  function Lower(s: string): (r: string)
    ensures |r| == |s|
    ensures forall i :: 0 <= i < |s| ==> r[i] == LowerChar(s[i])
  {
    seq(|s|, i requires 0 <= i < |s| => LowerChar(s[i]))
  }

  /** The code points matched by `\s` and removed by `trim`. */
  predicate IsSpace(c: char)
  {
    var n := c as int;
    n == 0x09 || n == 0x0A || n == 0x0B || n == 0x0C || n == 0x0D || n == 0x20 ||
    n == 0xA0 || n == 0x1680 || (0x2000 <= n <= 0x200A) || n == 0x2028 || n == 0x2029 ||
    n == 0x202F || n == 0x205F || n == 0x3000 || n == 0xFEFF
  }

  /** `s.trim() === ''`: every character is whitespace. */
  predicate Blank(s: string)
  {
    forall i :: 0 <= i < |s| ==> IsSpace(s[i])
  }

  /** `s.replace(/\s/g, '')`. */
  function StripSpace(s: string): (r: string)
    ensures |r| <= |s|
    ensures forall i :: 0 <= i < |r| ==> !IsSpace(r[i])
    ensures (forall i :: 0 <= i < |s| ==> !IsSpace(s[i])) ==> r == s
  {
    if s == [] then []
    else if IsSpace(s[0]) then StripSpace(s[1..])
    else [s[0]] + StripSpace(s[1..])
  }

  /** Whitespace removal keeps exactly the characters that are not
      whitespace. */
  lemma {:induction false} StripSpaceKeeps(s: string)
    ensures forall c :: c in StripSpace(s) <==> c in s && !IsSpace(c)
  {
    if s != [] {
      StripSpaceKeeps(s[1..]);
      assert s == [s[0]] + s[1..];
    }
  }
}
