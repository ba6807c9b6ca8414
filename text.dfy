/**
 * The two string operations the page-load filters use:
 * `String.prototype.toLowerCase` (restricted to ASCII) and
 * `String.prototype.includes`.
 */
module Text {

  predicate IsUpper(c: char) {
    'A' <= c <= 'Z'
  }

  /** Lower-cases one character; only the ASCII letters A-Z change. */
  function LowerChar(c: char): (r: char)
    ensures !IsUpper(r)
    ensures !IsUpper(c) ==> r == c
    ensures IsUpper(c) ==> 'a' <= r <= 'z' && r as int - c as int == 'a' as int - 'A' as int
  {
    if IsUpper(c) then (c as int - 'A' as int + 'a' as int) as char else c
  }

  /** `toLowerCase`: every character lowered, length and positions kept. */
  function Lower(s: string): (r: string)
    ensures |r| == |s|
    ensures forall i :: 0 <= i < |s| ==> r[i] == LowerChar(s[i])
  {
    seq(|s|, i requires 0 <= i < |s| => LowerChar(s[i]))
  }

  /** `s` has neither `c` nor `up` anywhere. */
  predicate Lacks(s: string, c: char, up: char) {
    forall j :: 0 <= j < |s| ==> s[j] != c && s[j] != up
  }

  /**
   * A character `c` that lowering produces only from itself and from `up`
   * is absent from `Lower(s)` when `s` has neither.
   */
  lemma LoweredLacks(s: string, c: char, up: char)
    requires !IsUpper(c)
    requires forall u :: IsUpper(u) && LowerChar(u) == c ==> u == up
    requires Lacks(s, c, up)
    ensures c !in Lower(s)
  {
  }

  /** `t` occurs in `s` starting at index `i`. */
  predicate OccursAt(s: string, t: string, i: int) {
    0 <= i <= |s| - |t| && s[i..i + |t|] == t
  }

  /** Reference meaning of substring search: `t` occurs in `s` at some index. */
  ghost predicate Contains(s: string, t: string) {
    exists i :: OccursAt(s, t, i)
  }

  /**
   * `s.includes(t)`: scan `s` from the left, testing at each position
   * whether `t` is a prefix of what is left.
   */
  function Includes(s: string, t: string): (b: bool)
    ensures b ==> |t| <= |s|
    ensures t == [] ==> b
    ensures t <= s ==> b
  {
    if t <= s then true
    else if s == [] then false
    else Includes(s[1..], t)
  }

  lemma OccursAtStart(s: string, t: string)
    ensures OccursAt(s, t, 0) <==> t <= s
  {
  }

  lemma OccursAtShift(s: string, t: string, i: int)
    requires s != [] && i >= 1
    ensures OccursAt(s, t, i) <==> OccursAt(s[1..], t, i - 1)
  {
    if 0 <= i <= |s| - |t| {
      assert s[1..][i - 1..i - 1 + |t|] == s[i..i + |t|];
    }
  }

  /** The scan finds `t` exactly when `t` occurs somewhere in `s`. */
  lemma {:induction false} IncludesIsContains(s: string, t: string)
    ensures Includes(s, t) <==> Contains(s, t)
  {
    OccursAtStart(s, t);
    if t <= s {
    } else if s != [] {
      IncludesIsContains(s[1..], t);
      if Contains(s, t) {
        var i :| OccursAt(s, t, i);
        OccursAtShift(s, t, i);
      }
      if Contains(s[1..], t) {
        var j :| OccursAt(s[1..], t, j);
        OccursAtShift(s, t, j + 1);
      }
    }
  }

  /** A needle holding a character the haystack lacks is never found. */
  lemma {:induction false} MissingCharNotIncluded(s: string, t: string, c: char)
    requires c in t
    requires c !in s
    ensures !Includes(s, t)
  {
    if !(t <= s) && s != [] {
      assert forall x :: x in s[1..] ==> x in s;
      MissingCharNotIncluded(s[1..], t, c);
    }
  }
}
