/** Text helpers for the case-insensitive search: ASCII lower-casing and
    literal substring occurrence. */
module Text {

  function LowerChar(c: char): char {
    if 'A' <= c <= 'Z' then (c as int + 32) as char else c
  }

  /** The string with every ASCII capital replaced by its small letter. */
  function Lower(s: string): string {
    seq(|s|, i requires 0 <= i < |s| => LowerChar(s[i]))
  }

  /** `p` occurs in `s` starting at position `i`. */
  predicate OccursAt(p: string, s: string, i: int) {
    0 <= i && i + |p| <= |s| && s[i..i + |p|] == p
  }

  /** `p` is a (contiguous) substring of `s`. */
  predicate Occurs(p: string, s: string) {
    exists i :: 0 <= i <= |s| - |p| && OccursAt(p, s, i)
  }

  /** `p` occurs in `s` when letter case is ignored. */
  predicate OccursIgnoringCase(p: string, s: string) {
    Occurs(Lower(p), Lower(s))
  }

  /** Every character of an occurring pattern is a character of the text,
      which is how a non-occurrence is shown for a concrete text. */
  lemma {:induction false} OccursKeepsChars(p: string, s: string, c: char)
    requires Occurs(p, s) && c in p
    ensures c in s
  {
    var i :| 0 <= i <= |s| - |p| && OccursAt(p, s, i);
    var j :| 0 <= j < |p| && p[j] == c;
    assert s[i..i + |p|][j] == c;
    assert s[i + j] == c;
  }

  /** A small letter is missing from the lower-cased text when neither it nor its
      capital occurs in the text. */
  lemma LowerLacks(s: string, c: char)
    requires 'a' <= c <= 'z' && c !in s && (c as int - 32) as char !in s
    ensures c !in Lower(s)
  {
    forall i | 0 <= i < |s| ensures Lower(s)[i] != c {
      assert s[i] != c && s[i] != (c as int - 32) as char;
    }
  }

  /** A text that starts with `p` contains `p`. */
  lemma {:induction false} OccursAtStart(p: string, s: string)
    requires |p| <= |s| && s[..|p|] == p
    ensures Occurs(p, s)
  {
    assert OccursAt(p, s, 0);
  }
}
