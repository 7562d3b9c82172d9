/** Cutting text into pieces. */
module Texts {

  predicate Space(c: char) { c in " \t\n\r\U{0B}\U{0C}\U{85}\U{A0}" }

  /** strings.TrimSpace leaves nothing. */
  predicate Blank(s: string) { forall c <- s :: Space(c) }

  function IndexOf(s: string, c: char): (i: nat)
    requires c in s
    ensures i < |s| && s[i] == c && c !in s[..i]
  {
    if s[0] == c then 0 else
    assert s == [s[0]] + s[1..];
    var i := 1 + IndexOf(s[1..], c);
    assert s[..i] == [s[0]] + s[1..][..i - 1];
    i
  }

  function Split(s: string, separator: char): (parts: seq<string>)
    ensures |parts| >= 1
    decreases |s|
  {
    if separator !in s then [s] else
    var i := IndexOf(s, separator);
    [s[..i]] + Split(s[i + 1..], separator)
  }

  predicate HasPrefix(s: string, prefix: string) { |s| >= |prefix| && s[..|prefix|] == prefix }

  // ---------------------------------------------------------------------- blank lines

  predicate BreakAt(s: string, i: int) { 0 <= i < |s| - 1 && s[i] == '\n' && s[i + 1] == '\n' }

  predicate Broken(s: string) { exists i :: 0 <= i < |s| && BreakAt(s, i) }

  /** Where the first blank line begins. */
  function FirstBreak(s: string): (i: nat)
    requires Broken(s)
    ensures BreakAt(s, i) && forall k :: 0 <= k < i ==> !BreakAt(s, k)
  {
    if BreakAt(s, 0) then 0 else
    BreakInTail(s);
    1 + FirstBreak(s[1..])
  }

  lemma BreakInTail(s: string)
    requires Broken(s) && !BreakAt(s, 0)
    ensures Broken(s[1..])
    ensures forall k :: 0 < k < |s| ==> (BreakAt(s, k) <==> BreakAt(s[1..], k - 1))
  {
    var k :| 0 <= k < |s| && BreakAt(s, k);
    assert BreakAt(s[1..], k - 1);
  }

  lemma FirstBreakStays(a: string, b: string)
    requires Broken(a)
    ensures Broken(a + b) && FirstBreak(a + b) == FirstBreak(a)
  {
    var i := FirstBreak(a);
    assert BreakAt(a + b, i);
    assert forall k :: 0 <= k < i ==> (BreakAt(a + b, k) <==> BreakAt(a, k));
  }

  lemma Tail(a: string, b: string, i: nat)
    requires i + 2 <= |a|
    ensures (a + b)[..i] == a[..i] && (a + b)[i + 2..] == a[i + 2..] + b
  {
  }

  lemma Regroup<T>(a: seq<T>, b: seq<T>, c: seq<T>)
    ensures (a + b) + c == a + (b + c)
  {
  }
}
