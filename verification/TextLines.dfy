/** Looking for a character in a line, and for the end of a line in a file. */
module TextLines {
  function Find(s: string, c: char): (k: nat)
    ensures k <= |s| && (k < |s| ==> s[k] == c) && forall i :: 0 <= i < k ==> s[i] != c
  {
    if s == "" || s[0] == c then 0 else 1 + Find(s[1..], c)
  }

  function TrimStart(s: string): string {
    if s != "" && (s[0] == ' ' || s[0] == '\t') then TrimStart(s[1..]) else s
  }

  lemma {:induction false} FindAfter(a: string, rest: string)
    requires forall i :: 0 <= i < |a| ==> a[i] != ':'
    ensures Find(a + (":" + rest), ':') == |a|
  {
    var s := a + (":" + rest);
    var k := Find(s, ':');
    assert s[|a|] == ':';
    assert forall i :: 0 <= i < |a| ==> s[i] == a[i];
  }

  lemma LineEnds(l: string, rest: string)
    requires forall i :: 0 <= i < |l| ==> l[i] != '\n'
    ensures var file := l + "\n" + rest;
      |l| < |file| && Find(file, '\n') == |l| && file[..|l|] == l && file[|l| + 1..] == rest
  {
    hide Find;
    FindIs(l + "\n" + rest, '\n', |l|);
  }

  predicate OneLine(l: string) { forall i :: 0 <= i < |l| ==> l[i] != '\n' }

  predicate WholeLines(a: string) { a == "" || a[|a| - 1] == '\n' }

  /** What stands behind whole lines leaves the first of them as it is. */
  lemma FirstLine(a: string, b: string)
    requires WholeLines(a) && a != ""
    ensures var k := Find(a, '\n');
      && k < |a| && Find(a + b, '\n') == k && (a + b)[..k] == a[..k] && (a + b)[k + 1..] == a[k + 1..] + b
      && WholeLines(a[k + 1..])
  {
    var k := Find(a, '\n');
    FindIs(a + b, '\n', k);
  }

  lemma FindIs(s: string, c: char, k: nat)
    requires k < |s| && s[k] == c && forall i :: 0 <= i < k ==> s[i] != c
    ensures Find(s, c) == k
  {
  }
}
