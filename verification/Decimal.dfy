/** Decimal numerals, as they are written and as they are read. */
module Decimal {
  import opened Voxels

  function DigitChar(d: nat): char
    requires d < 10
  {
    '0' + d as char
  }

  predicate IsDigit(c: char) { '0' <= c <= '9' }

  predicate Digits(s: string) { forall c :: c in s ==> IsDigit(c) }

  function Show(n: nat): (s: string)
    ensures |s| > 0 && Digits(s)
  {
    if n < 10 then [DigitChar(n)] else Show(n / 10) + [DigitChar(n % 10)]
  }

  function Read(s: string): nat
    requires Digits(s)
  {
    if s == "" then 0
    else
      assert s[|s| - 1] in s;
      Read(s[..|s| - 1]) * 10 + (s[|s| - 1] as int - '0' as int)
  }

  lemma {:induction false} ReadShow(n: nat)
    ensures Read(Show(n)) == n
  {
    var s := Show(n);
    if n < 10 {
      assert s[..|s| - 1] == "";
    } else {
      assert s[..|s| - 1] == Show(n / 10);
      ReadShow(n / 10);
    }
  }

  /** Different numbers have different numerals. */
  lemma ShowInjective(m: nat, n: nat)
    requires Show(m) == Show(n)
    ensures m == n
  {
    ReadShow(m);
    ReadShow(n);
  }

  // --- whole numbers --------------------------------------------------------------------------------

  function ShowInt(v: int): string { if v < 0 then "-" + Show(-v) else Show(v) }

  predicate Space(c: char) { c == ' ' || ('\t' <= c <= '\r') }

  function DropSpace(s: string): (r: string)
    ensures |r| <= |s|
  {
    if s != "" && Space(s[0]) then DropSpace(s[1..]) else s
  }

  /** A whole number that fills the whole token: leading space and a sign are allowed. */
  function ReadInt(tok: string): Option<int> {
    var s := DropSpace(tok);
    var neg := s != "" && s[0] == '-';
    var d := if s != "" && (s[0] == '-' || s[0] == '+') then s[1..] else s;
    if d == "" || !Digits(d) then None else Some(if neg then -(Read(d) as int) else Read(d))
  }

  lemma ReadShowInt(v: int)
    ensures ReadInt(ShowInt(v)) == Some(v)
  {
    var n: nat := if v < 0 then -v else v;
    var d := Show(n);
    ReadShow(n);
    hide Show, Read;
    assert d[0] in d && IsDigit(d[0]);
    assert ("-" + d)[1..] == d;
  }

  lemma ShowIntChars(v: int)
    ensures ShowInt(v) != "" && forall i :: 0 <= i < |ShowInt(v)| ==> ShowInt(v)[i] == '-' || IsDigit(ShowInt(v)[i])
  {
    var s := ShowInt(v);
    forall i | 0 <= i < |s|
      ensures s[i] == '-' || IsDigit(s[i])
    {
      if v >= 0 { assert s[i] in Show(v); } else if i > 0 { assert s[i] == Show(-v)[i - 1] && s[i] in Show(-v); }
    }
  }
}
