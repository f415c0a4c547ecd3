/** Unsigned numbers as little-endian bytes, and runs of zero bytes. */
module ByteStrings {
  import opened SnapzCodec

  /** The n low bytes of a number, least significant first. */
  function Le(v: nat, n: nat): (r: seq<byte>)
    ensures |r| == n
  {
    if n == 0 then [] else [(v % 256) as byte] + Le(v / 256, n - 1)
  }

  function Un(b: seq<byte>): nat {
    if b == [] then 0 else b[0] as nat + 256 * Un(b[1..])
  }

  function Span(n: nat): nat { if n == 0 then 1 else 256 * Span(n - 1) }

  /** A number that fits its field reads back. */
  lemma {:induction false} UnLe(v: nat, n: nat)
    requires v < Span(n)
    ensures Un(Le(v, n)) == v
  {
    if n > 0 {
      UnLe(v / 256, n - 1);
      assert Le(v, n)[1..] == Le(v / 256, n - 1);
    }
  }

  lemma Spans()
    ensures Span(2) == 0x1_0000 && Span(4) == 0x1_0000_0000 && Span(8) == 0x1_0000_0000_0000_0000
  {
    assert Span(1) == 256 && Span(2) == 256 * Span(1) && Span(3) == 256 * Span(2) && Span(4) == 256 * Span(3);
    assert Span(5) == 256 * Span(4) && Span(6) == 256 * Span(5) && Span(7) == 256 * Span(6);
  }

  function Zeros(n: nat): (r: seq<byte>)
    ensures |r| == n && forall i :: 0 <= i < n ==> r[i] == 0
  {
    seq(n, i => 0)
  }
}
