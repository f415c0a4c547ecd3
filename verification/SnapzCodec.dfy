/**
 The SNAPZ wire line: records packed little-endian, deflated, base64 without padding (RFC 4648,
 sections 3.2 and 4), and the line they ride in. Deflate and inflate are parameters.
 */
module SnapzCodec {
  import Decimal

  newtype byte = b: int | 0 <= b < 256

  datatype Result<+T> = Ok(value: T) | Err

  // --- base64 -------------------------------------------------------------------------------

  /** The base64 alphabet: A-Z, a-z, 0-9, plus and slash. */
  function Digit(v: int): (c: char)
    requires 0 <= v < 64
    ensures Value(c) == v && !Skipped(c) && c != ':'
  {
    if v < 26 then 'A' + v as char
    else if v < 52 then 'a' + (v - 26) as char
    else if v < 62 then '0' + (v - 52) as char
    else if v == 62 then '+'
    else '/'
  }

  function Value(c: char): int {
    if 'A' <= c <= 'Z' then c as int - 'A' as int
    else if 'a' <= c <= 'z' then c as int - 'a' as int + 26
    else if '0' <= c <= '9' then c as int - '0' as int + 52
    else if c == '+' then 62
    else if c == '/' then 63
    else -1
  }

  /** Padding and white space, which the decoder passes over. */
  predicate Skipped(c: char) { c in "=\n\r \t" }

  /** The digits of one group of at most three bytes: one more digit than bytes. */
  function Group(s: seq<byte>): (r: string)
    requires 1 <= |s| <= 3
    ensures |r| == |s| + 1
  {
    var a := s[0] as int;
    if |s| == 1 then [Digit(a / 4), Digit(a % 4 * 16)]
    else
      var b := s[1] as int;
      if |s| == 2 then [Digit(a / 4), Digit(a % 4 * 16 + b / 16), Digit(b % 16 * 4)]
      else
        var c := s[2] as int;
        [Digit(a / 4), Digit(a % 4 * 16 + b / 16), Digit(b % 16 * 4 + c / 64), Digit(c % 64)]
  }

  function Base64(s: seq<byte>): string {
    if s == [] then ""
    else if |s| <= 3 then Group(s)
    else Group(s[..3]) + Base64(s[3..])
  }

  lemma {:induction false} Base64Append(a: seq<byte>, b: seq<byte>)
    requires |a| % 3 == 0
    ensures Base64(a + b) == Base64(a) + Base64(b)
  {
    hide Base64, Group;
    if a == [] {
      NoGroup(b);
    } else {
      CutGroup(a, b);
      FirstGroup(a);
      FirstGroup(a + b);
      Base64Append(a[3..], b);
      Regroup(Group(a[..3]), Base64(a[3..]), Base64(b));
    }
  }

  lemma NoGroup(b: seq<byte>)
    ensures Base64([] + b) == Base64([]) + Base64(b)
  {
    assert [] + b == b;
  }

  lemma CutGroup(a: seq<byte>, b: seq<byte>)
    requires |a| >= 3
    ensures (a + b)[..3] == a[..3] && (a + b)[3..] == a[3..] + b
  {
  }

  lemma Regroup<T>(a: seq<T>, b: seq<T>, c: seq<T>)
    ensures a + b + c == a + (b + c)
  {
  }

  lemma {:induction false} FirstGroup(s: seq<byte>)
    requires |s| >= 3
    ensures Base64(s) == Group(s[..3]) + Base64(s[3..])
  {
    hide Group;
    if |s| == 3 { assert s[..3] == s && Group(s) + [] == Group(s); }
  }

  /** The k-th group of six bits, from the top, of a 24-bit number. */
  function Sextet(n: int, k: nat): (v: int)
    requires k < 4
    ensures 0 <= v < 64
  {
    n / [0x4_0000, 0x1000, 0x40, 1][k] % 64
  }

  function Joined(a: byte, b: byte, c: byte): int { a as int * 0x1_0000 + b as int * 0x100 + c as int }

  lemma SextetsOf(a: byte, b: byte, c: byte)
    ensures var n := Joined(a, b, c);
      && Sextet(n, 0) == a as int / 4
      && Sextet(n, 1) == a as int % 4 * 16 + b as int / 16
      && Sextet(n, 2) == b as int % 16 * 4 + c as int / 64
      && Sextet(n, 3) == c as int % 64
  {
    var n := Joined(a, b, c);
    var a1, a0, b1, b0, c1, c0 := a as int / 4, a as int % 4, b as int / 16, b as int % 16, c as int / 64, c as int % 64;
    var s1, s2 := a0 * 16 + b1, b0 * 4 + c1;
    assert n == 0x4_0000 * a1 + 0x1000 * s1 + 0x40 * s2 + c0;
    Quotient(n, 0x4_0000, a1, 0x1000 * s1 + 0x40 * s2 + c0);
    Quotient(n, 0x1000, 64 * a1 + s1, 0x40 * s2 + c0);
    Quotient(n, 0x40, 64 * (64 * a1 + s1) + s2, c0);
    Quotient(64 * a1 + s1, 64, a1, s1);
    Quotient(64 * (64 * a1 + s1) + s2, 64, 64 * a1 + s1, s2);
    Quotient(n, 64, 64 * (64 * a1 + s1) + s2, c0);
  }

  lemma Quotient(n: int, d: int, q: int, r: int)
    requires n == d * q + r && 0 <= r < d
    ensures n / d == q && n % d == r
  {
    var k := n / d - q;
    assert n == d * (n / d) + n % d;
    assert d * k == d * (n / d) - d * q;
    AtLeast(d, k);
    AtLeast(d, -k);
  }

  lemma AtLeast(d: int, k: int)
    requires d > 0
    ensures k >= 1 ==> d * k >= d
  {
    if k >= 1 { assert d * k == d * (k - 1) + d; }
  }

  lemma GroupDigits(a: byte, b: byte, c: byte)
    ensures var n := Joined(a, b, c);
      && Base64([a, b, c]) == [Digit(Sextet(n, 0)), Digit(Sextet(n, 1)), Digit(Sextet(n, 2)), Digit(Sextet(n, 3))]
      && (c == 0 ==> Base64([a, b]) == [Digit(Sextet(n, 0)), Digit(Sextet(n, 1)), Digit(Sextet(n, 2))])
      && (b == 0 ==> Base64([a]) == [Digit(Sextet(n, 0)), Digit(Sextet(n, 1))])
  {
    SextetsOf(a, b, c);
    hide Sextet, Digit, Joined;
  }

  /** The encoder: whole groups by shifts of a 24-bit number, then the one or two bytes left. */
  method Encode(data: seq<byte>) returns (out: string)
    ensures out == Base64(data)
  {
    hide Sextet, Digit, Joined, Group;
    out := "";
    var i := 0;
    while i + 3 <= |data|
      invariant 0 <= i <= |data| && i % 3 == 0 && out == Base64(data[..i])
    {
      assert data[i..i + 3] == [data[i], data[i + 1], data[i + 2]];
      GroupDigits(data[i], data[i + 1], data[i + 2]);
      var n := Joined(data[i], data[i + 1], data[i + 2]);
      assert data[..i + 3] == data[..i] + data[i..i + 3];
      Base64Append(data[..i], data[i..i + 3]);
      out := out + [Digit(Sextet(n, 0)), Digit(Sextet(n, 1)), Digit(Sextet(n, 2)), Digit(Sextet(n, 3))];
      i := i + 3;
    }
    assert data == data[..i] + data[i..];
    Base64Append(data[..i], data[i..]);
    var rem := |data| - i;
    if rem == 1 {
      assert data[i..] == [data[i]];
      GroupDigits(data[i], 0, 0);
      var n := Joined(data[i], 0, 0);
      out := out + [Digit(Sextet(n, 0)), Digit(Sextet(n, 1))];
    } else if rem == 2 {
      assert data[i..] == [data[i], data[i + 1]];
      GroupDigits(data[i], data[i + 1], 0);
      var n := Joined(data[i], data[i + 1], 0);
      out := out + [Digit(Sextet(n, 0)), Digit(Sextet(n, 1)), Digit(Sextet(n, 2))];
    }
  }

  const WORD := 0x1_0000_0000

  /** The decoder's registers after one character, and the byte it may emit. */
  datatype Bits = Bits(buf: int, bits: int)

  function Feed(s: Bits, v: int): (Bits, seq<byte>)
    requires 0 <= s.bits < 8 && 0 <= v < 64
  {
    var buf := (s.buf * 64 + v) % WORD;
    var bits := s.bits + 6;
    if bits >= 8 then (Bits(buf, bits - 8), [(buf / Pow2(bits - 8) % 256) as byte])
    else (Bits(buf, bits), [])
  }

  function Pow2(n: int): int
    requires 0 <= n < 8
    ensures Pow2(n) > 0
  {
    [1, 2, 4, 8, 16, 32, 64, 128][n]
  }

  function DecodeFrom(s: Bits, text: string): Result<seq<byte>>
    requires 0 <= s.bits < 8
    decreases |text|
  {
    if text == "" then Ok([])
    else if Skipped(text[0]) then DecodeFrom(s, text[1..])
    else if Value(text[0]) < 0 then Err
    else
      var (t, b) := Feed(s, Value(text[0]));
      Prepend(b, DecodeFrom(t, text[1..]))
  }

  function Prepend<T>(b: seq<T>, r: Result<seq<T>>): Result<seq<T>> {
    match r case Err => Err case Ok(rest) => Ok(b + rest)
  }

  /** The tolerant decoder, one character at a time with a 32-bit accumulator. */
  method Decode(text: string) returns (r: Result<seq<byte>>)
    ensures r == DecodeFrom(Bits(0, 0), text)
  {
    hide Value, Skipped, Pow2, Prepend, DecodeFrom;
    var out: seq<byte>, s := [], Bits(0, 0);
    assert text[0..] == text;
    NothingBefore(DecodeFrom(s, text));
    for i := 0 to |text|
      invariant 0 <= s.bits < 8
      invariant DecodeFrom(Bits(0, 0), text) == Prepend(out, DecodeFrom(s, text[i..]))
    {
      DecodeStep(out, s, text, i);
      if !Skipped(text[i]) {
        var v := Value(text[i]);
        if v < 0 { return Err; }
        ValueSmall(text[i]);
        var buf, bits := (s.buf * 64 + v) % WORD, s.bits + 6;
        if bits >= 8 {
          bits := bits - 8;
          out := out + [(buf / Pow2(bits) % 256) as byte];
        } else {
          assert out + [] == out;
        }
        s := Bits(buf, bits);
      }
    }
    assert text[|text|..] == "";
    NothingAfter(out, s);
    return Ok(out);
  }

  lemma NothingBefore(r: Result<seq<byte>>)
    ensures Prepend([], r) == r
  {
    if r.Ok? { assert [] + r.value == r.value; }
  }

  lemma NothingAfter(out: seq<byte>, s: Bits)
    requires 0 <= s.bits < 8
    ensures Prepend(out, DecodeFrom(s, "")) == Ok(out)
  {
    assert out + [] == out;
  }

  /** One character of the text, with what came out before it. */
  lemma DecodeStep(out: seq<byte>, s: Bits, text: string, i: nat)
    requires 0 <= s.bits < 8 && i < |text|
    ensures Value(text[i]) < 64
    ensures Prepend(out, DecodeFrom(s, text[i..])) ==
      if Skipped(text[i]) then Prepend(out, DecodeFrom(s, text[i + 1..]))
      else if Value(text[i]) < 0 then Err
      else Prepend(out + Feed(s, Value(text[i])).1, DecodeFrom(Feed(s, Value(text[i])).0, text[i + 1..]))
  {
    hide Value, Skipped, Pow2;
    ValueSmall(text[i]);
    assert text[i..][1..] == text[i + 1..];
    if !Skipped(text[i]) && Value(text[i]) >= 0 {
      var (t, b) := Feed(s, Value(text[i]));
      var rest := DecodeFrom(t, text[i + 1..]);
      if rest.Ok? { assert out + (b + rest.value) == out + b + rest.value; }
    }
  }

  lemma ValueSmall(c: char)
    ensures Value(c) < 64
  {
  }

  lemma FeedDigit(s: Bits, v: int, rest: string)
    requires 0 <= s.bits < 8 && 0 <= v < 64
    ensures var (t, b) := Feed(s, v);
      DecodeFrom(s, [Digit(v)] + rest) == Prepend(b, DecodeFrom(t, rest))
  {
    assert ([Digit(v)] + rest)[1..] == rest;
  }

  /** The low 12 bits of the accumulator are the last two digits. */
  lemma LowBits(buf: int, v: int, w: int)
    requires 0 <= v < 64 && 0 <= w < 64
    ensures ((buf * 64 + v) % WORD * 64 + w) % WORD % 4096 == v * 64 + w
  {
    var x := buf * 64 + v;
    var y := x % WORD * 64 + w;
    assert x % 64 == v;
    assert x % WORD % 64 == v;
    assert y % 4096 == v * 64 + w;
  }

  /** A digit after another puts out a byte made of the two, whatever the accumulator held above them. */
  lemma Emits(s: Bits, v: int, w: int)
    requires 0 <= s.bits < 8 && s.bits % 2 == 0 && 0 <= v < 64 && 0 <= w < 64
    ensures var t := Feed(s, v).0;
      && t.bits == (s.bits + 6) % 8
      && (t.bits >= 2 ==> Feed(t, w).0.bits == t.bits - 2)
      && (t.bits >= 2 ==> Feed(t, w).1 == [((v * 64 + w) / Pow2(t.bits - 2) % 256) as byte])
  {
    LowBits(s.buf, v, w);
    var t := Feed(s, v).0;
    if t.bits >= 2 {
      var buf, bits := (t.buf * 64 + w) % WORD, t.bits - 2;
      hide Pow2;
      ByteOut(buf, v * 64 + w, bits);
    }
  }

  lemma ByteOut(buf: int, low: int, bits: int)
    requires buf % 4096 == low && bits in {0, 2, 4}
    ensures buf / Pow2(bits) % 256 == low / Pow2(bits) % 256
  {
    if bits == 4 { LowByte(buf, 16); } else if bits == 2 { LowByte(buf, 4); }
  }

  lemma LowByte(buf: int, d: int)
    requires d == 4 || d == 16
    ensures buf / d % 256 == buf % 4096 / d % 256
  {
    var q, low := buf / 4096, buf % 4096;
    Quotient(buf, d, 4096 / d * q + low / d, low % d);
  }

  lemma BytesBack(a: byte, b: byte, c: byte)
    ensures (a as int / 4 * 64 + (a as int % 4 * 16 + b as int / 16)) / Pow2(4) % 256 == a as int
    ensures ((a as int % 4 * 16 + b as int / 16) * 64 + (b as int % 16 * 4 + c as int / 64)) / Pow2(2) % 256 == b as int
    ensures ((b as int % 16 * 4 + c as int / 64) * 64 + c as int % 64) / Pow2(0) % 256 == c as int
  {
    var i, j, k := a as int, b as int, c as int;
    Quotient(i / 4 * 64 + (i % 4 * 16 + j / 16), 16, i, j / 16);
    Quotient((i % 4 * 16 + j / 16) * 64 + (j % 16 * 4 + k / 64), 4, i % 4 * 256 + j, k / 64);
    Quotient((j % 16 * 4 + k / 64) * 64 + k % 64, 256, j % 16, k);
  }

  /** One group of three bytes decodes to itself and leaves no bits over. */
  lemma GroupDecodes(buf: int, s: seq<byte>, rest: string) returns (after: int)
    requires |s| == 3
    ensures DecodeFrom(Bits(buf, 0), Group(s) + rest) == Prepend(s, DecodeFrom(Bits(after, 0), rest))
  {
    hide Feed, Digit, Pow2, DecodeFrom;
    var a, b, c := s[0] as int, s[1] as int, s[2] as int;
    var v0, v1, v2, v3 := a / 4, a % 4 * 16 + b / 16, b % 16 * 4 + c / 64, c % 64;
    var s0 := Bits(buf, 0);
    Emits(s0, v0, v1);
    var s1 := Feed(s0, v0).0;
    var s2 := Feed(s1, v1).0;
    Emits(s1, v1, v2);
    var s3 := Feed(s2, v2).0;
    Emits(s2, v2, v3);
    var s4 := Feed(s3, v3).0;
    BytesBack(s[0], s[1], s[2]);
    NoByte(s0, v0);
    assert Group(s) + rest == [Digit(v0)] + ([Digit(v1)] + ([Digit(v2)] + ([Digit(v3)] + rest)));
    hide Group;
    FeedDigit(s0, v0, [Digit(v1)] + ([Digit(v2)] + ([Digit(v3)] + rest)));
    FeedDigit(s1, v1, [Digit(v2)] + ([Digit(v3)] + rest));
    FeedDigit(s2, v2, [Digit(v3)] + rest);
    FeedDigit(s3, v3, rest);
    after := s4.buf;
    var tail := DecodeFrom(s4, rest);
    if tail.Ok? { assert [] + ([s[0]] + ([s[1]] + ([s[2]] + tail.value))) == s + tail.value; }
  }

  lemma NoByte(s: Bits, v: int)
    requires s.bits == 0 && 0 <= v < 64
    ensures Feed(s, v).1 == []
  {
  }

  /** The last one or two bytes decode to themselves, the bits left over dropped. */
  lemma TailDecodes(buf: int, s: seq<byte>)
    requires 1 <= |s| <= 2
    ensures DecodeFrom(Bits(buf, 0), Group(s)) == Ok(s)
  {
    hide Feed, Digit, Pow2;
    var a, b := s[0] as int, if |s| == 2 then s[1] as int else 0;
    var v0, v1, v2 := a / 4, a % 4 * 16 + b / 16, b % 16 * 4;
    var s0 := Bits(buf, 0);
    NoByte(s0, v0);
    Emits(s0, v0, v1);
    var s1 := Feed(s0, v0).0;
    var s2 := Feed(s1, v1).0;
    Emits(s1, v1, v2);
    BytesBack(s[0], b as byte, 0);
    var rest := if |s| == 2 then [Digit(v2)] else "";
    assert Group(s) == [Digit(v0)] + ([Digit(v1)] + rest);
    FeedDigit(s0, v0, [Digit(v1)] + rest);
    FeedDigit(s1, v1, rest);
    hide Group;
    if |s| == 2 {
      FeedDigit(s2, v2, "");
      assert rest == [Digit(v2)] + "";
      EmptyDecodes(Feed(s2, v2).0);
      assert [] + ([s[0]] + ([s[1]] + [])) == s;
    } else {
      EmptyDecodes(s2);
      assert [] + ([s[0]] + []) == s;
    }
  }

  lemma {:induction false} DecodesFrom(buf: int, s: seq<byte>)
    ensures DecodeFrom(Bits(buf, 0), Base64(s)) == Ok(s)
    decreases |s|
  {
    hide Group, DecodeFrom;
    if s == [] {
      EmptyDecodes(Bits(buf, 0));
    } else if |s| < 3 {
      TailDecodes(buf, s);
    } else if |s| == 3 {
      var after := GroupDecodes(buf, s, "");
      EmptyDecodes(Bits(after, 0));
      assert Group(s) + "" == Group(s) && s + [] == s;
    } else {
      var after := GroupDecodes(buf, s[..3], Base64(s[3..]));
      DecodesFrom(after, s[3..]);
      assert s[..3] + s[3..] == s;
    }
  }

  lemma EmptyDecodes(s: Bits)
    requires 0 <= s.bits < 8
    ensures DecodeFrom(s, "") == Ok([])
  {
  }

  /** The decoder undoes the encoder on every byte string. */
  lemma Base64RoundTrip(s: seq<byte>)
    ensures DecodeFrom(Bits(0, 0), Base64(s)) == Ok(s)
  {
    DecodesFrom(0, s);
  }

  // --- records ------------------------------------------------------------------------------

  newtype int32 = n: int | -0x8000_0000 <= n < 0x8000_0000

  datatype Rec = Rec(x: int32, y: int32, z: int32, flag: int32, kind: int32)

  function LeBytes(n: int32): (r: seq<byte>)
    ensures |r| == 4
  {
    var u := n as int % WORD;
    [(u % 256) as byte, (u / 0x100 % 256) as byte, (u / 0x1_0000 % 256) as byte, (u / 0x100_0000 % 256) as byte]
  }

  function LeInt(b: seq<byte>): int32
    requires |b| == 4
  {
    var u := b[0] as int + b[1] as int * 0x100 + b[2] as int * 0x1_0000 + b[3] as int * 0x100_0000;
    if u >= 0x8000_0000 then (u - WORD) as int32 else u as int32
  }

  lemma LeRoundTrip(n: int32)
    ensures LeInt(LeBytes(n)) == n
  {
    var u := n as int % WORD;
    var q := u / 0x100;
    assert u / 0x1_0000 == q / 0x100 && u / 0x100_0000 == q / 0x1_0000;
    assert q % 0x100 + q / 0x100 % 0x100 * 0x100 + q / 0x1_0000 * 0x1_0000 == q;
  }

  function RecBytes(r: Rec): (b: seq<byte>)
    ensures |b| == 20
  {
    LeBytes(r.x) + LeBytes(r.y) + LeBytes(r.z) + LeBytes(r.flag) + LeBytes(r.kind)
  }

  function Packed(recs: seq<Rec>): (b: seq<byte>)
    ensures |b| == 20 * |recs|
  {
    if recs == [] then [] else RecBytes(recs[0]) + Packed(recs[1..])
  }

  lemma {:induction false} PackedAppend(a: seq<Rec>, r: Rec)
    ensures Packed(a + [r]) == Packed(a) + RecBytes(r)
  {
    if a == [] {
      assert a + [r] == [r] && Packed([r]) == RecBytes(r) + Packed([]);
    } else {
      assert (a + [r])[1..] == a[1..] + [r];
      PackedAppend(a[1..], r);
    }
  }

  /** The records of a frame, five little-endian 32-bit integers each. */
  method PackRecords(recs: seq<Rec>) returns (raw: seq<byte>)
    ensures raw == Packed(recs)
  {
    raw := [];
    for i := 0 to |recs|
      invariant raw == Packed(recs[..i])
    {
      assert recs[..i + 1] == recs[..i] + [recs[i]];
      PackedAppend(recs[..i], recs[i]);
      var r := recs[i];
      raw := raw + LeBytes(r.x) + LeBytes(r.y) + LeBytes(r.z) + LeBytes(r.flag) + LeBytes(r.kind);
    }
    assert recs[..|recs|] == recs;
  }

  /** What a client makes of the inflated bytes of a frame. */
  function Unpacked(b: seq<byte>): seq<Rec> {
    if |b| < 20 then []
    else [Rec(LeInt(b[..4]), LeInt(b[4..8]), LeInt(b[8..12]), LeInt(b[12..16]), LeInt(b[16..20]))] + Unpacked(b[20..])
  }

  lemma {:induction false} PackRoundTrip(recs: seq<Rec>)
    ensures Unpacked(Packed(recs)) == recs
  {
    if recs != [] {
      var r, b := recs[0], Packed(recs);
      assert b[20..] == Packed(recs[1..]);
      assert b[..4] == LeBytes(r.x) && b[4..8] == LeBytes(r.y) && b[8..12] == LeBytes(r.z)
        && b[12..16] == LeBytes(r.flag) && b[16..20] == LeBytes(r.kind);
      LeRoundTrip(r.x);
      LeRoundTrip(r.y);
      LeRoundTrip(r.z);
      LeRoundTrip(r.flag);
      LeRoundTrip(r.kind);
      PackRoundTrip(recs[1..]);
      assert [r] + recs[1..] == recs;
    }
  }

  // --- the line -----------------------------------------------------------------------------

  type Transform = seq<byte> -> seq<byte>

  function Line(n: nat, z: seq<byte>): string {
    "SNAPZ:" + Decimal.Show(n) + ":" + Base64(z) + "\n"
  }

  /** The whole wire line of a frame. */
  function SnapzLine(deflate: Transform, recs: seq<Rec>): string {
    Line(|recs|, deflate(Packed(recs)))
  }

  function ColonAt(s: string): (k: nat)
    ensures k <= |s| && ':' !in s[..k] && (k < |s| ==> s[k] == ':')
  {
    if s == "" || s[0] == ':' then 0 else 1 + ColonAt(s[1..])
  }

  /** The count and the records a client reads out of a line. */
  function ReadLine(inflate: Transform, line: string): Result<(nat, seq<Rec>)> {
    if |line| < 6 || line[..6] != "SNAPZ:" then Err
    else
      var rest := line[6..];
      var k := ColonAt(rest);
      if k == |rest| || !Decimal.Digits(rest[..k]) then Err
      else match DecodeFrom(Bits(0, 0), rest[k + 1..])
        case Err => Err
        case Ok(z) => Ok((Decimal.Read(rest[..k]), Unpacked(inflate(z))))
  }

  lemma {:induction false} ColonAfter(a: string, b: string)
    requires ':' !in a
    ensures ColonAt(a + ":" + b) == |a|
  {
    if a == "" {
      assert a + ":" + b == ":" + b;
    } else {
      assert (a + ":" + b)[1..] == a[1..] + ":" + b;
      ColonAfter(a[1..], b);
    }
  }

  lemma {:induction false} NewlineSkipped(s: Bits, text: string)
    requires 0 <= s.bits < 8
    ensures DecodeFrom(s, text + "\n") == DecodeFrom(s, text)
    decreases |text|
  {
    hide Feed, Value;
    if text == "" {
      assert (text + "\n")[1..] == "";
    } else {
      assert (text + "\n")[1..] == text[1..] + "\n";
      if Skipped(text[0]) {
        NewlineSkipped(s, text[1..]);
      } else if Value(text[0]) >= 0 {
        ValueSmall(text[0]);
        FeedBits(s, Value(text[0]));
        NewlineSkipped(Feed(s, Value(text[0])).0, text[1..]);
      }
    }
  }

  lemma FeedBits(s: Bits, v: int)
    requires 0 <= s.bits < 8 && 0 <= v < 64
    ensures 0 <= Feed(s, v).0.bits < 8
  {
  }

  /** A client reads back exactly the records of the frame, and their count, from its line. */
  lemma LineRoundTrip(deflate: Transform, inflate: Transform, recs: seq<Rec>)
    requires forall b: seq<byte> :: inflate(deflate(b)) == b
    ensures ReadLine(inflate, SnapzLine(deflate, recs)) == Ok((|recs|, recs))
  {
    hide Base64, DecodeFrom, Packed, Unpacked, Decimal.Show, Decimal.Read, ColonAt;
    var z := deflate(Packed(recs));
    var n, text := Decimal.Show(|recs|), Base64(z);
    var line := SnapzLine(deflate, recs);
    assert line[..6] == "SNAPZ:" && line[6..] == n + ":" + (text + "\n");
    ColonAfter(n, text + "\n");
    assert line[6..][..|n|] == n && line[6..][|n| + 1..] == text + "\n";
    NewlineSkipped(Bits(0, 0), text);
    Base64RoundTrip(z);
    Decimal.ReadShow(|recs|);
    PackRoundTrip(recs);
  }
}
