/**
 The hash under the account file: buffered SHA-256, HMAC with its pads hashed once, and PBKDF2. Each
 fast form is proved against the plain definition. The block function is a parameter.
 */
module Auth {
  import opened ByteStrings
  import opened SnapzCodec

  newtype word = w: int | 0 <= w < 0x1_0000_0000
  type Words = w: seq<word> | |w| == 8 witness [0, 0, 0, 0, 0, 0, 0, 0]

  /** The block function: eight words and a block of 64 bytes give the next eight words. */
  type Compression = (Words, seq<byte>) -> Words

  const BLOCK := 64
  const DIGEST := 32
  const LENGTHS := 0x1_0000_0000_0000_0000

  const START: Words := [0x6a09e667, 0xbb67ae85, 0x3c6ef372, 0xa54ff53a, 0x510e527f, 0x9b05688c, 0x1f83d9ab, 0x5be0cd19]

  // --- the definition ---------------------------------------------------------------------------

  /** The n low bytes of a number, most significant first. */
  function BigEndian(v: nat, n: nat): (r: seq<byte>)
    ensures |r| == n
  {
    seq(n, i requires 0 <= i < n => (v / Shift(n - 1 - i) % 256) as byte)
  }

  /** What n bytes to the right divide by. */
  function Shift(n: nat): (r: nat)
    ensures r > 0
  {
    if n == 0 then 1 else 256 * Shift(n - 1)
  }

  lemma WordBytes(w: word)
    ensures BigEndian(w as nat, 4) ==
      [(w / 0x100_0000) as byte, (w / 0x1_0000 % 256) as byte, (w / 0x100 % 256) as byte, (w % 256) as byte]
  {
    assert Shift(0) == 1 && Shift(1) == 0x100 && Shift(2) == 0x1_0000 && Shift(3) == 0x100_0000;
  }

  /** Zero bytes between the marker and the length: the fewest that end the length on a block. */
  function PadZeros(n: nat): (k: nat)
    ensures k < BLOCK && LengthEnds(n, k)
    ensures forall j: nat :: LengthEnds(n, j) ==> k <= j
  {
    (119 - n % BLOCK) % BLOCK
  }

  /** With k zero bytes after the marker, the length field ends on a block. */
  predicate LengthEnds(n: nat, k: nat) { (n + 1 + k + 8) % BLOCK == 0 }

  lemma ZerosStep(m: seq<byte>, k: nat)
    ensures m + Zeros(0) == m && m + Zeros(k) + [0] == m + Zeros(k + 1)
  {
    assert Zeros(k) + [0] == Zeros(k + 1);
  }

  lemma PadEnds(n: nat, k: nat)
    requires k <= PadZeros(n)
    ensures (n + 1 + k) % BLOCK == BLOCK - 8 <==> k == PadZeros(n)
  {
    if (n + 1 + k) % BLOCK == BLOCK - 8 { assert LengthEnds(n, k); }
    if k == PadZeros(n) { assert LengthEnds(n, k); }
  }

  /** A message padded as section 5.1.1 of FIPS 180-4 says; its length field holds 64 bits. */
  function Padded(m: seq<byte>): (r: seq<byte>)
    ensures |r| % BLOCK == 0 && |r| >= BLOCK && m <= r
  {
    m + [0x80] + Zeros(PadZeros(|m|)) + BigEndian(|m| * 8 % LENGTHS, 8)
  }

  /** The chain of block functions over whole blocks. */
  function Chain(f: Compression, h: Words, m: seq<byte>): Words
    requires |m| % BLOCK == 0
  {
    if m == [] then h else f(Chain(f, h, m[..|m| - BLOCK]), m[|m| - BLOCK..])
  }

  function Spell(ws: seq<word>): (r: seq<byte>)
    ensures |r| == 4 * |ws|
  {
    if ws == [] then [] else Spell(ws[..|ws| - 1]) + BigEndian(ws[|ws| - 1] as nat, 4)
  }

  function Sha(f: Compression, m: seq<byte>): (d: seq<byte>)
    ensures |d| == DIGEST
  {
    Spell(Chain(f, START, Padded(m)))
  }

  lemma ChainStep(f: Compression, h: Words, m: seq<byte>, b: seq<byte>)
    requires |m| % BLOCK == 0 && |b| == BLOCK
    ensures |m + b| % BLOCK == 0 && Chain(f, h, m + b) == f(Chain(f, h, m), b)
  {
    assert (m + b)[..|m|] == m && (m + b)[|m|..] == b;
  }

  /** The words after every whole block of m, and the bytes of m past them. */
  ghost predicate At(f: Compression, h: Words, part: seq<byte>, m: seq<byte>) {
    && |part| == |m| % BLOCK && part == m[|m| - |part|..]
    && h == Chain(f, START, m[..|m| - |part|])
  }

  lemma AtGrow(f: Compression, h: Words, part: seq<byte>, m: seq<byte>, b: seq<byte>)
    requires At(f, h, part, m) && |part| + |b| < BLOCK
    ensures At(f, h, part + b, m + b)
  {
    hide Chain;
    ModGrows(|m|, |b|);
    assert (m + b)[..|m| - |part|] == m[..|m| - |part|];
    assert (m + b)[|m| - |part|..] == m[|m| - |part|..] + b;
  }

  lemma ModGrows(a: nat, b: nat)
    ensures a % BLOCK + b < BLOCK ==> (a + b) % BLOCK == a % BLOCK + b
    ensures a % BLOCK + b == BLOCK ==> (a + b) % BLOCK == 0
    ensures (a - a % BLOCK) % BLOCK == 0
  {
  }

  lemma AtBlock(f: Compression, h: Words, part: seq<byte>, m: seq<byte>, b: seq<byte>)
    requires At(f, h, part, m) && |part| + |b| == BLOCK
    ensures At(f, f(h, part + b), [], m + b)
  {
    hide Chain;
    ModGrows(|m|, |b|);
    ChainStep(f, START, m[..|m| - |part|], part + b);
    assert m[..|m| - |part|] + (part + b) == m + b == (m + b)[..|m + b|];
  }

  lemma Wraps(a: nat, n: nat)
    ensures (a % LENGTHS + n) % LENGTHS == (a + n) % LENGTHS
  {
    assert a + n == a / LENGTHS * LENGTHS + (a % LENGTHS + n);
  }

  // --- the buffered form --------------------------------------------------------------------------

  method Copy(dst: array<byte>, at: nat, src: array<byte>, from: nat, n: nat)
    requires dst != src && at + n <= dst.Length && from + n <= src.Length
    modifies dst
    ensures dst[..at] == old(dst[..at]) && dst[at..at + n] == src[from..from + n] && dst[at + n..] == old(dst[at + n..])
  {
    for i := 0 to n
      invariant dst[..at] == old(dst[..at]) && dst[at + n..] == old(dst[at + n..])
      invariant dst[at..at + i] == src[from..from + i]
    {
      assert src[from..from + i + 1] == src[from..from + i] + [src[from + i]];
      dst[at + i] := src[from + i];
      assert dst[at..at + i + 1] == dst[at..at + i] + [dst[at + i]];
    }
  }

  class Sha256 {
    const f: Compression
    var h: Words
    var len: nat
    const buf: array<byte>
    var fill: nat

    /** Everything absorbed so far. */
    ghost var msg: seq<byte>

    /** The words and the buffer stand for the message m. */
    ghost predicate Holds(m: seq<byte>)
      reads this, buf
    {
      buf.Length == BLOCK && fill < BLOCK && At(f, h, buf[..fill], m)
    }

    ghost predicate Valid()
      reads this, buf
    {
      len == |msg| % LENGTHS && Holds(msg)
    }

    constructor (f: Compression)
      ensures Valid() && msg == [] && this.f == f && fresh(buf)
    {
      this.f := f;
      buf := new byte[BLOCK];
      h, len, fill, msg := START, 0, 0, [];
    }

    /** A copy that goes its own way. */
    method Clone() returns (c: Sha256)
      requires Valid()
      ensures fresh(c) && fresh(c.buf) && c.Valid() && c.msg == msg && c.f == f
    {
      c := new Sha256(f);
      Copy(c.buf, 0, buf, 0, BLOCK);
      c.h, c.len, c.fill, c.msg := h, len, fill, msg;
      assert c.buf[..fill] == c.buf[0..0 + BLOCK][..fill] && buf[..fill] == buf[0..0 + BLOCK][..fill];
    }

    /** Fill the buffer with the first bytes of data, and absorb it if that makes a block. */
    method TopUp(data: array<byte>, take: nat, ghost m: seq<byte>)
      requires Holds(m) && data != buf && take <= data.Length && fill + take <= BLOCK
      modifies this`h, this`fill, buf
      ensures Holds(m + data[..take]) && fill == (old(fill) + take) % BLOCK
    {
      hide At, Chain;
      ghost var part := buf[..fill];
      Copy(buf, fill, data, 0, take);
      assert buf[..fill + take] == part + data[..take] by { assert buf[..fill] == part && data[0..take] == data[..take]; }
      if fill + take < BLOCK {
        AtGrow(f, h, part, m, data[..take]);
        fill := fill + take;
      } else {
        AtBlock(f, h, part, m, data[..take]);
        assert buf[..] == buf[..BLOCK];
        h := f(h, buf[..]);
        fill := 0;
        assert buf[..0] == [];
      }
    }

    /** Whole blocks straight from the data, then keep the rest. */
    method Absorb(data: array<byte>, from: nat, n: nat, ghost m: seq<byte>)
      requires data != buf && from <= n <= data.Length && fill == 0 && Holds(m + data[..from])
      modifies this`h, this`fill, buf
      ensures Holds(m + data[..n])
    {
      hide At, Chain;
      var p := from;
      assert buf[..0] == [];
      while n - p >= BLOCK
        invariant p <= n && fill == 0 && At(f, h, [], m + data[..p])
      {
        AtBlock(f, h, [], m + data[..p], data[p..p + BLOCK]);
        Spliced(m, data[..], p, p + BLOCK);
        h := f(h, data[p..p + BLOCK]);
        p := p + BLOCK;
      }
      AtGrow(f, h, [], m + data[..p], data[p..n]);
      Spliced(m, data[..], p, n);
      if n - p > 0 {
        Copy(buf, 0, data, p, n - p);
        fill := n - p;
        assert buf[..fill] == buf[0..0 + (n - p)];
      }
    }

    /** Absorb the first n bytes of data: top up a part-filled buffer, then whole blocks straight from
        the data, then keep the rest. */
    method Update(data: array<byte>, n: nat)
      requires Valid() && data != buf && n <= data.Length
      modifies this, buf
      ensures Valid() && msg == old(msg) + data[..n]
    {
      hide At, Chain;
      ghost var m := msg;
      assert data[..0] == [] && m + [] == m;
      Wraps(|m|, n);
      len := (len + n) % LENGTHS;
      msg := m + data[..n];
      var p := 0;
      if fill != 0 {
        var take := if n < BLOCK - fill then n else BLOCK - fill;
        TopUp(data, take, m);
        p := take;
        if fill != 0 { return; }
      }
      Absorb(data, p, n, m);
    }

    /** Pad the message and give its digest. The object is then spent. */
    method Final(out: array<byte>)
      requires Valid() && out != buf && out.Length >= DIGEST
      modifies this, buf, out
      ensures out[..DIGEST] == Sha(f, old(msg)) && out[DIGEST..] == old(out[DIGEST..])
    {
      hide At, Chain;
      ghost var m := msg;
      var bits := len * 8 % LENGTHS;
      BitsWrap(|m|);
      var pad := new byte[1](_ => 0x80);
      assert pad[..1] == [0x80];
      Update(pad, 1);
      Marked();
      var lenb := new byte[8](i requires 0 <= i < 8 => (bits / Shift(7 - i) % 256) as byte);
      assert lenb[..8] == BigEndian(bits, 8);
      Update(lenb, 8);
      FinalWords(f, h, buf[..fill], Padded(m));
      WriteWords(out);
    }

    /** Zero bytes until the length ends on a block. */
    method Marked()
      requires Valid() && msg != [] && msg[|msg| - 1] == 0x80
      modifies this, buf
      ensures Valid() && fill == BLOCK - 8
      ensures msg == old(msg) + Zeros(PadZeros(|old(msg)| - 1))
    {
      hide At, Chain, PadZeros, LengthEnds, Zeros;
      ghost var m := msg;
      var zero := new byte[1](_ => 0);
      assert zero[..1] == [0];
      ghost var k: nat := 0;
      assert m + Zeros(0) == m by { ZerosStep(m, 0); }
      FillIs();
      while fill != BLOCK - 8
        invariant zero != buf && zero[..1] == [0]
        invariant Valid() && msg == m + Zeros(k) && k <= PadZeros(|m| - 1) && fill == (|m| + k) % BLOCK
        decreases PadZeros(|m| - 1) - k
      {
        ZerosStep(m, k);
        PadEnds(|m| - 1, k);
        Update(zero, 1);
        FillIs();
        k := k + 1;
      }
      PadEnds(|m| - 1, k);
    }

    lemma FillIs()
      requires Valid()
      ensures fill == |msg| % BLOCK
    {
    }

    method WriteWords(out: array<byte>)
      requires out.Length >= DIGEST && out != buf
      modifies out
      ensures out[..DIGEST] == Spell(h) && out[DIGEST..] == old(out[DIGEST..])
    {
      for i := 0 to 8
        invariant out[..4 * i] == Spell(h[..i]) && out[DIGEST..] == old(out[DIGEST..])
      {
        WordBytes(h[i]);
        assert h[..i + 1][..i] == h[..i];
        out[4 * i] := (h[i] / 0x100_0000) as byte;
        out[4 * i + 1] := (h[i] / 0x1_0000 % 256) as byte;
        out[4 * i + 2] := (h[i] / 0x100 % 256) as byte;
        out[4 * i + 3] := (h[i] % 256) as byte;
        assert out[..4 * (i + 1)] == out[..4 * i] + BigEndian(h[i] as nat, 4);
      }
      assert h[..8] == h;
    }
  }

  lemma BitsWrap(n: nat)
    ensures n % LENGTHS * 8 % LENGTHS == n * 8 % LENGTHS
  {
    assert n * 8 == n / LENGTHS * 8 * LENGTHS + n % LENGTHS * 8;
  }

  lemma FinalWords(f: Compression, h: Words, part: seq<byte>, m: seq<byte>)
    requires At(f, h, part, m) && |m| % BLOCK == 0
    ensures h == Chain(f, START, m)
  {
    assert m[..|m|] == m;
  }

  lemma Spliced(m: seq<byte>, d: seq<byte>, i: nat, j: nat)
    requires i <= j <= |d|
    ensures m + d[..i] + d[i..j] == m + d[..j] && [] + d[i..j] == d[i..j]
  {
    assert d[..i] + d[i..j] == d[..j];
  }

  method Digest(f: Compression, data: array<byte>, n: nat) returns (d: array<byte>)
    requires n <= data.Length
    ensures fresh(d) && d.Length == DIGEST && d[..] == Sha(f, data[..n])
  {
    var s := new Sha256(f);
    s.Update(data, n);
    d := new byte[DIGEST](_ => 0);
    assert [] + data[..n] == data[..n];
    s.Final(d);
    assert d[..] == d[..DIGEST];
  }

  function Joined(parts: seq<array<byte>>): seq<byte>
    reads parts
  {
    if parts == [] then [] else Joined(parts[..|parts| - 1]) + parts[|parts| - 1][..]
  }

  /** However a message is split into updates, the digest is that of the whole message. */
  method DigestOfParts(f: Compression, parts: seq<array<byte>>) returns (d: array<byte>)
    ensures fresh(d) && d.Length == DIGEST && d[..] == Sha(f, Joined(parts))
  {
    hide Sha, Sha256.Valid;
    var s := new Sha256(f);
    for i := 0 to |parts|
      invariant s.Valid() && fresh(s) && fresh(s.buf) && s.f == f && s.msg == Joined(parts[..i])
    {
      assert parts[i] in parts && parts[..i + 1][..i] == parts[..i];
      s.Update(parts[i], parts[i].Length);
      assert parts[i][..parts[i].Length] == parts[i][..];
    }
    assert parts[..|parts|] == parts;
    d := new byte[DIGEST](_ => 0);
    s.Final(d);
    assert d[..] == d[..DIGEST];
  }

  /** Within the sizes the standards allow, neither the length field nor a block index wraps. */
  lemma NothingWraps(m: seq<byte>, i: nat)
    ensures |m| * 8 < LENGTHS ==> Padded(m) == m + [0x80] + Zeros(PadZeros(|m|)) + BigEndian(|m| * 8, 8)
    ensures i < 0x1_0000_0000 ==> Index(i) == BigEndian(i, 4)
  {
    hide BigEndian, Zeros, PadZeros;
  }

  // --- HMAC ---------------------------------------------------------------------------------------

  function Xor(a: byte, b: byte): byte { ((a as bv8) ^ (b as bv8)) as byte }

  function XorEach(a: seq<byte>, b: seq<byte>): (r: seq<byte>)
    requires |a| == |b|
    ensures |r| == |a|
  {
    seq(|a|, i requires 0 <= i < |a| => Xor(a[i], b[i]))
  }

  function XorWith(a: seq<byte>, v: byte): (r: seq<byte>)
    ensures |r| == |a|
  {
    seq(|a|, i requires 0 <= i < |a| => Xor(a[i], v))
  }

  /** The key as one block: hashed first when it is longer than that. */
  function KeyBlock(f: Compression, key: seq<byte>): (k: seq<byte>)
    ensures |k| == BLOCK
  {
    if |key| > BLOCK then Sha(f, key) + Zeros(BLOCK - DIGEST) else key + Zeros(BLOCK - |key|)
  }

  const IPAD: byte := 0x36
  const OPAD: byte := 0x5c

  /** Section 2 of RFC 2104. */
  function Hmac(f: Compression, key: seq<byte>, text: seq<byte>): (d: seq<byte>)
    ensures |d| == DIGEST
  {
    var k := KeyBlock(f, key);
    Sha(f, XorWith(k, OPAD) + Sha(f, XorWith(k, IPAD) + text))
  }

  method Pad(f: Compression, k: seq<byte>, v: byte) returns (s: Sha256)
    requires |k| == BLOCK
    ensures fresh(s) && fresh(s.buf) && s.Valid() && s.f == f && s.msg == XorWith(k, v)
  {
    s := new Sha256(f);
    var pad := new byte[BLOCK](i requires 0 <= i < BLOCK => Xor(k[i], v));
    assert pad[..BLOCK] == XorWith(k, v) && [] + XorWith(k, v) == XorWith(k, v);
    s.Update(pad, BLOCK);
  }

  method MakeKeyBlock(f: Compression, key: seq<byte>) returns (k: seq<byte>)
    ensures k == KeyBlock(f, key)
  {
    if |key| > BLOCK {
      var data := new byte[|key|](i requires 0 <= i < |key| => key[i]);
      assert data[..|key|] == key;
      var d := Digest(f, data, |key|);
      k := d[..] + Zeros(BLOCK - DIGEST);
    } else {
      k := key + Zeros(BLOCK - |key|);
    }
  }

  /** A keyed hash whose two pads are absorbed once, when it is made. */
  class HmacSha256 {
    const f: Compression
    ghost const key: seq<byte>
    const inner: Sha256
    const outer: Sha256

    ghost predicate Valid()
      reads inner, inner.buf, outer, outer.buf
    {
      && inner.Valid() && inner.f == f && inner.msg == XorWith(KeyBlock(f, key), IPAD)
      && outer.Valid() && outer.f == f && outer.msg == XorWith(KeyBlock(f, key), OPAD)
    }

    constructor (f: Compression, key: seq<byte>)
      ensures Valid() && this.f == f && this.key == key
      ensures fresh(inner) && fresh(outer) && fresh(inner.buf) && fresh(outer.buf)
    {
      var k := MakeKeyBlock(f, key);
      var i := Pad(f, k, IPAD);
      var o := Pad(f, k, OPAD);
      this.f, this.key, inner, outer := f, key, i, o;
    }

    method Inner(text: array<byte>, n: nat) returns (d: array<byte>)
      requires Valid() && n <= text.Length
      ensures fresh(d) && d.Length == DIGEST && d[..] == Sha(f, XorWith(KeyBlock(f, key), IPAD) + text[..n])
    {
      hide Sha, XorWith, KeyBlock, At, Chain;
      var i := inner.Clone();
      i.Update(text, n);
      d := new byte[DIGEST](_ => 0);
      i.Final(d);
      assert d[..] == d[..DIGEST];
    }

    /** The digest of the first n bytes of the message; the output may be the message's own array. */
    method Mac(text: array<byte>, n: nat, out: array<byte>)
      requires Valid() && n <= text.Length && out.Length >= DIGEST
      requires out != inner.buf && out != outer.buf
      modifies out
      ensures Valid() && out[..DIGEST] == Hmac(f, key, old(text[..n])) && out[DIGEST..] == old(out[DIGEST..])
    {
      hide Sha, XorWith, KeyBlock, At, Chain;
      var d := Inner(text, n);
      var o := outer.Clone();
      assert d[..] == d[..DIGEST];
      o.Update(d, DIGEST);
      o.Final(out);
    }
  }

  // --- PBKDF2 -------------------------------------------------------------------------------------

  /** The block index as four bytes; the counter is 32 bits wide. */
  function Index(i: nat): (r: seq<byte>)
    ensures |r| == 4
  {
    BigEndian(i % 0x1_0000_0000, 4)
  }

  /** Section 5.2 of RFC 8018: U_j of block i. */
  function U(f: Compression, pw: seq<byte>, salt: seq<byte>, i: nat, j: nat): (r: seq<byte>)
    requires j >= 1
    ensures |r| == DIGEST
  {
    if j == 1 then Hmac(f, pw, salt + Index(i)) else Hmac(f, pw, U(f, pw, salt, i, j - 1))
  }

  /** Block i of the key: the exclusive-or of U_1 to U_c. */
  function T(f: Compression, pw: seq<byte>, salt: seq<byte>, i: nat, c: nat): (r: seq<byte>)
    requires c >= 1
    ensures |r| == DIGEST
  {
    if c == 1 then U(f, pw, salt, i, 1) else XorEach(T(f, pw, salt, i, c - 1), U(f, pw, salt, i, c))
  }

  /** Blocks 1 to n, joined. */
  function Ts(f: Compression, pw: seq<byte>, salt: seq<byte>, c: nat, n: nat): (r: seq<byte>)
    requires c >= 1
    ensures |r| == n * DIGEST
  {
    if n == 0 then [] else Ts(f, pw, salt, c, n - 1) + T(f, pw, salt, n, c)
  }

  function DerivedKey(f: Compression, pw: seq<byte>, salt: seq<byte>, c: nat, size: nat): (r: seq<byte>)
    requires c >= 1
    ensures |r| == size
  {
    Ts(f, pw, salt, c, (size + DIGEST - 1) / DIGEST)[..size]
  }

  lemma KeyGrows(f: Compression, pw: seq<byte>, salt: seq<byte>, c: nat, n: nat, take: nat)
    requires c >= 1 && take <= DIGEST
    ensures Ts(f, pw, salt, c, n + 1)[..n * DIGEST + take] == Ts(f, pw, salt, c, n) + T(f, pw, salt, n + 1, c)[..take]
    ensures Ts(f, pw, salt, c, 0) == []
  {
    hide T;
  }

  method Pbkdf2(f: Compression, pw: seq<byte>, salt: seq<byte>, iterations: nat, size: nat) returns (out: seq<byte>)
    ensures out == DerivedKey(f, pw, salt, if iterations == 0 then 1 else iterations, size)
  {
    hide T, Ts, Hmac, HmacSha256.Valid;
    ghost var c := if iterations == 0 then 1 else iterations;
    KeyGrows(f, pw, salt, c, 0, 0);
    var prf := new HmacSha256(f, pw);
    out := [];
    var block: nat := 1;
    ghost var n: nat := 0;
    while |out| < size
      invariant prf.Valid() && prf.f == f && prf.key == pw
      invariant block == (n + 1) % 0x1_0000_0000
      invariant |out| <= size && |out| <= n * DIGEST && out == Ts(f, pw, salt, c, n)[..|out|]
      invariant |out| < size ==> |out| == n * DIGEST
      invariant |out| == size ==> n == (size + DIGEST - 1) / DIGEST
      decreases size - |out|
    {
      var t := OneBlock(prf, salt, block, iterations, n + 1);
      var take := if size - |out| < DIGEST then size - |out| else DIGEST;
      KeyGrows(f, pw, salt, c, n, take);
      assert out == Ts(f, pw, salt, c, n);
      assert t[..take] == t[..][..take];
      out := out + t[..take];
      block := (block + 1) % 0x1_0000_0000;
      n := n + 1;
    }
  }

  lemma USteps(f: Compression, pw: seq<byte>, salt: seq<byte>, i: nat, j: nat)
    requires j >= 1
    ensures U(f, pw, salt, i, 1) == Hmac(f, pw, salt + Index(i))
    ensures U(f, pw, salt, i, j + 1) == Hmac(f, pw, U(f, pw, salt, i, j))
    ensures T(f, pw, salt, i, 1) == U(f, pw, salt, i, 1)
    ensures T(f, pw, salt, i, j + 1) == XorEach(T(f, pw, salt, i, j), U(f, pw, salt, i, j + 1))
  {
  }

  method XorInto(t: array<byte>, u: array<byte>)
    requires t != u && t.Length == u.Length
    modifies t
    ensures t[..] == XorEach(old(t[..]), u[..])
  {
    for j := 0 to t.Length
      invariant forall k :: 0 <= k < j ==> t[k] == Xor(old(t[k]), u[k])
      invariant forall k :: j <= k < t.Length ==> t[k] == old(t[k])
    {
      t[j] := Xor(t[j], u[j]);
    }
  }

  method FirstDigest(prf: HmacSha256, salt: seq<byte>, block: nat, ghost n: nat) returns (u: array<byte>)
    requires prf.Valid() && block == n % 0x1_0000_0000
    ensures fresh(u) && u.Length == DIGEST && prf.Valid() && u[..] == U(prf.f, prf.key, salt, n, 1)
  {
    hide Hmac;
    var s := salt + BigEndian(block, 4);
    var s1 := new byte[|s|](i requires 0 <= i < |s| => s[i]);
    u := new byte[DIGEST](_ => 0);
    assert s1[..|s|] == s;
    prf.Mac(s1, |s|, u);
    assert u[..] == u[..DIGEST];
  }

  /** A digest keyed over itself, in place. */
  method Rehash(prf: HmacSha256, u: array<byte>)
    requires prf.Valid() && u.Length == DIGEST && u != prf.inner.buf && u != prf.outer.buf
    modifies u
    ensures prf.Valid() && u[..] == Hmac(prf.f, prf.key, old(u[..]))
  {
    hide Hmac;
    assert u[..] == u[..DIGEST];
    prf.Mac(u, DIGEST, u);
    assert u[..] == u[..DIGEST];
  }

  /** One block of the key, each digest overwriting the last in place. */
  method OneBlock(prf: HmacSha256, salt: seq<byte>, block: nat, iterations: nat, ghost n: nat) returns (t: array<byte>)
    requires prf.Valid() && block == n % 0x1_0000_0000
    ensures prf.Valid() && fresh(t) && t.Length == DIGEST
    ensures t[..] == T(prf.f, prf.key, salt, n, if iterations == 0 then 1 else iterations)
  {
    hide Hmac, U, T, XorEach, HmacSha256.Valid;
    var u := FirstDigest(prf, salt, block, n);
    USteps(prf.f, prf.key, salt, n, 1);
    t := new byte[DIGEST](j requires 0 <= j < DIGEST reads u => u[j]);
    assert t[..] == u[..];
    var i := 1;
    while i < iterations
      invariant prf.Valid() && fresh(u) && fresh(t) && t != u && t.Length == u.Length == DIGEST
      invariant i >= 1 && (iterations > 0 ==> i <= iterations) && (iterations == 0 ==> i == 1)
      invariant u[..] == U(prf.f, prf.key, salt, n, i)
      invariant t[..] == T(prf.f, prf.key, salt, n, i)
    {
      Rehash(prf, u);
      XorInto(t, u);
      USteps(prf.f, prf.key, salt, n, i);
      i := i + 1;
    }
  }
}
