/**
 The sign containers of a world file: the SGN1 body a sidecar holds, and the same body cut into tagged
 directory rows at the end of the world file.
 */
module EdenSigns {
  import opened ByteStrings
  import opened SnapzCodec

  const RECORD := 120
  const TEXT := 96
  const HEADER := 12
  const MAX_SIGNS := 100000
  const MAX_TRAILER := 16 * 1024 * 1024

  const MAGIC: seq<byte> := [0x53, 0x47, 0x4e, 0x31]
  const TAG: seq<byte> := [0xff, 0xff, 0xff, 0xff]

  /** A sign in the file's own axis order; its text is bytes. */
  datatype EdenSign = EdenSign(x: int32, y: int32, z: int32, a: int32, b: int32, c: int32, text: seq<byte>) {
    /** Its text fits the field and ends where it says. */
    predicate Fits() { |text| < TEXT && 0 !in text }
  }

  predicate AllFit(recs: seq<EdenSign>) { forall i :: 0 <= i < |recs| ==> recs[i].Fits() }

  // --- the body -------------------------------------------------------------------------------------

  /** The text field: cut to leave a zero, and filled with zeros. */
  function TextField(t: seq<byte>): (r: seq<byte>)
    ensures |r| == TEXT
  {
    var cut := if |t| > TEXT - 1 then t[..TEXT - 1] else t;
    cut + Zeros(TEXT - |cut|)
  }

  function RecordBytes(s: EdenSign): (r: seq<byte>)
    ensures |r| == RECORD
  {
    LeBytes(s.x) + LeBytes(s.y) + LeBytes(s.z) + LeBytes(s.a) + LeBytes(s.b) + LeBytes(s.c) + TextField(s.text)
  }

  function Records(recs: seq<EdenSign>): (r: seq<byte>)
    ensures |r| == RECORD * |recs|
  {
    if recs == [] then [] else Records(recs[..|recs| - 1]) + RecordBytes(recs[|recs| - 1])
  }

  function Body(recs: seq<EdenSign>): (r: seq<byte>)
    ensures |r| == HEADER + RECORD * |recs|
  {
    MAGIC + Le(1, 4) + Le(|recs|, 4) + Records(recs)
  }

  method BuildBody(recs: seq<EdenSign>) returns (b: seq<byte>)
    ensures b == Body(recs)
  {
    hide RecordBytes, Le;
    b := MAGIC + Le(1, 4) + Le(|recs|, 4);
    ghost var head := b;
    for i := 0 to |recs|
      invariant b == head + Records(recs[..i])
    {
      assert recs[..i + 1][..i] == recs[..i];
      b := b + RecordBytes(recs[i]);
    }
    assert recs[..|recs|] == recs;
  }

  /** The text of a field: up to its first zero. */
  function TextOf(f: seq<byte>): (t: seq<byte>)
    ensures t <= f && 0 !in t
  {
    if f == [] || f[0] == 0 then [] else [f[0]] + TextOf(f[1..])
  }

  function ReadRecord(b: seq<byte>): EdenSign
    requires |b| == RECORD
  {
    EdenSign(LeInt(b[0..4]), LeInt(b[4..8]), LeInt(b[8..12]), LeInt(b[12..16]), LeInt(b[16..20]), LeInt(b[20..24]), TextOf(b[24..]))
  }

  /** Whole records, at most count of them; a torn last one is dropped. */
  function ReadRecords(b: seq<byte>, count: nat): seq<EdenSign> {
    if count == 0 || |b| < RECORD then [] else [ReadRecord(b[..RECORD])] + ReadRecords(b[RECORD..], count - 1)
  }

  function CountOf(b: seq<byte>): nat
    requires |b| >= HEADER
  {
    if Un(b[8..12]) < MAX_SIGNS then Un(b[8..12]) else MAX_SIGNS
  }

  function ReadBody(b: seq<byte>): seq<EdenSign> {
    if |b| < HEADER || b[..4] != MAGIC then [] else ReadRecords(b[HEADER..], CountOf(b))
  }

  /** Parse a body; anything of another shape is no signs. */
  method ParseBody(b: seq<byte>) returns (s: seq<EdenSign>)
    ensures s == ReadBody(b)
  {
    s := [];
    if |b| < HEADER || b[..4] != MAGIC { return; }
    var count := CountOf(b);
    var off := HEADER;
    var i := 0;
    while i < count
      invariant i <= count && HEADER <= off <= |b| && s + ReadRecords(b[off..], count - i) == ReadBody(b)
    {
      if off + RECORD > |b| { break; }
      assert b[off..][..RECORD] == b[off..off + RECORD] && b[off..][RECORD..] == b[off + RECORD..];
      var r := ReadRecord(b[off..off + RECORD]);
      s := s + [r];
      off := off + RECORD;
      i := i + 1;
    }
  }

  lemma {:induction false} TextRoundTrip(t: seq<byte>, n: nat)
    requires 0 !in t && n > 0
    ensures TextOf(t + Zeros(n)) == t
  {
    if t == [] {
      assert t + Zeros(n) == Zeros(n);
    } else {
      assert (t + Zeros(n))[1..] == t[1..] + Zeros(n);
      TextRoundTrip(t[1..], n);
    }
  }

  lemma RecordRoundTrip(s: EdenSign)
    requires s.Fits()
    ensures ReadRecord(RecordBytes(s)) == s
  {
    var b := RecordBytes(s);
    hide LeBytes, LeInt, TextOf;
    assert b[0..4] == LeBytes(s.x) && b[4..8] == LeBytes(s.y) && b[8..12] == LeBytes(s.z);
    assert b[12..16] == LeBytes(s.a) && b[16..20] == LeBytes(s.b) && b[20..24] == LeBytes(s.c) && b[24..] == TextField(s.text);
    LeRoundTrip(s.x);
    LeRoundTrip(s.y);
    LeRoundTrip(s.z);
    LeRoundTrip(s.a);
    LeRoundTrip(s.b);
    LeRoundTrip(s.c);
    TextRoundTrip(s.text, TEXT - |s.text|);
  }

  lemma {:induction false} RecordsFront(recs: seq<EdenSign>)
    requires recs != []
    ensures Records(recs) == RecordBytes(recs[0]) + Records(recs[1..])
  {
    hide RecordBytes;
    if |recs| == 1 {
      assert recs[..0] == [] && recs[1..] == [];
    } else {
      RecordsFront(recs[..|recs| - 1]);
      assert recs[..|recs| - 1][1..] == recs[1..][..|recs| - 2];
    }
  }

  lemma ReadStep(r: seq<byte>, rest: seq<byte>, n: nat)
    requires |r| == RECORD
    ensures ReadRecords(r + rest, n + 1) == [ReadRecord(r)] + ReadRecords(rest, n)
  {
    hide ReadRecord;
    assert (r + rest)[..RECORD] == r && (r + rest)[RECORD..] == rest;
  }

  lemma FirstReads(recs: seq<EdenSign>, rest: seq<byte>)
    requires recs != [] && recs[0].Fits()
    ensures ReadRecords(Records(recs) + rest, |recs|) == [recs[0]] + ReadRecords(Records(recs[1..]) + rest, |recs| - 1)
  {
    RecordsFront(recs);
    RecordRoundTrip(recs[0]);
    hide RecordBytes, ReadRecord, Records, ReadRecords;
    ReadStep(RecordBytes(recs[0]), Records(recs[1..]) + rest, |recs| - 1);
    Regroup(RecordBytes(recs[0]), Records(recs[1..]), rest);
  }

  lemma NoneRead(b: seq<byte>)
    ensures ReadRecords(b, 0) == []
  {
  }

  /** Records read back, whatever follows them. */
  lemma {:induction false} RecordsRoundTrip(recs: seq<EdenSign>, rest: seq<byte>)
    requires AllFit(recs)
    ensures ReadRecords(Records(recs) + rest, |recs|) == recs
    decreases |recs|
  {
    hide EdenSign.Fits, Records, ReadRecords;
    if recs == [] {
      NoneRead(Records(recs) + rest);
    } else {
      RecordsRoundTrip(recs[1..], rest);
      FirstReads(recs, rest);
      assert [recs[0]] + recs[1..] == recs;
    }
  }

  /** The body gives back exactly the records it was built from, even inside a longer string. */
  lemma BodyRoundTrip(recs: seq<EdenSign>, rest: seq<byte>)
    requires AllFit(recs) && |recs| <= MAX_SIGNS
    ensures ReadBody(Body(recs) + rest) == recs
  {
    var b := Body(recs) + rest;
    Spans();
    UnLe(|recs|, 4);
    hide Records, Le, Un, ReadRecords;
    BodyParts(MAGIC, Le(1, 4), Le(|recs|, 4), Records(recs), rest);
    assert b[..4] == MAGIC && b[8..12] == Le(|recs|, 4) && b[HEADER..] == Records(recs) + rest;
    RecordsRoundTrip(recs, rest);
  }

  lemma BodyParts(m: seq<byte>, v: seq<byte>, n: seq<byte>, r: seq<byte>, rest: seq<byte>)
    requires |m| == |v| == |n| == 4
    ensures var b := m + v + n + r + rest; b[..4] == m && b[8..12] == n && b[12..] == r + rest
  {
  }

  // --- the trailer ----------------------------------------------------------------------------------

  /** Zero bytes that fill the last row. */
  function PadTo(n: nat): (k: nat)
    ensures k < 12
  {
    (12 - n % 12) % 12
  }

  lemma PadEnds(n: nat, k: nat)
    requires k <= PadTo(n)
    ensures (n + k) % 12 == 0 <==> k == PadTo(n)
  {
  }

  function RowPadded(p: seq<byte>): seq<byte> { p + Zeros(PadTo(|p|)) }

  method PadRows(p: seq<byte>) returns (r: seq<byte>)
    ensures r == RowPadded(p)
  {
    r := p;
    ghost var k: nat := 0;
    PadEnds(|p|, 0);
    hide PadTo;
    while |r| % 12 != 0
      invariant k <= PadTo(|p|) && r == p + Zeros(k) && (|r| % 12 == 0 <==> k == PadTo(|p|))
      decreases PadTo(|p|) - k
    {
      assert Zeros(k) + [0] == Zeros(k + 1);
      PadEnds(|p|, k + 1);
      r := r + [0];
      k := k + 1;
    }
  }

  /** What the trailer carries: a wrapper that names the body's length, then the body, in whole rows. */
  function Payload(recs: seq<EdenSign>): seq<byte> {
    RowPadded(MAGIC + Le(|Body(recs)|, 4) + Le(0, 4) + Body(recs))
  }

  /** Rows of the trailer. */
  function RowCount(recs: seq<EdenSign>): nat { 2 + 10 * |recs| }

  lemma PayloadIs(recs: seq<EdenSign>)
    ensures Payload(recs) == MAGIC + Le(|Body(recs)|, 4) + Le(0, 4) + Body(recs) && |Payload(recs)| == 12 * RowCount(recs)
  {
    hide Body, Le, PadTo;
    var p := MAGIC + Le(|Body(recs)|, 4) + Le(0, 4) + Body(recs);
    assert |p| == 12 * RowCount(recs);
    PadEnds(|p|, 0);
    assert p + Zeros(0) == p;
  }

  /** Twelve payload bytes to a row, each row tagged so that no chunk is read from it. */
  function Rows(p: seq<byte>, n: nat): (t: seq<byte>)
    requires |p| == 12 * n
    ensures |t| == 16 * n
  {
    if n == 0 then [] else Rows(p[..12 * (n - 1)], n - 1) + (TAG + p[12 * (n - 1)..])
  }

  function Trailer(recs: seq<EdenSign>): seq<byte>
  {
    if recs == [] then []
    else
      PayloadIs(recs);
      Rows(Payload(recs), RowCount(recs))
  }

  method BuildTrailer(recs: seq<EdenSign>) returns (t: seq<byte>)
    ensures t == Trailer(recs)
  {
    if recs == [] { return []; }
    var inner := BuildBody(recs);
    var payload := PadRows(MAGIC + Le(|inner|, 4) + Le(0, 4) + inner);
    PayloadIs(recs);
    t := MakeRows(payload, RowCount(recs));
  }

  method MakeRows(payload: seq<byte>, ghost n: nat) returns (t: seq<byte>)
    requires |payload| == 12 * n
    ensures t == Rows(payload, n)
  {
    t := [];
    var i := 0;
    ghost var k: nat := 0;
    while i < |payload|
      invariant i == 12 * k <= |payload| && t == Rows(payload[..i], k)
    {
      assert payload[..i + 12][..i] == payload[..i] && payload[..i + 12][i..] == payload[i..i + 12];
      t := t + (TAG + payload[i..i + 12]);
      i := i + 12;
      k := k + 1;
    }
    assert payload[..|payload|] == payload;
  }

  datatype Stripped = Stripped(payload: seq<byte>) | Foreign

  function After(p: seq<byte>, s: Stripped): Stripped {
    match s case Foreign => Foreign case Stripped(q) => Stripped(p + q)
  }

  /** The payload of n tagged rows; any other row means this is not a sign trailer. */
  function Strip(t: seq<byte>, n: nat): Stripped
    requires |t| == 16 * n
  {
    if n == 0 then Stripped([])
    else if t[..4] != TAG then Foreign
    else After(t[4..16], Strip(t[16..], n - 1))
  }

  /** The signs in what the rows carried: under the wrapper, or in place when there is none. */
  function ReadPayload(p: seq<byte>): seq<EdenSign> {
    if |p| < HEADER || p[..4] != MAGIC then []
    else
      var s := ReadBody(p[HEADER..]);
      if s != [] then s else ReadBody(p)
  }

  function ReadInline(t: seq<byte>): seq<EdenSign> {
    if t == [] || |t| % 16 != 0 then []
    else
      match Strip(t, |t| / 16)
      case Foreign => []
      case Stripped(p) => ReadPayload(p)
  }

  /** Parse the rows after the directory; a trailer that is a bare body is read in place. */
  method ParseInline(t: seq<byte>) returns (s: seq<EdenSign>)
    ensures s == ReadInline(t)
  {
    if t == [] || |t| % 16 != 0 { return []; }
    var payload := StripRows(t, |t| / 16);
    match payload {
      case Foreign => return [];
      case Stripped(p) =>
        if |p| < HEADER || p[..4] != MAGIC { return []; }
        s := ParseBody(p[HEADER..]);
        if s != [] { return; }
        s := ParseBody(p);
    }
  }

  method StripRows(t: seq<byte>, ghost n: nat) returns (r: Stripped)
    requires |t| == 16 * n
    ensures r == Strip(t, n)
  {
    var payload: seq<byte> := [];
    var i := 0;
    ghost var k: nat := 0;
    assert t[0..] == t;
    NothingBefore(Strip(t, n));
    while i < |t|
      invariant i == 16 * k <= |t| && Strip(t, n) == After(payload, Strip(t[i..], n - k))
    {
      assert t[i..][..4] == t[i..i + 4] && t[i..][4..16] == t[i + 4..i + 16] && t[i..][16..] == t[i + 16..];
      if t[i..i + 4] != TAG { return Foreign; }
      AfterAfter(payload, t[i + 4..i + 16], Strip(t[i + 16..], n - k - 1));
      payload := payload + t[i + 4..i + 16];
      i := i + 16;
      k := k + 1;
    }
    assert payload + [] == payload;
    return Stripped(payload);
  }

  lemma NothingBefore(s: Stripped)
    ensures After([], s) == s
  {
    if s.Stripped? { assert [] + s.payload == s.payload; }
  }

  lemma AfterAfter(a: seq<byte>, b: seq<byte>, s: Stripped)
    ensures After(a, After(b, s)) == After(a + b, s)
  {
    if s.Stripped? { assert a + (b + s.payload) == a + b + s.payload; }
  }

  lemma {:induction false} RowsStrip(p: seq<byte>, n: nat, rest: seq<byte>, m: nat)
    requires |p| == 12 * n && |rest| == 16 * m
    ensures Strip(Rows(p, n) + rest, n + m) == After(p, Strip(rest, m))
    decreases n
  {
    if n == 0 {
      assert Rows(p, n) + rest == rest;
      NothingBefore(Strip(rest, m));
    } else {
      var init, last := p[..12 * (n - 1)], p[12 * (n - 1)..];
      var tail := TAG + last + rest;
      assert Rows(p, n) + rest == Rows(init, n - 1) + tail;
      hide Rows;
      RowsStrip(init, n - 1, tail, m + 1);
      assert tail[..4] == TAG && tail[4..16] == last && tail[16..] == rest;
      AfterAfter(init, last, Strip(rest, m));
      assert init + last == p;
    }
  }

  /** For one to the most signs a file may hold, the trailer gives them back, and it always fits the
      room a reader allows it. */
  lemma TrailerRoundTrip(recs: seq<EdenSign>)
    requires AllFit(recs) && 1 <= |recs| <= MAX_SIGNS
    ensures ReadInline(Trailer(recs)) == recs && |Trailer(recs)| <= MAX_TRAILER
  {
    var p, n := Payload(recs), RowCount(recs);
    PayloadIs(recs);
    RowsStrip(p, n, [], 0);
    var t := Rows(p, n);
    assert t + [] == t && p + [] == p && |t| / 16 == n && t != [];
    assert Strip(t, n) == Stripped(p);
    PayloadReads(recs);
  }

  lemma PayloadReads(recs: seq<EdenSign>)
    requires AllFit(recs) && 1 <= |recs| <= MAX_SIGNS
    ensures ReadPayload(Payload(recs)) == recs
  {
    PayloadIs(recs);
    BodyRoundTrip(recs, []);
    hide Body, ReadBody, Le, Payload;
    BodyParts(MAGIC, Le(|Body(recs)|, 4), Le(0, 4), Body(recs), []);
    var p := Payload(recs);
    assert Body(recs) + [] == Body(recs) && p + [] == p;
  }

  /** A trailer is rows no chunk is read from. */
  lemma {:induction false} RowsTagged(p: seq<byte>, n: nat, k: nat)
    requires |p| == 12 * n && k < n
    ensures Rows(p, n)[16 * k..16 * k + 4] == TAG
  {
    var r := Rows(p, n);
    if k < n - 1 {
      RowsTagged(p[..12 * (n - 1)], n - 1, k);
      assert r[16 * k..16 * k + 4] == Rows(p[..12 * (n - 1)], n - 1)[16 * k..16 * k + 4];
    }
  }
}
