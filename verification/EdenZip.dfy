/**
 The ZIP container of a world file (PKWARE APPNOTE, sections 4.3.7, 4.3.12 and 4.3.16): one deflated
 member on the way out, the first world member on the way in. Deflate, inflate and the checksum are
 parameters.
 */
module EdenZip {
  import opened ByteStrings
  import opened SnapzCodec
  import opened Voxels

  const SIG_LOCAL: seq<byte> := [0x50, 0x4b, 0x03, 0x04]
  const SIG_CENTRAL: seq<byte> := [0x50, 0x4b, 0x01, 0x02]
  const SIG_END: seq<byte> := [0x50, 0x4b, 0x05, 0x06]
  const SIG_SPANNED: seq<byte> := [0x50, 0x4b, 0x07, 0x08]

  const EDEN: seq<byte> := [0x2e, 0x65, 0x64, 0x65, 0x6e]
  const MACOSX: seq<byte> := [0x5f, 0x5f, 0x4d, 0x41, 0x43, 0x4f, 0x53, 0x58, 0x2f]

  const END_SIZE := 22
  const COMMENT_MAX := 65535
  const U32 := 0x1_0000_0000

  predicate IsZip(b: seq<byte>) { |b| >= 4 && (b[..4] == SIG_LOCAL || b[..4] == SIG_END || b[..4] == SIG_SPANNED) }

  // --- out ------------------------------------------------------------------------------------------

  /** What a member's headers say of it. */
  datatype Member = Member(how: nat, csize: nat, usize: nat, local: nat)

  function LocalHeader(crc: nat, csize: nat, usize: nat, namelen: nat): (r: seq<byte>)
    ensures |r| == 30
  {
    SIG_LOCAL + (Le(20, 2) + Le(0, 2) + Le(8, 2) + Le(0, 2) + Le(0, 2)) + Le(crc, 4) + Le(csize, 4) + Le(usize, 4) + Le(namelen, 2) + Le(0, 2)
  }

  function CentralSizes(crc: nat, csize: nat, usize: nat): (r: seq<byte>)
    ensures |r| == 28
  {
    SIG_CENTRAL + (Le(20, 2) + Le(20, 2) + Le(0, 2)) + Le(8, 2) + (Le(0, 2) + Le(0, 2) + Le(crc, 4)) + Le(csize, 4) + Le(usize, 4)
  }

  function CentralPlace(namelen: nat, local: nat): (r: seq<byte>)
    ensures |r| == 18
  {
    Le(namelen, 2) + (Le(0, 2) + Le(0, 2)) + (Le(0, 2) + Le(0, 2) + Le(0, 4)) + Le(local, 4)
  }

  function CentralHeader(crc: nat, csize: nat, usize: nat, namelen: nat, local: nat): (r: seq<byte>)
    ensures |r| == 46
  {
    CentralSizes(crc, csize, usize) + CentralPlace(namelen, local)
  }

  function EndRecord(size: nat, off: nat): (r: seq<byte>)
    ensures |r| == END_SIZE
  {
    SIG_END + (Le(0, 2) + Le(0, 2) + Le(1, 2)) + Le(1, 2) + Le(size, 4) + Le(off, 4) + Le(0, 2)
  }

  type Checksum = seq<byte> -> nat

  function ZipSingle(crc: Checksum, deflate: Transform, name: seq<byte>, data: seq<byte>): seq<byte> {
    var comp := deflate(data);
    var head := LocalHeader(crc(data), |comp|, |data|, |name|) + name + comp;
    var dir := CentralHeader(crc(data), |comp|, |data|, |name|, 0) + name;
    head + dir + EndRecord(|dir|, |head|)
  }

  // --- in -------------------------------------------------------------------------------------------

  /** The last end record, looking back no further than a comment could push it. */
  function FindEnd(b: seq<byte>, i: nat): (e: Option<nat>)
    requires i + END_SIZE <= |b|
    ensures e.Some? ==> e.value + END_SIZE <= |b|
  {
    if b[i..i + 4] == SIG_END then Some(i)
    else if |b| - i > END_SIZE + COMMENT_MAX || i == 0 then None
    else FindEnd(b, i - 1)
  }

  /** A member the reader wants: a world file, and not the decoy an archiver adds. */
  predicate Wanted(name: seq<byte>) {
    |name| >= |EDEN| && name[|name| - |EDEN|..] == EDEN && !(|name| >= |MACOSX| && name[..|MACOSX|] == MACOSX)
  }

  function MemberAt(b: seq<byte>, p: nat): Member
    requires p + 46 <= |b|
  {
    Member(Un(b[p + 10..p + 12]), Un(b[p + 20..p + 24]), Un(b[p + 24..p + 28]), Un(b[p + 42..p + 46]))
  }

  predicate EntryFits(b: seq<byte>, p: nat) {
    p + 46 <= |b| && b[p..p + 4] == SIG_CENTRAL && p + 46 + Un(b[p + 28..p + 30]) <= |b|
  }

  function NameAt(b: seq<byte>, p: nat): seq<byte>
    requires EntryFits(b, p)
  {
    b[p + 46..p + 46 + Un(b[p + 28..p + 30])]
  }

  /** Where the entry after this one is. */
  function NextEntry(b: seq<byte>, p: nat): nat
    requires EntryFits(b, p)
  {
    p + 46 + Un(b[p + 28..p + 30]) + Un(b[p + 30..p + 32]) + Un(b[p + 32..p + 34])
  }

  /** The first wanted member of the directory, stopping where the directory stops making sense. */
  function FindMember(b: seq<byte>, p: nat, count: nat): Option<Member>
    decreases count
  {
    if count == 0 || !EntryFits(b, p) then None
    else if Wanted(NameAt(b, p)) then Some(MemberAt(b, p))
    else FindMember(b, NextEntry(b, p), count - 1)
  }

  datatype Unzipped = Data(data: seq<byte>) | Truncated | NoEnd | NoMember | TooBig | BadHeader | PastEnd | BadMethod | Corrupt

  type Inflate = seq<byte> -> Option<seq<byte>>

  function Extract(inflate: Inflate, b: seq<byte>, m: Member, most: nat): Unzipped {
    if m.usize > most then TooBig
    else if m.local + 30 > |b| || b[m.local..m.local + 4] != SIG_LOCAL then BadHeader
    else
      var start := m.local + 30 + Un(b[m.local + 26..m.local + 28]) + Un(b[m.local + 28..m.local + 30]);
      if start + m.csize > |b| then PastEnd
      else
        var z := b[start..start + m.csize];
        if m.how == 0 then (if m.csize > most then TooBig else Data(z))
        else if m.how != 8 then BadMethod
        else
          match inflate(z)
          case None => Corrupt
          case Some(d) => if |d| > most then TooBig else Data(d)
  }

  function Unzip(inflate: Inflate, b: seq<byte>, most: nat): Unzipped {
    if |b| < END_SIZE then Truncated
    else
      match FindEnd(b, |b| - END_SIZE)
      case None => NoEnd
      case Some(e) =>
        match FindMember(b, Un(b[e + 16..e + 20]), Un(b[e + 10..e + 12]))
        case None => NoMember
        case Some(m) => Extract(inflate, b, m, most)
  }

  predicate EndAt(b: seq<byte>, i: nat) { i + END_SIZE <= |b| && b[i..i + 4] == SIG_END }

  /** Of the places a reader looks at, the last end record: every place from the end of the file back to
      one byte further than the longest comment could push it. */
  lemma {:induction false} EndIs(b: seq<byte>, i: nat)
    requires i + END_SIZE <= |b|
    ensures var e := FindEnd(b, i);
      && (e.Some? ==> e.value <= i && EndAt(b, e.value) && forall j :: e.value < j <= i ==> !EndAt(b, j))
      && (e.Some? && e.value < i ==> |b| - e.value <= END_SIZE + COMMENT_MAX + 1)
      && (e.None? ==> forall j :: 0 <= j <= i && |b| - j <= END_SIZE + COMMENT_MAX + 1 ==> !EndAt(b, j))
    decreases i
  {
    if b[i..i + 4] != SIG_END && !(|b| - i > END_SIZE + COMMENT_MAX || i == 0) { EndIs(b, i - 1); }
  }

  /** The k-th entry of a directory, as long as every one before it makes sense. */
  function Entry(b: seq<byte>, at: nat, k: nat): Option<nat> {
    if k == 0 then Some(at)
    else
      match Entry(b, at, k - 1)
      case None => None
      case Some(p) => if EntryFits(b, p) then Some(NextEntry(b, p)) else None
  }

  predicate WantedAt(b: seq<byte>, at: nat, k: nat) {
    var p := Entry(b, at, k);
    p.Some? && EntryFits(b, p.value) && Wanted(NameAt(b, p.value))
  }

  lemma {:induction false} EntryNext(b: seq<byte>, at: nat, k: nat)
    requires EntryFits(b, at)
    ensures Entry(b, at, k + 1) == Entry(b, NextEntry(b, at), k)
  {
    hide EntryFits, NextEntry;
    if k > 0 { EntryNext(b, at, k - 1); }
  }

  lemma WantedNext(b: seq<byte>, at: nat, k: nat)
    requires EntryFits(b, at)
    ensures WantedAt(b, at, k + 1) <==> WantedAt(b, NextEntry(b, at), k)
  {
    hide EntryFits, NextEntry, Wanted, NameAt;
    EntryNext(b, at, k);
  }

  /** The member found is the first wanted one of the directory, whatever stands before it; there is none
      exactly when no entry that can be reached is wanted. */
  lemma {:induction false} MemberIs(b: seq<byte>, at: nat, count: nat) returns (k: nat)
    ensures k <= count && forall j :: 0 <= j < k ==> !WantedAt(b, at, j)
    ensures k < count ==> WantedAt(b, at, k) && FindMember(b, at, count) == Some(MemberAt(b, Entry(b, at, k).value))
    ensures k == count ==> FindMember(b, at, count) == None
    decreases count
  {
    hide EntryFits, NextEntry, Wanted, NameAt, MemberAt, Un;
    if count == 0 {
      k := 0;
    } else if !EntryFits(b, at) {
      k := count;
      forall j | 0 <= j < count
        ensures !WantedAt(b, at, j)
      {
        NoneAfter(b, at, j);
      }
    } else if Wanted(NameAt(b, at)) {
      k := 0;
    } else {
      k := MemberIs(b, NextEntry(b, at), count - 1);
      forall j | 0 <= j <= k
        ensures j > 0 ==> WantedAt(b, at, j) == WantedAt(b, NextEntry(b, at), j - 1)
      {
        if j > 0 { WantedNext(b, at, j - 1); }
      }
      k := k + 1;
      EntryNext(b, at, k - 1);
      assert WantedAt(b, at, k) <==> WantedAt(b, NextEntry(b, at), k - 1) by { WantedNext(b, at, k - 1); }
    }
  }

  lemma {:induction false} NoneAfter(b: seq<byte>, at: nat, j: nat)
    requires !EntryFits(b, at)
    ensures !WantedAt(b, at, j) && (j > 0 ==> Entry(b, at, j).None?)
  {
    hide EntryFits, Wanted, NameAt;
    if j > 0 { NoneAfter(b, at, j - 1); }
  }

  /** Where the data of a member begins, behind its own header, name and extra field. */
  function DataAt(b: seq<byte>, m: Member): Option<nat> {
    if m.local + 30 > |b| || b[m.local..m.local + 4] != SIG_LOCAL then None
    else Some(m.local + 30 + Un(b[m.local + 26..m.local + 28]) + Un(b[m.local + 28..m.local + 30]))
  }

  /** A member comes out exactly when its own header stands where the directory says, its bytes lie in the
      file, and it is within the cap both as announced and as it is: stored as it stands, deflated as it
      inflates, and in no other way. */
  lemma ExtractIs(inflate: Inflate, b: seq<byte>, m: Member, most: nat, d: seq<byte>)
    ensures Extract(inflate, b, m, most) == Data(d) <==>
      var at := DataAt(b, m);
      && m.usize <= most && |d| <= most && at.Some? && at.value + m.csize <= |b|
      && var z := b[at.value..at.value + m.csize];
      (m.how == 0 && d == z) || (m.how == 8 && inflate(z) == Some(d))
  {
    hide Un;
  }

  method ScanEnd(b: seq<byte>) returns (e: Option<nat>)
    requires |b| >= END_SIZE
    ensures e == FindEnd(b, |b| - END_SIZE)
  {
    var i := |b| - END_SIZE;
    while true
      invariant 0 <= i <= |b| - END_SIZE && FindEnd(b, i) == FindEnd(b, |b| - END_SIZE)
      decreases i
    {
      if b[i..i + 4] == SIG_END { return Some(i); }
      if |b| - i > END_SIZE + COMMENT_MAX || i == 0 { return None; }
      i := i - 1;
    }
  }

  method ScanMembers(b: seq<byte>, at: nat, count: nat) returns (m: Option<Member>)
    ensures m == FindMember(b, at, count)
  {
    var p, i := at, 0;
    while i < count
      invariant i <= count && 0 <= p && FindMember(b, p, count - i) == FindMember(b, at, count)
    {
      if !EntryFits(b, p) { return None; }
      if Wanted(NameAt(b, p)) { return Some(MemberAt(b, p)); }
      p := NextEntry(b, p);
      i := i + 1;
    }
    return None;
  }

  method UnzipWorld(inflate: Inflate, b: seq<byte>, most: nat) returns (r: Unzipped)
    ensures r == Unzip(inflate, b, most)
  {
    hide FindEnd, FindMember, Extract;
    if |b| < END_SIZE { return Truncated; }
    var e := ScanEnd(b);
    if e.None? { return NoEnd; }
    var m := ScanMembers(b, Un(b[e.value + 16..e.value + 20]), Un(b[e.value + 10..e.value + 12]));
    if m.None? { return NoMember; }
    return Extract(inflate, b, m.value, most);
  }

  // --- out and in again -----------------------------------------------------------------------------

  lemma LocalFields(crc: nat, csize: nat, usize: nat, namelen: nat)
    ensures var h := LocalHeader(crc, csize, usize, namelen);
      h[..4] == SIG_LOCAL && h[26..28] == Le(namelen, 2) && h[28..30] == Le(0, 2)
  {
    hide Le;
  }

  lemma CentralFields(crc: nat, csize: nat, usize: nat, namelen: nat, local: nat)
    ensures var h := CentralHeader(crc, csize, usize, namelen, local);
      && h[..4] == SIG_CENTRAL && h[10..12] == Le(8, 2) && h[20..24] == Le(csize, 4) && h[24..28] == Le(usize, 4)
      && h[28..30] == Le(namelen, 2) && h[42..46] == Le(local, 4)
  {
    SizesFields(crc, csize, usize);
    PlaceFields(namelen, local);
    hide Le, CentralSizes, CentralPlace;
    var a, b := CentralSizes(crc, csize, usize), CentralPlace(namelen, local);
    Front(a, b, 0, 4);
    Front(a, b, 10, 12);
    Front(a, b, 20, 24);
    Front(a, b, 24, 28);
    Back(a, b, 0, 2);
    Back(a, b, 14, 18);
  }

  lemma SizesFields(crc: nat, csize: nat, usize: nat)
    ensures var h := CentralSizes(crc, csize, usize);
      h[0..4] == SIG_CENTRAL && h[10..12] == Le(8, 2) && h[20..24] == Le(csize, 4) && h[24..28] == Le(usize, 4)
  {
    hide Le;
  }

  lemma PlaceFields(namelen: nat, local: nat)
    ensures var h := CentralPlace(namelen, local); h[0..2] == Le(namelen, 2) && h[14..18] == Le(local, 4)
  {
    hide Le;
  }

  lemma Front(a: seq<byte>, b: seq<byte>, i: nat, j: nat)
    requires i <= j <= |a|
    ensures (a + b)[i..j] == a[i..j]
  {
  }

  lemma Back(a: seq<byte>, b: seq<byte>, i: nat, j: nat)
    requires i <= j <= |b|
    ensures (a + b)[|a| + i..|a| + j] == b[i..j]
  {
  }

  lemma EndFields(size: nat, off: nat)
    ensures var h := EndRecord(size, off);
      h[..4] == SIG_END && h[10..12] == Le(1, 2) && h[16..20] == Le(off, 4)
  {
    hide Le;
  }

  /** A piece of a longer string, and a field of that piece. */
  lemma Piece(a: seq<byte>, b: seq<byte>, c: seq<byte>, i: nat, j: nat)
    requires i <= j <= |b|
    ensures |a| + j <= |a + b + c| && (a + b + c)[|a| + i..|a| + j] == b[i..j]
  {
  }

  /** Everything the sizes of the container's fields can hold. */
  predicate Holds(crc: Checksum, deflate: Transform, name: seq<byte>, data: seq<byte>) {
    && |name| < 0x1_0000 && |data| < U32 && |deflate(data)| < U32
    && 30 + |name| + |deflate(data)| < U32
  }

  lemma EndFound(head: seq<byte>, dir: seq<byte>)
    requires |head| < U32
    ensures var z := head + dir + EndRecord(|dir|, |head|);
      var e := |head| + |dir|;
      && |z| == e + END_SIZE && FindEnd(z, e) == Some(e)
      && Un(z[e + 16..e + 20]) == |head| && Un(z[e + 10..e + 12]) == 1
  {
    var end := EndRecord(|dir|, |head|);
    var z := head + dir + end;
    Spans();
    UnLe(|head|, 4);
    UnLe(1, 2);
    EndFields(|dir|, |head|);
    hide Un, Le, EndRecord;
    Piece(head + dir, end, [], 0, 4);
    Piece(head + dir, end, [], 16, 20);
    Piece(head + dir, end, [], 10, 12);
    assert head + dir + end + [] == z;
  }

  lemma MemberFound(head: seq<byte>, name: seq<byte>, end: seq<byte>, crc: nat, csize: nat, usize: nat)
    requires |name| < 0x1_0000 && csize < U32 && usize < U32 && Wanted(name)
    ensures var z := head + (CentralHeader(crc, csize, usize, |name|, 0) + name) + end;
      FindMember(z, |head|, 1) == Some(Member(8, csize, usize, 0))
  {
    var z := head + (CentralHeader(crc, csize, usize, |name|, 0) + name) + end;
    EntryIs(head, name, end, crc, csize, usize);
    hide EntryFits, MemberAt, NameAt, Wanted, CentralHeader;
    assert FindMember(z, |head|, 1) == Some(MemberAt(z, |head|));
  }

  lemma EntryIs(head: seq<byte>, name: seq<byte>, end: seq<byte>, crc: nat, csize: nat, usize: nat)
    requires |name| < 0x1_0000 && csize < U32 && usize < U32
    ensures var z := head + (CentralHeader(crc, csize, usize, |name|, 0) + name) + end;
      EntryFits(z, |head|) && NameAt(z, |head|) == name && MemberAt(z, |head|) == Member(8, csize, usize, 0)
  {
    var c := CentralHeader(crc, csize, usize, |name|, 0);
    Spans();
    UnLe(8, 2);
    UnLe(csize, 4);
    UnLe(usize, 4);
    UnLe(|name|, 2);
    UnLe(0, 4);
    CentralFields(crc, csize, usize, |name|, 0);
    hide Un, Le, CentralHeader;
    CentralPiece(head, c, name, end, 0, 4);
    CentralPiece(head, c, name, end, 10, 12);
    CentralPiece(head, c, name, end, 20, 24);
    CentralPiece(head, c, name, end, 24, 28);
    CentralPiece(head, c, name, end, 28, 30);
    CentralPiece(head, c, name, end, 42, 46);
    NamePiece(head, c, name, end);
  }

  lemma NamePiece(head: seq<byte>, c: seq<byte>, name: seq<byte>, end: seq<byte>)
    requires |c| == 46
    ensures var z := head + (c + name) + end;
      |head| + 46 + |name| <= |z| && z[|head| + 46..|head| + 46 + |name|] == name
  {
    Piece(head, c + name, end, 46, 46 + |name|);
    assert (c + name)[46..46 + |name|] == name;
  }

  /** The directory of a container is found, and names its one member. */
  lemma DirectoryFound(crc: Checksum, deflate: Transform, name: seq<byte>, data: seq<byte>)
    requires Holds(crc, deflate, name, data) && Wanted(name)
    ensures var z := ZipSingle(crc, deflate, name, data);
      && |z| >= END_SIZE && FindEnd(z, |z| - END_SIZE) == Some(|z| - END_SIZE)
      && FindMember(z, Un(z[|z| - END_SIZE + 16..|z| - END_SIZE + 20]), Un(z[|z| - END_SIZE + 10..|z| - END_SIZE + 12]))
           == Some(Member(8, |deflate(data)|, |data|, 0))
  {
    hide Un, LocalHeader, CentralHeader, EndRecord, Wanted, FindEnd, FindMember;
    var comp := deflate(data);
    var head := LocalHeader(crc(data), |comp|, |data|, |name|) + name + comp;
    var dir := CentralHeader(crc(data), |comp|, |data|, |name|, 0) + name;
    EndFound(head, dir);
    MemberFound(head, name, EndRecord(|dir|, |head|), crc(data), |comp|, |data|);
  }

  /** The member's data is where its own header says. */
  lemma MemberData(crc: Checksum, deflate: Transform, name: seq<byte>, data: seq<byte>)
    requires |name| < 0x1_0000
    ensures var z, comp := ZipSingle(crc, deflate, name, data), deflate(data);
      && 30 + |name| + |comp| <= |z| && z[0..4] == SIG_LOCAL && z[..4] == SIG_LOCAL
      && Un(z[26..28]) == |name| && Un(z[28..30]) == 0 && z[30 + |name|..30 + |name| + |comp|] == comp
  {
    hide Un, LocalHeader, CentralHeader, EndRecord;
    var comp := deflate(data);
    var local := LocalHeader(crc(data), |comp|, |data|, |name|);
    var dir := CentralHeader(crc(data), |comp|, |data|, |name|, 0) + name;
    var end := EndRecord(|dir|, |local + name + comp|);
    DataFound(local, name, comp, dir + end, crc(data), |data|);
    Regroup(local + name + comp, dir, end);
  }

  /** What was zipped under a world file's name is what is unzipped, as long as it is within the cap. */
  lemma ZipRoundTrip(crc: Checksum, deflate: Transform, inflate: Inflate, name: seq<byte>, data: seq<byte>, most: nat)
    requires Holds(crc, deflate, name, data) && Wanted(name) && |data| <= most
    requires inflate(deflate(data)) == Some(data)
    ensures IsZip(ZipSingle(crc, deflate, name, data))
    ensures Unzip(inflate, ZipSingle(crc, deflate, name, data), most) == Data(data)
  {
    hide ZipSingle, Un, Extract, Wanted, FindEnd, FindMember;
    DirectoryFound(crc, deflate, name, data);
    MemberData(crc, deflate, name, data);
    ExtractFound(inflate, ZipSingle(crc, deflate, name, data), |name|, deflate(data), data, most);
  }

  lemma ExtractFound(inflate: Inflate, z: seq<byte>, namelen: nat, comp: seq<byte>, data: seq<byte>, most: nat)
    requires 30 + namelen + |comp| <= |z| && z[0..4] == SIG_LOCAL
    requires Un(z[26..28]) == namelen && Un(z[28..30]) == 0 && z[30 + namelen..30 + namelen + |comp|] == comp
    requires |data| <= most && inflate(comp) == Some(data)
    ensures Extract(inflate, z, Member(8, |comp|, |data|, 0), most) == Data(data)
  {
    hide Un;
  }

  lemma CentralPiece(head: seq<byte>, c: seq<byte>, name: seq<byte>, end: seq<byte>, i: nat, j: nat)
    requires i <= j <= |c|
    ensures var z := head + (c + name) + end; |head| + j <= |z| && z[|head| + i..|head| + j] == c[i..j]
  {
    Piece(head, c + name, end, i, j);
  }

  lemma DataFound(local: seq<byte>, name: seq<byte>, comp: seq<byte>, rest: seq<byte>, crc: nat, usize: nat)
    requires local == LocalHeader(crc, |comp|, usize, |name|) && |name| < 0x1_0000
    ensures var z := local + name + comp + rest;
      && 30 <= |z| && z[0..4] == SIG_LOCAL && Un(z[26..28]) == |name| && Un(z[28..30]) == 0
      && 30 + |name| + |comp| <= |z| && z[30 + |name|..30 + |name| + |comp|] == comp
      && z[..4] == SIG_LOCAL
  {
    var z := local + name + comp + rest;
    Spans();
    UnLe(|name|, 2);
    UnLe(0, 2);
    LocalFields(crc, |comp|, usize, |name|);
    hide Un, Le, LocalHeader;
    Front(local, name, 0, 4);
    Front(local, name, 26, 28);
    Front(local, name, 28, 30);
    Front(local + name, comp, 0, 4);
    Front(local + name, comp, 26, 28);
    Front(local + name, comp, 28, 30);
    Front(local + name + comp, rest, 0, 4);
    Front(local + name + comp, rest, 26, 28);
    Front(local + name + comp, rest, 28, 30);
    Piece(local + name, comp, rest, 0, |comp|);
  }
}
