/**
 The file of login records: hex fields, one line a name, and what a save reads back as.
 */
module AuthFile {
  import opened Decimal
  import opened SnapzCodec
  import opened TextLines
  import opened Usernames
  import opened Voxels

  const SCHEME := "pbkdf2-sha256"
  const ITERS_MIN := 1000
  const ITERS_MAX := 10000000
  const HASH_BYTES := 32
  const COUNT_END := 0x1_0000_0000_0000_0000

  datatype Login = Login(iterations: nat, salt: seq<byte>, hash: seq<byte>) {
    predicate Valid() { ITERS_MIN <= iterations <= ITERS_MAX && 8 <= |salt| <= 64 && |hash| == HASH_BYTES }
  }

  // --- hex --------------------------------------------------------------------------------------------

  function HexDigit(v: int): (c: char)
    requires 0 <= v < 16
    ensures Nibble(c) == v && c != ':' && c > ' '
  {
    if v < 10 then '0' + v as char else 'a' + (v - 10) as char
  }

  function Nibble(c: char): (v: int)
    ensures -1 <= v < 16
  {
    if '0' <= c <= '9' then c as int - '0' as int
    else if 'a' <= c <= 'f' then c as int - 'a' as int + 10
    else if 'A' <= c <= 'F' then c as int - 'A' as int + 10
    else -1
  }

  function HexByte(b: byte): string { [HexDigit(b as int / 16), HexDigit(b as int % 16)] }

  function Hex(b: seq<byte>): (s: string)
    ensures |s| == 2 * |b|
  {
    if b == [] then "" else HexByte(b[0]) + Hex(b[1..])
  }

  function Unhex(s: string): Option<seq<byte>> {
    if s == "" then Some([])
    else if |s| == 1 then None
    else
      var hi, lo := Nibble(s[0]), Nibble(s[1]);
      if hi < 0 || lo < 0 then None
      else
        match Unhex(s[2..])
        case None => None
        case Some(b) => Some([(hi * 16 + lo) as byte] + b)
  }

  /** Bytes read so far in front of what is left. */
  function Front(b: seq<byte>, r: Option<seq<byte>>): Option<seq<byte>> { if r.Some? then Some(b + r.value) else None }

  lemma {:induction false} HexRoundTrip(b: seq<byte>)
    ensures Unhex(Hex(b)) == Some(b)
  {
    if b != [] {
      HexRoundTrip(b[1..]);
      var s := Hex(b);
      assert s[2..] == Hex(b[1..]) && [b[0]] + b[1..] == b;
    }
  }

  lemma {:induction false} HexChars(b: seq<byte>)
    ensures forall i :: 0 <= i < |Hex(b)| ==> Hex(b)[i] != ':' && Hex(b)[i] > ' '
  {
    if b != [] { HexChars(b[1..]); }
  }

  predicate HexChar(c: char) { '0' <= c <= '9' || 'a' <= c <= 'f' || 'A' <= c <= 'F' }

  lemma NibbleDigit(c: char)
    ensures HexChar(c) <==> Nibble(c) >= 0
    ensures HexChar(c) ==> HexDigit(Nibble(c)) == Lower(c)
  {
  }

  /** Text is hex exactly when it has an even number of hex digits, in either case; written again, what
      was read is that text in lower case. */
  lemma {:induction false} UnhexDecides(s: string)
    ensures Unhex(s).Some? <==> |s| % 2 == 0 && forall i :: 0 <= i < |s| ==> HexChar(s[i])
    ensures Unhex(s).Some? ==> Hex(Unhex(s).value) == Lowered(s)
    decreases |s|
  {
    if |s| > 1 {
      NibbleDigit(s[0]);
      NibbleDigit(s[1]);
      UnhexDecides(s[2..]);
      assert forall i :: 2 <= i < |s| ==> s[i] == s[2..][i - 2];
      hide HexChar, Nibble;
      if Unhex(s).Some? { HexPair(s); }
    } else if |s| == 1 {
      assert Unhex(s) == None;
    }
  }

  lemma HexPair(s: string)
    requires |s| > 1 && Unhex(s).Some? && Nibble(s[0]) >= 0 && Nibble(s[1]) >= 0 && Unhex(s[2..]).Some?
    requires HexDigit(Nibble(s[0])) == Lower(s[0]) && HexDigit(Nibble(s[1])) == Lower(s[1])
    requires Hex(Unhex(s[2..]).value) == Lowered(s[2..])
    ensures Hex(Unhex(s).value) == Lowered(s)
  {
    hide Nibble, Lower;
    var v, b := Nibble(s[0]) * 16 + Nibble(s[1]), Unhex(s).value;
    assert b[0] as int == v && b[1..] == Unhex(s[2..]).value;
    assert v / 16 == Nibble(s[0]) && v % 16 == Nibble(s[1]);
    assert Lowered(s) == [Lower(s[0]), Lower(s[1])] + Lowered(s[2..]);
  }

  /** Text of an odd length is not hex. */
  lemma {:induction false} UnhexEven(s: string)
    ensures Unhex(s).Some? ==> |s| == 2 * |Unhex(s).value|
    decreases |s|
  {
    if |s| > 1 { UnhexEven(s[2..]); }
  }

  lemma {:induction false} HexNext(b: seq<byte>, i: nat, s: string)
    requires i < |b|
    ensures s + Hex(b[i..]) == s + [HexDigit(b[i] as int / 16)] + [HexDigit(b[i] as int % 16)] + Hex(b[i + 1..])
  {
    assert b[i..][1..] == b[i + 1..] && Hex(b[i..]) == HexByte(b[i]) + Hex(b[i + 1..]);
    hide Hex, HexDigit;
  }

  method ToHex(b: seq<byte>) returns (s: string)
    ensures s == Hex(b)
  {
    s := "";
    assert b[0..] == b;
    for i := 0 to |b|
      invariant s + Hex(b[i..]) == Hex(b)
    {
      HexNext(b, i, s);
      s := s + [HexDigit(b[i] as int / 16)] + [HexDigit(b[i] as int % 16)];
    }
  }

  method FromHex(s: string) returns (r: Option<seq<byte>>)
    ensures r == Unhex(s)
  {
    UnhexEven(s);
    if |s| % 2 == 1 { return None; }
    var b: seq<byte> := [];
    assert s[0..] == s;
    NoFront(Unhex(s));
    for n := 0 to |s| / 2
      invariant Front(b, Unhex(s[2 * n..])) == Unhex(s)
    {
      var i := 2 * n;
      var hi, lo := Nibble(s[i]), Nibble(s[i + 1]);
      HexStep(b, s, i);
      if hi < 0 || lo < 0 { return None; }
      b := b + [(hi * 16 + lo) as byte];
    }
    assert s[|s|..] == "" && b + [] == b;
    return Some(b);
  }

  lemma NoFront(r: Option<seq<byte>>)
    ensures Front([], r) == r
  {
    if r.Some? { assert [] + r.value == r.value; }
  }

  lemma {:induction false} HexStep(b: seq<byte>, s: string, i: nat)
    requires i + 2 <= |s|
    ensures var hi, lo := Nibble(s[i]), Nibble(s[i + 1]);
      Front(b, Unhex(s[i..])) == if hi < 0 || lo < 0 then None else Front(b + [(hi * 16 + lo) as byte], Unhex(s[i + 2..]))
  {
    assert s[i..][2..] == s[i + 2..];
    var r := Unhex(s[i + 2..]);
    var hi, lo := Nibble(s[i]), Nibble(s[i + 1]);
    if r.Some? && hi >= 0 && lo >= 0 {
      var v := (hi * 16 + lo) as byte;
      assert b + ([v] + r.value) == b + [v] + r.value;
    }
  }

  // --- a line -----------------------------------------------------------------------------------------

  /** The fields between colons. */
  function Split(s: string): (f: seq<string>)
    ensures |f| > 0
    decreases |s|
  {
    var k := Find(s, ':');
    if k == |s| then [s] else [s[..k]] + Split(s[k + 1..])
  }

  /** A token as the number parser sees it: up to its first NUL. */
  function Seen(tok: string): string { tok[..Find(tok, 0 as char)] }

  /** The iteration count of a token: a 64-bit number, a minus past leading space wrapping round. */
  function CountOf(tok: string): Option<int> {
    if tok == "" || tok[0] == '-' then None
    else if Seen(tok) == "" then Some(0)
    else
      match ReadInt(Seen(tok))
      case None => None
      case Some(v) => if -COUNT_END < v < COUNT_END then Some(if v < 0 then v + COUNT_END else v) else None
  }

  datatype Reason = WrongCount | BadName | BadScheme | NotNumber | OutOfRange | BadSalt | BadHash | Duplicate

  datatype Parsed = Good(name: string, login: Login) | Bad(why: Reason)

  function ParseLine(line: string): Parsed { MakeLogin(Split(line)) }

  function MakeLogin(f: seq<string>): Parsed {
    if |f| != 5 then Bad(WrongCount)
    else if Validate(f[0]) != Allowed then Bad(BadName)
    else if f[1] != SCHEME then Bad(BadScheme)
    else if CountOf(f[2]).None? then Bad(NotNumber)
    else if !(ITERS_MIN <= CountOf(f[2]).value <= ITERS_MAX) then Bad(OutOfRange)
    else
      var salt, hash := Unhex(f[3]), Unhex(f[4]);
      if salt.None? || !(8 <= |salt.value| <= 64) then Bad(BadSalt)
      else if hash.None? || |hash.value| != HASH_BYTES then Bad(BadHash)
      else Good(f[0], Login(CountOf(f[2]).value, salt.value, hash.value))
  }

  method SplitLine(line: string) returns (f: seq<string>)
    ensures f == Split(line)
  {
    f := [];
    var start := 0;
    hide Split;
    assert line[0..] == line && [] + Split(line) == Split(line);
    for i := 0 to |line|
      invariant start <= i && f + Split(line[start..]) == Split(line)
      invariant forall j :: start <= j < i ==> line[j] != ':'
    {
      if line[i] == ':' {
        SplitAt(line, start, i, f);
        f := f + [line[start..i]];
        start := i + 1;
      }
    }
    SplitEnd(line, start);
    f := f + [line[start..]];
  }

  method ParseAuthLine(line: string) returns (p: Parsed)
    ensures p == ParseLine(line)
  {
    hide Validate, Split, CountOf, Unhex;
    var f := SplitLine(line);
    if |f| != 5 { return Bad(WrongCount); }
    var v := ValidateUsername(f[0]);
    if v != Allowed { return Bad(BadName); }
    if f[1] != SCHEME { return Bad(BadScheme); }
    var n := CountOf(f[2]);
    if n.None? { return Bad(NotNumber); }
    if n.value < ITERS_MIN || n.value > ITERS_MAX { return Bad(OutOfRange); }
    var salt := FromHex(f[3]);
    if salt.None? || |salt.value| < 8 || |salt.value| > 64 { return Bad(BadSalt); }
    var hash := FromHex(f[4]);
    if hash.None? || |hash.value| != HASH_BYTES { return Bad(BadHash); }
    return Good(f[0], Login(n.value, salt.value, hash.value));
  }

  lemma {:induction false} SplitAt(line: string, start: nat, i: nat, f: seq<string>)
    requires start <= i < |line| && line[i] == ':' && forall j :: start <= j < i ==> line[j] != ':'
    ensures f + Split(line[start..]) == f + [line[start..i]] + Split(line[i + 1..])
  {
    var s, k := line[start..], i - start;
    ColonIn(line, start, i);
    assert Split(s) == [s[..k]] + Split(s[k + 1..]);
    hide Split, Find;
    Joined(f, line[start..i], Split(line[i + 1..]));
  }

  lemma {:induction false} ColonIn(line: string, start: nat, i: nat)
    requires start <= i < |line| && line[i] == ':' && forall j :: start <= j < i ==> line[j] != ':'
    ensures var s, k := line[start..], i - start;
      Find(s, ':') == k && s[..k] == line[start..i] && s[k + 1..] == line[i + 1..]
  {
    hide Find;
    FindIs(line[start..], ':', i - start);
  }

  lemma Joined(f: seq<string>, a: string, rest: seq<string>)
    ensures f + ([a] + rest) == f + [a] + rest
  {
  }

  lemma {:induction false} SplitEnd(line: string, start: nat)
    requires start <= |line| && forall j :: start <= j < |line| ==> line[j] != ':'
    ensures Split(line[start..]) == [line[start..]]
  {
    var s := line[start..];
    var k := Find(s, ':');
    assert forall j :: 0 <= j < |s| ==> s[j] == line[start + j];
  }

  function LineText(name: string, r: Login): string {
    name + (":" + (SCHEME + (":" + (Show(r.iterations) + (":" + (Hex(r.salt) + (":" + Hex(r.hash))))))))
  }

  lemma {:induction false} SplitField(a: string, rest: string)
    requires NoColon(a)
    ensures Split(a + (":" + rest)) == [a] + Split(rest)
  {
    FindAfter(a, rest);
    var s := a + (":" + rest);
    assert s[..|a|] == a && s[|a| + 1..] == rest;
  }

  lemma {:induction false} LastField(a: string)
    requires NoColon(a)
    ensures Split(a) == [a]
  {
    assert a[0..] == a;
    SplitEnd(a, 0);
  }

  lemma {:induction false} AllowedChars(name: string)
    requires Validate(name) == Allowed
    ensures name != "" && name[0] > ' ' && forall i :: 0 <= i < |name| ==> GoodChar(name[i])
  {
  }

  lemma {:induction false} ShowChars(n: nat)
    ensures forall i :: 0 <= i < |Show(n)| ==> IsDigit(Show(n)[i])
  {
    var s := Show(n);
    assert forall i :: 0 <= i < |s| ==> s[i] in s;
    hide Show;
  }

  lemma {:induction false} CountShows(n: nat)
    requires n <= ITERS_MAX
    ensures CountOf(Show(n)) == Some(n)
  {
    var s := Show(n);
    ShowChars(n);
    ReadShowInt(n);
    assert ShowInt(n) == s;
    hide Show, ReadInt;
    assert Find(s, 0 as char) == |s| by { NoNul(s); }
    assert s[..|s|] == s;
  }

  lemma {:induction false} NoNul(s: string)
    requires forall i :: 0 <= i < |s| ==> IsDigit(s[i])
    ensures Find(s, 0 as char) == |s|
  {
    var k := Find(s, 0 as char);
  }

  predicate NoColon(s: string) { forall i :: 0 <= i < |s| ==> s[i] != ':' }

  lemma {:induction false} LineSplits(name: string, r: Login)
    requires Validate(name) == Allowed
    ensures Split(LineText(name, r)) == [name, SCHEME, Show(r.iterations), Hex(r.salt), Hex(r.hash)]
  {
    AllowedChars(name);
    HexChars(r.salt);
    HexChars(r.hash);
    ShowChars(r.iterations);
    assert NoColon(name) && NoColon(SCHEME) && NoColon(Show(r.iterations)) && NoColon(Hex(r.salt)) && NoColon(Hex(r.hash));
    hide Validate, Hex, Show, Split, NoColon;
    FiveParts(name, SCHEME, Show(r.iterations), Hex(r.salt), Hex(r.hash));
  }

  lemma {:induction false} FiveParts(a: string, b: string, c: string, d: string, e: string)
    requires NoColon(a) && NoColon(b) && NoColon(c) && NoColon(d) && NoColon(e)
    ensures Split(a + (":" + (b + (":" + (c + (":" + (d + (":" + e)))))))) == [a, b, c, d, e]
  {
    hide Split, NoColon;
    LastField(e);
    SplitField(d, e);
    SplitField(c, d + (":" + e));
    SplitField(b, c + (":" + (d + (":" + e))));
    SplitField(a, b + (":" + (c + (":" + (d + (":" + e))))));
  }

  /** What is written for a name reads back as that name's record. */
  lemma {:induction false} LineRoundTrip(name: string, r: Login)
    requires Validate(name) == Allowed && r.Valid()
    ensures ParseLine(LineText(name, r)) == Good(name, r)
  {
    LineSplits(name, r);
    HexRoundTrip(r.salt);
    HexRoundTrip(r.hash);
    CountShows(r.iterations);
    hide Validate, Hex, Unhex, Show, CountOf, Split, LineText;
  }

  // --- the file ---------------------------------------------------------------------------------------

  function EndTrimmed(s: string): (r: string)
    ensures r <= s
  {
    if s != "" && s[|s| - 1] in "\r \t" then EndTrimmed(s[..|s| - 1]) else s
  }

  function Trim(line: string): string { TrimStart(EndTrimmed(line)) }

  type Entries = map<string, Login>

  datatype Loaded = Names(entries: Entries) | Refused(why: Reason, line: nat)

  /** What the lines of a file add to the names read so far: all of them, or the first line at fault. */
  function LoadFrom(file: string, n: nat, have: Entries): Loaded
    decreases |file|
  {
    if file == "" then Names(have)
    else
      var k := Find(file, '\n');
      var rest := if k < |file| then file[k + 1..] else "";
      var line := Trim(file[..k]);
      if line == "" || line[0] == '#' then LoadFrom(rest, n + 1, have)
      else
        match ParseLine(line)
        case Bad(why) => Refused(why, n + 1)
        case Good(name, login) => if name in have then Refused(Duplicate, n + 1) else LoadFrom(rest, n + 1, have[name := login])
  }

  function Load(file: string): Loaded { LoadFrom(file, 0, map[]) }

  lemma {:induction false} LoadedAll(n: nat, have: Entries)
    ensures LoadFrom("", n, have) == Names(have)
  {
  }

  lemma {:induction false} LoadNext(file: string, at: nat, n: nat, have: Entries)
    requires at < |file|
    ensures var left := file[at..];
      var k := Find(left, '\n');
      var next := if k < |left| then at + k + 1 else |file|;
      var t := Trim(left[..k]);
      && at < next <= |file|
      && LoadFrom(left, n, have) ==
        if t == "" || t[0] == '#' then LoadFrom(file[next..], n + 1, have)
        else match ParseLine(t)
          case Bad(why) => Refused(why, n + 1)
          case Good(name, login) => if name in have then Refused(Duplicate, n + 1) else LoadFrom(file[next..], n + 1, have[name := login])
  {
    hide Trim, ParseLine, Find;
    var left := file[at..];
    var k := Find(left, '\n');
    assert k < |left| ==> left[k + 1..] == file[at + k + 1..];
  }

  function Lines(order: seq<string>, entries: Entries): string
    requires forall n :: n in order ==> n in entries
  {
    if order == [] then ""
    else LineText(order[0], entries[order[0]]) + "\n" + Lines(order[1..], entries)
  }

  /** The comment lines a file begins with. */
  function Head(comments: seq<string>): string { if comments == [] then "" else comments[0] + "\n" + Head(comments[1..]) }

  lemma {:induction false} HeadStep(comments: seq<string>, i: nat, file: string)
    requires i < |comments|
    ensures file + Head(comments[i..]) == file + (comments[i] + "\n") + Head(comments[i + 1..])
  {
    assert comments[i..][1..] == comments[i + 1..];
  }

  predicate IsComment(l: string) { l != "" && l[0] == '#' && forall i :: 0 <= i < |l| ==> l[i] != '\n' }

  predicate AllComments(comments: seq<string>) { forall l :: l in comments ==> IsComment(l) }

  /** The whole file, its names in some order. */
  function Serialized(comments: seq<string>, order: seq<string>, entries: Entries): string
    requires forall n :: n in order ==> n in entries
  {
    Head(comments) + Lines(order, entries)
  }

  lemma {:induction false} LinesStep(order: seq<string>, entries: Entries, i: nat, file: string)
    requires i < |order| && forall n :: n in order ==> n in entries
    ensures file + Lines(order[i..], entries) == file + (LineText(order[i], entries[order[i]]) + "\n") + Lines(order[i + 1..], entries)
  {
    assert order[i..][1..] == order[i + 1..];
    hide LineText;
  }

  /** Each name once. */
  ghost predicate Orders(order: seq<string>, entries: Entries) {
    && (forall n :: n in order <==> n in entries)
    && (forall i, j :: 0 <= i < j < |order| ==> order[i] != order[j])
  }

  predicate AllGood(entries: Entries) { forall n :: n in entries ==> Validate(n) == Allowed && entries[n].Valid() }

  predicate Hashed(name: string) { name != "" && name[0] == '#' }

  /** The names a save keeps. */
  function Unhashed(entries: Entries): Entries { map n | n in entries && !Hashed(n) :: entries[n] }

  /** The same, of the names listed. */
  function Readable(order: seq<string>, entries: Entries): Entries
  {
    map n | n in order && n in entries && !Hashed(n) :: entries[n]
  }

  lemma {:induction false} TrimKeeps(l: string)
    requires l != "" && l[0] > ' ' && l[|l| - 1] > ' '
    ensures Trim(l) == l
  {
  }

  lemma {:induction false} TrimComment(l: string)
    requires l != "" && l[0] == '#'
    ensures var t := EndTrimmed(l); t != "" && t[0] == '#' && Trim(l) == t
  {
    var t := EndTrimmed(l);
    TrimFront(l);
  }

  lemma {:induction false} TrimFront(l: string)
    requires l != "" && l[0] == '#'
    ensures EndTrimmed(l) != ""
    decreases |l|
  {
    if |l| > 1 && l[|l| - 1] in "\r \t" { TrimFront(l[..|l| - 1]); }
  }

  lemma {:induction false} OneLine(l: string, rest: string, n: nat, have: Entries)
    requires forall i :: 0 <= i < |l| ==> l[i] != '\n'
    ensures var t := Trim(l);
      LoadFrom(l + "\n" + rest, n, have) ==
        if t == "" || t[0] == '#' then LoadFrom(rest, n + 1, have)
        else match ParseLine(t)
          case Bad(why) => Refused(why, n + 1)
          case Good(name, login) => if name in have then Refused(Duplicate, n + 1) else LoadFrom(rest, n + 1, have[name := login])
  {
    LineEnds(l, rest);
    hide Trim, ParseLine, Find;
  }

  /** A name's line: read back, or taken for a comment. */
  lemma {:induction false} NameLine(name: string, r: Login, rest: string, n: nat, have: Entries)
    requires Validate(name) == Allowed && r.Valid() && name !in have
    ensures LoadFrom(LineText(name, r) + "\n" + rest, n, have) == LoadFrom(rest, n + 1, if Hashed(name) then have else have[name := r])
  {
    var l := LineText(name, r);
    LineChars(name, r);
    LineRoundTrip(name, r);
    OneLine(l, rest, n, have);
    hide LineText, ParseLine, Validate, LoadFrom, Trim;
    if Hashed(name) { TrimComment(l); } else { TrimKeeps(l); }
  }

  lemma {:induction false} LineChars(name: string, r: Login)
    requires Validate(name) == Allowed && r.Valid()
    ensures var l := LineText(name, r);
      && l != "" && l[0] == name[0] && name[0] > ' ' && l[|l| - 1] > ' '
      && forall i :: 0 <= i < |l| ==> l[i] != '\n'
  {
    AllowedChars(name);
    HexChars(r.salt);
    HexChars(r.hash);
    ShowChars(r.iterations);
    var tail := Show(r.iterations) + (":" + (Hex(r.salt) + (":" + Hex(r.hash))));
    var l := LineText(name, r);
    hide Validate, Hex, Show;
    assert l[|l| - 1] == Hex(r.hash)[|Hex(r.hash)| - 1];
  }

  lemma {:induction false} LoadLines(order: seq<string>, entries: Entries, n: nat, have: Entries, rest: string)
    requires (forall x :: x in order ==> x in entries && x !in have) && AllGood(entries)
    requires forall i, j :: 0 <= i < j < |order| ==> order[i] != order[j]
    ensures LoadFrom(Lines(order, entries) + rest, n, have) == LoadFrom(rest, n + |order|, have + Readable(order, entries))
    decreases |order|
  {
    hide LoadFrom, LineText, Validate, Hashed, Login.Valid, Readable, Lines;
    if order == [] {
      NoLines(entries, have);
      assert Lines([], entries) + rest == rest;
    } else {
      var name, others := order[0], order[1..];
      assert name in order && forall x :: x in others ==> x in order && x != name;
      var tail := Lines(others, entries) + rest;
      FirstLine(order, entries, rest);
      NameLine(name, entries[name], tail, n, have);
      var more := if Hashed(name) then have else have[name := entries[name]];
      LoadLines(others, entries, n + 1, more, rest);
      ReadableStep(order, entries, have);
    }
  }

  lemma {:induction false} NoLines(entries: Entries, have: Entries)
    ensures Lines([], entries) == "" && have + Readable([], entries) == have
  {
  }

  lemma {:induction false} FirstLine(order: seq<string>, entries: Entries, rest: string)
    requires order != [] && forall n :: n in order ==> n in entries
    ensures Lines(order, entries) + rest == LineText(order[0], entries[order[0]]) + "\n" + (Lines(order[1..], entries) + rest)
  {
    hide LineText;
  }

  lemma {:induction false} ReadableStep(order: seq<string>, entries: Entries, have: Entries)
    requires order != [] && (forall x :: x in order ==> x in entries) && order[0] !in order[1..]
    ensures var name := order[0];
      have + Readable(order, entries) == (if Hashed(name) then have else have[name := entries[name]]) + Readable(order[1..], entries)
  {
    assert order == [order[0]] + order[1..];
    hide Hashed;
  }

  lemma {:induction false} HeadSkips(comments: seq<string>, rest: string, n: nat, have: Entries)
    requires AllComments(comments)
    ensures LoadFrom(Head(comments) + rest, n, have) == LoadFrom(rest, n + |comments|, have)
    decreases |comments|
  {
    hide LoadFrom, IsComment;
    if comments == [] {
      assert "" + rest == rest;
    } else {
      var l, more := comments[0], Head(comments[1..]);
      assert l in comments && Head(comments) + rest == l + "\n" + (more + rest);
      CommentLine(l, more + rest, n, have);
      HeadSkips(comments[1..], rest, n + 1, have);
    }
  }

  lemma {:induction false} CommentLine(l: string, rest: string, n: nat, have: Entries)
    requires IsComment(l)
    ensures LoadFrom(l + "\n" + rest, n, have) == LoadFrom(rest, n + 1, have)
  {
    OneLine(l, rest, n, have);
    TrimComment(l);
    hide LoadFrom, ParseLine;
  }

  /** A save reads back as exactly the names that do not begin with a hash sign: those read as comments.
      So nothing is lost exactly when no name begins with one. */
  lemma {:induction false} FileRoundTrip(comments: seq<string>, order: seq<string>, entries: Entries)
    requires Orders(order, entries) && AllGood(entries) && AllComments(comments)
    ensures Load(Serialized(comments, order, entries)) == Names(Unhashed(entries))
    ensures Load(Serialized(comments, order, entries)) == Names(entries) <==> forall n :: n in entries ==> !Hashed(n)
  {
    hide LoadFrom, Lines, Head, Hashed, Readable, Unhashed, AllGood, AllComments;
    HeadSkips(comments, Lines(order, entries), 0, map[]);
    LoadLines(order, entries, |comments|, map[], "");
    assert Lines(order, entries) + "" == Lines(order, entries);
    LoadedAll(|comments| + |order|, map[] + Readable(order, entries));
    KeptNames(order, entries);
  }

  /** Every record a file loads as is one a save can write: an allowed name, and a count, a salt and a
      hash of the sizes asked for. */
  lemma {:induction false} LoadGood(file: string, n: nat, have: Entries)
    requires AllGood(have)
    ensures var r := LoadFrom(file, n, have); r.Names? ==> AllGood(r.entries)
    decreases |file|
  {
    if file != "" {
      var k := Find(file, '\n');
      var line := Trim(file[..k]);
      ParsedGood(line);
      hide Trim, ParseLine, Validate, Login.Valid;
      var rest := if k < |file| then file[k + 1..] else "";
      if line == "" || line[0] == '#' {
        LoadGood(rest, n + 1, have);
      } else if ParseLine(line).Good? {
        LoadGood(rest, n + 1, have[ParseLine(line).name := ParseLine(line).login]);
      }
    }
  }

  lemma {:induction false} ParsedGood(line: string)
    ensures var p := ParseLine(line); p.Good? ==> Validate(p.name) == Allowed && p.login.Valid()
  {
    hide Split, Validate, CountOf, Unhex;
  }

  /** The first line at fault after any file that was saved refuses the whole of it, under its number:
      one that does not parse for its reason, one whose name a line before it had as a duplicate. */
  lemma {:induction false} FaultRefuses(comments: seq<string>, order: seq<string>, entries: Entries, line: string, rest: string)
    requires Orders(order, entries) && AllGood(entries) && AllComments(comments)
    requires (forall i :: 0 <= i < |line| ==> line[i] != '\n') && Trim(line) != "" && Trim(line)[0] != '#'
    ensures var r := Load(Serialized(comments, order, entries) + (line + "\n" + rest)); var p := ParseLine(Trim(line));
      && (p.Bad? ==> r == Refused(p.why, |comments| + |order| + 1))
      && (p.Good? && p.name in Unhashed(entries) ==> r == Refused(Duplicate, |comments| + |order| + 1))
  {
    hide LoadFrom, Lines, Head, Hashed, Readable, Unhashed, AllGood, AllComments, ParseLine, Trim;
    var more := line + "\n" + rest;
    assert Serialized(comments, order, entries) + more == Head(comments) + (Lines(order, entries) + more);
    HeadSkips(comments, Lines(order, entries) + more, 0, map[]);
    LoadLines(order, entries, |comments|, map[], more);
    KeptNames(order, entries);
    OneLine(line, rest, |comments| + |order|, map[] + Readable(order, entries));
  }

  lemma {:induction false} KeptNames(order: seq<string>, entries: Entries)
    requires Orders(order, entries)
    ensures map[] + Readable(order, entries) == Unhashed(entries)
    ensures Unhashed(entries) == entries <==> forall n :: n in entries ==> !Hashed(n)
  {
    hide Hashed;
    var kept := Unhashed(entries);
    if forall n :: n in entries ==> !Hashed(n) { assert kept == entries; }
    if kept == entries { assert forall n :: n in entries ==> n in kept; }
  }

  /** The records held, and how they are loaded and saved. */
  class PinFile {
    var entries: Entries

    constructor ()
      ensures entries == map[]
    {
      entries := map[];
    }

    /** All of a file or nothing: a line at fault leaves the records as they were. */
    method LoadFile(file: string) returns (r: Loaded)
      modifies this
      ensures r == Load(file) && entries == if r.Names? then r.entries else old(entries)
    {
      var built: Entries := map[];
      var n, at := 0, 0;
      hide Trim, ParseLine, LoadFrom, Find;
      assert file[0..] == file;
      while at < |file|
        invariant at <= |file| && LoadFrom(file[at..], n, built) == Load(file) && entries == old(entries)
      {
        var left := file[at..];
        var k := Find(left, '\n');
        var line := TrimLine(left[..k]);
        var next := if k < |left| then at + k + 1 else |file|;
        LoadNext(file, at, n, built);
        if line != "" && line[0] != '#' {
          var p := ParseAuthLine(line);
          if p.Bad? { return Refused(p.why, n + 1); }
          if p.name in built { return Refused(Duplicate, n + 1); }
          built := built[p.name := p.login];
        }
        n, at := n + 1, next;
      }
      LoadedAll(n, built);
      assert file[at..] == "";
      entries := built;
      return Names(built);
    }

    static method TrimLine(line: string) returns (t: string)
      ensures t == Trim(line)
    {
      var e := |line|;
      assert line[..e] == line;
      while e > 0 && line[e - 1] in "\r \t"
        invariant e <= |line| && EndTrimmed(line[..e]) == EndTrimmed(line)
      {
        assert line[..e][..e - 1] == line[..e - 1];
        e := e - 1;
      }
      var s := line[..e];
      assert s[0..] == s;
      var b := 0;
      while b < e && (s[b] == ' ' || s[b] == '\t')
        invariant b <= e && TrimStart(s[b..]) == TrimStart(s)
      {
        assert s[b..][1..] == s[b + 1..];
        b := b + 1;
      }
      t := s[b..];
    }

    method Serialize(comments: seq<string>, order: seq<string>) returns (file: string)
      requires Orders(order, entries)
      ensures file == Serialized(comments, order, entries)
    {
      file := "";
      assert comments[0..] == comments && "" + Head(comments) == Head(comments);
      for i := 0 to |comments|
        invariant file + Head(comments[i..]) == Head(comments)
      {
        HeadStep(comments, i, file);
        file := file + (comments[i] + "\n");
      }
      assert file + "" == file && order[0..] == order;
      for i := 0 to |order|
        invariant file + Lines(order[i..], entries) == Serialized(comments, order, entries)
      {
        var name, r := order[i], entries[order[i]];
        var salt := ToHex(r.salt);
        var hash := ToHex(r.hash);
        var line := name + (":" + (SCHEME + (":" + (Show(r.iterations) + (":" + (salt + (":" + hash)))))));
        LinesStep(order, entries, i, file);
        file := file + (line + "\n");
      }
      assert Lines(order[|order|..], entries) == "" && file + "" == file;
    }
  }
}
