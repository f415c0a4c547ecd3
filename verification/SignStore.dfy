/**
 Signs: their lines in the sidecar file, the one sign of each block face, and what an edit takes away.
 */
module SignStore {
  import opened Voxels
  import opened Decimal
  import opened TextLines

  const TEXT_MAX := 256
  const MAX_SIGNS := 20000

  datatype Sign = Sign(x: int, y: int, z: int, a: int, b: int, c: int, text: string) {
    function At(): Pos { Pos(x, y, z) }

    /** A sign a line can hold: in the world, 32-bit fields, clean text. */
    predicate Valid() {
      && InWorld(At()) && FitsInt(a) && FitsInt(b) && FitsInt(c)
      && |text| <= TEXT_MAX && forall i :: 0 <= i < |text| ==> Printable(text[i])
    }
  }

  predicate FitsInt(v: int) { -0x8000_0000 <= v < 0x8000_0000 }

  // --- text -----------------------------------------------------------------------------------------

  predicate Printable(c: char) { c >= ' ' && c as int != 0x7F }

  /** Control characters dropped, and no more than most characters kept. */
  function Sanitize(s: string, most: nat): (r: string)
    ensures |r| <= most && forall i :: 0 <= i < |r| ==> Printable(r[i])
  {
    if s == "" || most == 0 then ""
    else if Printable(s[0]) then [s[0]] + Sanitize(s[1..], most - 1)
    else Sanitize(s[1..], most)
  }

  lemma {:induction false} SanitizeClean(s: string, most: nat)
    requires |s| <= most && forall i :: 0 <= i < |s| ==> Printable(s[i])
    ensures Sanitize(s, most) == s
  {
    if s != "" { SanitizeClean(s[1..], most - 1); }
  }

  function Printables(s: string): string {
    if s == "" then "" else (if Printable(s[0]) then [s[0]] else "") + Printables(s[1..])
  }

  /** What is kept of a text: its first printable characters, however many others lie between. */
  lemma {:induction false} SanitizeIs(s: string, most: nat)
    ensures Sanitize(s, most) == if |Printables(s)| <= most then Printables(s) else Printables(s)[..most]
  {
    if s != "" && most > 0 { SanitizeIs(s[1..], if Printable(s[0]) then most - 1 else most); }
  }

  method SanitizeText(s: string, most: nat) returns (r: string)
    ensures r == Sanitize(s, most)
  {
    r := "";
    var i := 0;
    while i < |s| && |r| < most
      invariant i <= |s| && |r| <= most && Sanitize(s, most) == r + Sanitize(s[i..], most - |r|)
    {
      assert s[i..][1..] == s[i + 1..];
      if Printable(s[i]) { r := r + [s[i]]; }
      i := i + 1;
    }
  }

  // --- a line ---------------------------------------------------------------------------------------

  /** The first n whole-number fields of a line, and the text after them. */
  function Fields(s: string, n: nat): Option<(seq<int>, string)> {
    if n == 0 then Some(([], s))
    else
      var k := Find(s, ':');
      if k == |s| then None
      else
        match ReadInt(s[..k])
        case None => None
        case Some(v) =>
          if !FitsInt(v) then None
          else
            match Fields(s[k + 1..], n - 1)
            case None => None
            case Some(r) => Some(([v] + r.0, r.1))
  }

  datatype Parsed = Skip | Bad | Good(sign: Sign)

  function TrimEnd(s: string): (r: string)
    ensures r <= s
  {
    if s != "" && (s[|s| - 1] == '\r' || s[|s| - 1] == '\n') then TrimEnd(s[..|s| - 1]) else s
  }

  /** One line of the sidecar: text last, so a colon in it is text. */
  function ParseLine(line: string): Parsed {
    var s := TrimStart(TrimEnd(line));
    if s == "" || s[0] == '#' then Skip
    else
      match Fields(s, 6)
      case None => Bad
      case Some(r) => MakeSign(r.0, r.1)
  }

  function MakeSign(f: seq<int>, text: string): Parsed {
    if |f| != 6 || !InWorld(Pos(f[0], f[1], f[2])) then Bad
    else Good(Sign(f[0], f[1], f[2], f[3], f[4], f[5], Sanitize(text, TEXT_MAX)))
  }

  lemma {:induction false} FieldsFit(s: string, n: nat)
    ensures var r := Fields(s, n); r.Some? ==> |r.value.0| == n && forall i :: 0 <= i < n ==> FitsInt(r.value.0[i])
  {
    if n > 0 {
      var k := Find(s, ':');
      if k < |s| { FieldsFit(s[k + 1..], n - 1); }
    }
  }

  /** Whatever a line says, a sign read from it is one a line can hold. */
  lemma ParsedValid(line: string)
    ensures ParseLine(line).Good? ==> ParseLine(line).sign.Valid()
  {
    hide Fields, Sanitize;
    FieldsFit(TrimStart(TrimEnd(line)), 6);
  }

  function Prefixed(vs: seq<int>, r: Option<(seq<int>, string)>): Option<(seq<int>, string)> {
    match r case None => None case Some(q) => Some((vs + q.0, q.1))
  }

  lemma FieldsNext(s: string, n: nat, vs: seq<int>)
    requires n > 0
    ensures var k := Find(s, ':');
      && (k == |s| || ReadInt(s[..k]).None? || !FitsInt(ReadInt(s[..k]).value) ==> Fields(s, n) == None)
      && (k < |s| && ReadInt(s[..k]).Some? && FitsInt(ReadInt(s[..k]).value) ==>
            Prefixed(vs, Fields(s, n)) == Prefixed(vs + [ReadInt(s[..k]).value], Fields(s[k + 1..], n - 1)))
  {
    hide ReadInt, Find;
    var k := Find(s, ':');
    if k < |s| && ReadInt(s[..k]).Some? && FitsInt(ReadInt(s[..k]).value) {
      var r := Fields(s[k + 1..], n - 1);
      if r.Some? { assert vs + ([ReadInt(s[..k]).value] + r.value.0) == vs + [ReadInt(s[..k]).value] + r.value.0; }
    }
  }

  /** Parse one line, a field at a time. */
  method ParseSignLine(line: string) returns (p: Parsed)
    ensures p == ParseLine(line)
  {
    hide ReadInt, Fields;
    var end := |line|;
    assert line[..end] == line;
    while end > 0 && (line[end - 1] == '\r' || line[end - 1] == '\n')
      invariant end <= |line| && TrimEnd(line[..end]) == TrimEnd(line)
    {
      assert line[..end][..end - 1] == line[..end - 1];
      end := end - 1;
    }
    var s := line[..end];
    assert s[0..] == s;
    var begin := 0;
    while begin < end && (s[begin] == ' ' || s[begin] == '\t')
      invariant begin <= end && TrimStart(s[begin..]) == TrimStart(s)
    {
      assert s[begin..][1..] == s[begin + 1..];
      begin := begin + 1;
    }
    if begin >= end || s[begin] == '#' { return Skip; }
    var rest := s[begin..];
    var vs := [];
    NoPrefix(Fields(rest, 6));
    for i := 0 to 6
      invariant |vs| == i && Prefixed(vs, Fields(rest, 6 - i)) == Fields(s[begin..], 6)
    {
      FieldsNext(rest, 6 - i, vs);
      var colon := Find(rest, ':');
      if colon == |rest| { return Bad; }
      var v := ReadInt(rest[..colon]);
      if v.None? || !FitsInt(v.value) { return Bad; }
      vs := vs + [v.value];
      rest := rest[colon + 1..];
    }
    assert Fields(rest, 0) == Some(([], rest)) by { NoFields(rest); }
    assert vs + [] == vs;
    var text := SanitizeText(rest, TEXT_MAX);
    if !InWorld(Pos(vs[0], vs[1], vs[2])) { return Bad; }
    return Good(Sign(vs[0], vs[1], vs[2], vs[3], vs[4], vs[5], text));
  }

  lemma NoPrefix(r: Option<(seq<int>, string)>)
    ensures Prefixed([], r) == r
  {
    if r.Some? { assert [] + r.value.0 == r.value.0; }
  }

  lemma NoFields(s: string)
    ensures Fields(s, 0) == Some(([], s))
  {
  }

  /** A number, then a colon. */
  function Field(v: int): string { ShowInt(v) + ":" }

  /** Numbers, each with its colon, then the text. */
  function Join(vs: seq<int>, text: string): string {
    if vs == [] then text else Field(vs[0]) + Join(vs[1..], text)
  }

  /** One sidecar line, without its line end. */
  function LineText(s: Sign): string { Join([s.x, s.y, s.z, s.a, s.b, s.c], Sanitize(s.text, TEXT_MAX)) }

  function FormatLine(s: Sign): string { LineText(s) + "\n" }

  lemma FieldsStep(v: int, rest: string, n: nat, vs: seq<int>, text: string)
    requires FitsInt(v) && n > 0 && Fields(rest, n - 1) == Some((vs, text))
    ensures Fields(Field(v) + rest, n) == Some(([v] + vs, text))
  {
    var s := Field(v) + rest;
    ShowIntChars(v);
    ReadShowInt(v);
    assert s == ShowInt(v) + (":" + rest);
    FindAfter(ShowInt(v), rest);
    assert s[..|ShowInt(v)|] == ShowInt(v) && s[|ShowInt(v)| + 1..] == rest;
    hide ShowInt, ReadInt;
  }

  lemma {:induction false} JoinFields(vs: seq<int>, text: string)
    requires forall i :: 0 <= i < |vs| ==> FitsInt(vs[i])
    ensures Fields(Join(vs, text), |vs|) == Some((vs, text))
  {
    hide Field, FitsInt, Fields;
    if vs == [] {
      NoFields(text);
    } else {
      JoinFields(vs[1..], text);
      FieldsStep(vs[0], Join(vs[1..], text), |vs|, vs[1..], text);
      assert [vs[0]] + vs[1..] == vs;
    }
  }

  /** What is written for a sign reads back as that sign. */
  lemma LineRoundTrip(s: Sign)
    requires s.Valid()
    ensures ParseLine(LineText(s)) == Good(s)
    ensures forall i :: 0 <= i < |LineText(s)| ==> LineText(s)[i] != '\n'
  {
    LineClean(s);
    SanitizeClean(s.text, TEXT_MAX);
    JoinFields([s.x, s.y, s.z, s.a, s.b, s.c], s.text);
    hide Join, Sanitize, TrimEnd, TrimStart, Fields;
  }

  /** A sign with the text its line can hold. */
  function Cleaned(s: Sign): Sign { s.(text := Sanitize(s.text, TEXT_MAX)) }

  /** Whatever the text of a sign, its line is one line and reads back as that sign, its text cleaned. */
  lemma AnyLineReads(s: Sign)
    requires InWorld(s.At()) && FitsInt(s.a) && FitsInt(s.b) && FitsInt(s.c)
    ensures Cleaned(s).Valid() && LineText(s) == LineText(Cleaned(s))
    ensures ParseLine(LineText(s)) == Good(Cleaned(s))
    ensures forall i :: 0 <= i < |LineText(s)| ==> LineText(s)[i] != '\n'
  {
    SanitizeClean(Sanitize(s.text, TEXT_MAX), TEXT_MAX);
    hide Join, ParseLine;
    LineRoundTrip(Cleaned(s));
  }

  /** Neither end of a line is trimmed, and no line end is inside it. */
  lemma LineClean(s: Sign)
    requires s.Valid()
    ensures var l := LineText(s);
      && l != "" && l[0] != '#' && TrimStart(TrimEnd(l)) == l
      && forall i :: 0 <= i < |l| ==> l[i] != '\n'
  {
    var l := LineText(s);
    ShowIntChars(s.x);
    SanitizeClean(s.text, TEXT_MAX);
    JoinChars([s.x, s.y, s.z, s.a, s.b, s.c], s.text);
    assert l[0] == ShowInt(s.x)[0];
    hide Join, Sanitize, ShowInt;
    assert l[|l| - 1] != '\r';
  }

  lemma {:induction false} JoinChars(vs: seq<int>, text: string)
    requires forall i :: 0 <= i < |text| ==> text[i] != '\n' && text[i] != '\r'
    ensures forall i :: 0 <= i < |Join(vs, text)| ==> Join(vs, text)[i] != '\n' && Join(vs, text)[i] != '\r'
  {
    if vs != [] {
      FieldChars(vs[0]);
      JoinChars(vs[1..], text);
      hide Field;
    }
  }

  lemma FieldChars(v: int)
    ensures forall i :: 0 <= i < |Field(v)| ==> Field(v)[i] != '\n' && Field(v)[i] != '\r'
  {
    ShowIntChars(v);
    hide ShowInt;
  }

  // --- the file -------------------------------------------------------------------------------------

  /** The signs of a file, line by line, up to the most a world may have. */
  function LoadFrom(file: string, have: seq<Sign>): seq<Sign>
    decreases |file|
  {
    if file == "" then have
    else
      var k := Find(file, '\n');
      var line := file[..k];
      var rest := if k < |file| then file[k + 1..] else "";
      var p := ParseLine(line);
      LoadFrom(rest, if p.Good? && |have| < MAX_SIGNS then have + [p.sign] else have)
  }

  function Load(file: string): seq<Sign> { LoadFrom(file, []) }

  function FormatFile(signs: seq<Sign>): string {
    if signs == [] then "" else FormatFile(signs[..|signs| - 1]) + FormatLine(signs[|signs| - 1])
  }

  predicate AllValid(signs: seq<Sign>) { forall i :: 0 <= i < |signs| ==> signs[i].Valid() }

  lemma {:induction false} LoadValid(file: string, have: seq<Sign>)
    requires AllValid(have) && |have| <= MAX_SIGNS
    ensures AllValid(LoadFrom(file, have)) && |LoadFrom(file, have)| <= MAX_SIGNS
    decreases |file|
  {
    hide ParseLine, Sign.Valid;
    if file != "" {
      var k := Find(file, '\n');
      ParsedValid(file[..k]);
      var p := ParseLine(file[..k]);
      LoadValid(if k < |file| then file[k + 1..] else "", if p.Good? && |have| < MAX_SIGNS then have + [p.sign] else have);
    }
  }

  lemma {:induction false} LoadStep(s: Sign, rest: string, have: seq<Sign>)
    requires s.Valid() && |have| < MAX_SIGNS
    ensures LoadFrom(FormatLine(s) + rest, have) == LoadFrom(rest, have + [s])
  {
    LineRoundTrip(s);
    hide ParseLine, LineText, Sign.Valid, Find, LoadFrom;
    LineEnds(LineText(s), rest);
    LoadLine(LineText(s) + "\n" + rest, have);
  }

  lemma LoadLine(file: string, have: seq<Sign>)
    requires Find(file, '\n') < |file|
    ensures var k := Find(file, '\n');
      var p := ParseLine(file[..k]);
      LoadFrom(file, have) == LoadFrom(file[k + 1..], if p.Good? && |have| < MAX_SIGNS then have + [p.sign] else have)
  {
    hide ParseLine, Find;
  }

  /** A file is read line by line: what stands behind whole lines is read after them. */
  lemma {:induction false} LoadAppend(a: string, b: string, have: seq<Sign>)
    requires WholeLines(a)
    ensures LoadFrom(a + b, have) == LoadFrom(b, LoadFrom(a, have))
    decreases |a|
  {
    hide ParseLine, LoadFrom, WholeLines, Find;
    if a == "" {
      assert a + b == b;
      LoadNothing(have);
    } else {
      var k := Find(a, '\n');
      FirstLine(a, b);
      LoadLine(a, have);
      LoadLine(a + b, have);
      var p := ParseLine(a[..k]);
      LoadAppend(a[k + 1..], b, if p.Good? && |have| < MAX_SIGNS then have + [p.sign] else have);
    }
  }

  lemma LoadNothing(have: seq<Sign>)
    ensures LoadFrom("", have) == have
  {
  }

  /** A line in a file that holds no sign, blank, a comment or malformed, is passed over: the signs
      before and after it load as if it were not there. */
  lemma OtherLinePassed(a: string, line: string, b: string)
    requires WholeLines(a) && OneLine(line) && !ParseLine(line).Good?
    ensures Load(a + (line + "\n" + b)) == Load(a + b)
  {
    hide ParseLine, LoadFrom, WholeLines, Find;
    LoadAppend(a, line + "\n" + b, []);
    LoadAppend(a, b, []);
    LineEnds(line, b);
    LoadLine(line + "\n" + b, LoadFrom(a, []));
  }

  lemma {:induction false} LoadFormatted(signs: seq<Sign>, rest: string, have: seq<Sign>)
    requires AllValid(signs) && |have| + |signs| <= MAX_SIGNS
    ensures LoadFrom(FormatFile(signs) + rest, have) == LoadFrom(rest, have + signs)
    decreases |signs|
  {
    hide LoadFrom, FormatLine;
    if signs == [] {
      assert "" + rest == rest && have + signs == have;
    } else {
      var init, last := signs[..|signs| - 1], signs[|signs| - 1];
      assert FormatFile(signs) + rest == FormatFile(init) + (FormatLine(last) + rest);
      LoadFormatted(init, FormatLine(last) + rest, have);
      LoadStep(last, rest, have + init);
      assert have + init + [last] == have + signs;
    }
  }

  /** Loading what was saved gives the list back. */
  lemma FileRoundTrip(signs: seq<Sign>)
    requires AllValid(signs) && |signs| <= MAX_SIGNS
    ensures Load(FormatFile(signs)) == signs
  {
    LoadFormatted(signs, "", []);
    assert FormatFile(signs) + "" == FormatFile(signs) && [] + signs == signs;
  }

  // --- the list ---------------------------------------------------------------------------------------

  /** Same block, same face. */
  predicate SameSlot(p: Sign, q: Sign) { p.At() == q.At() && p.a == q.a }

  type Test = Sign -> bool

  function Kept(signs: seq<Sign>, drop: Test): seq<Sign> {
    if signs == [] then []
    else Kept(signs[..|signs| - 1], drop) + if drop(signs[|signs| - 1]) then [] else [signs[|signs| - 1]]
  }

  function Dropped(signs: seq<Sign>, drop: Test): seq<Sign> {
    if signs == [] then []
    else Dropped(signs[..|signs| - 1], drop) + if drop(signs[|signs| - 1]) then [signs[|signs| - 1]] else []
  }

  lemma {:induction false} KeptIs(signs: seq<Sign>, drop: Test)
    ensures forall s :: s in Kept(signs, drop) <==> s in signs && !drop(s)
    ensures forall s :: s in Dropped(signs, drop) <==> s in signs && drop(s)
    ensures |Kept(signs, drop)| + |Dropped(signs, drop)| == |signs|
    ensures Dropped(signs, drop) == [] ==> Kept(signs, drop) == signs
    ensures (forall s :: s in signs ==> !drop(s)) ==> Dropped(signs, drop) == []
  {
    if signs != [] {
      assert signs == signs[..|signs| - 1] + [signs[|signs| - 1]];
      KeptIs(signs[..|signs| - 1], drop);
    }
  }

  /** Drop every sign that fails, keeping the others in order. */
  method Prune(signs: seq<Sign>, drop: Test) returns (kept: seq<Sign>, removed: seq<Sign>)
    ensures kept == Kept(signs, drop) && removed == Dropped(signs, drop)
  {
    kept, removed := [], [];
    for i := 0 to |signs|
      invariant kept == Kept(signs[..i], drop) && removed == Dropped(signs[..i], drop)
    {
      assert signs[..i + 1][..i] == signs[..i];
      if drop(signs[i]) { removed := removed + [signs[i]]; } else { kept := kept + [signs[i]]; }
    }
    assert signs[..|signs|] == signs;
  }

  datatype Upsert = Added | Replaced | Unchanged | Full

  function InSlot(s: Sign): Test { (q: Sign) => SameSlot(q, s) }

  /** Where the first sign of this slot stands, or the length of the list. */
  function FirstIn(signs: seq<Sign>, s: Sign): (i: nat)
    ensures i <= |signs| && (i < |signs| ==> SameSlot(signs[i], s))
    ensures forall k :: 0 <= k < i ==> !SameSlot(signs[k], s)
  {
    if signs == [] || SameSlot(signs[0], s) then 0 else 1 + FirstIn(signs[1..], s)
  }

  lemma {:induction false} FirstOnly(signs: seq<Sign>, s: Sign, i: nat)
    requires i <= |signs| && (i < |signs| ==> SameSlot(signs[i], s))
    requires forall k :: 0 <= k < i ==> !SameSlot(signs[k], s)
    ensures i == FirstIn(signs, s)
  {
  }

  /** The list with s in its slot: in place of the first one there, the others of the slot going, or at
      the end of a list that has room. */
  function Upserted(signs: seq<Sign>, s: Sign, most: nat): seq<Sign> {
    var i := FirstIn(signs, s);
    if i == |signs| then if |signs| >= most then signs else signs + [s]
    else signs[..i] + [s] + Kept(signs[i + 1..], InSlot(s))
  }

  /** Put a sign in its slot. */
  method UpsertSign(signs: seq<Sign>, s: Sign, most: nat) returns (r: seq<Sign>, u: Upsert)
    ensures r == Upserted(signs, s, most) && (u == Unchanged || u == Full <==> r == signs)
    ensures u == Full <==> |signs| >= most && forall q :: q in signs ==> !SameSlot(q, s)
    ensures u == Added <==> |signs| < most && forall q :: q in signs ==> !SameSlot(q, s)
    ensures u == Added ==> r == signs + [s]
    ensures u != Full && u != Added ==> var i := FirstIn(signs, s); i < |r| && i < |signs| && r[..i] == signs[..i] && r[i] == s
    ensures u != Full ==> s in r && Kept(r, InSlot(s)) == Kept(signs, InSlot(s)) && Dropped(r, InSlot(s)) == [s]
    ensures |r| <= |signs| || u == Added
    ensures forall q :: q in r ==> q == s || q in signs
  {
    var i := 0;
    while i < |signs| && !SameSlot(signs[i], s)
      invariant i <= |signs| && forall k :: 0 <= k < i ==> !SameSlot(signs[k], s)
    {
      i := i + 1;
    }
    FirstOnly(signs, s, i);
    if i == |signs| {
      if |signs| >= most { return signs, Full; }
      SlotAppend(signs, s);
      return signs + [s], Added;
    }
    var rest, gone := Prune(signs[i + 1..], InSlot(s));
    r := signs[..i] + [s] + rest;
    SlotReplace(signs, s, i);
    var changed := signs[i] != s || gone != [];
    u := if changed then Replaced else Unchanged;
  }

  lemma {:induction false} KeptAppend(a: seq<Sign>, b: seq<Sign>, drop: Test)
    ensures Kept(a + b, drop) == Kept(a, drop) + Kept(b, drop)
    ensures Dropped(a + b, drop) == Dropped(a, drop) + Dropped(b, drop)
    decreases |b|
  {
    if b == [] {
      assert a + b == a;
    } else {
      assert (a + b)[..|a + b| - 1] == a + b[..|b| - 1];
      KeptAppend(a, b[..|b| - 1], drop);
    }
  }

  lemma SlotAppend(signs: seq<Sign>, s: Sign)
    requires forall q :: q in signs ==> !SameSlot(q, s)
    ensures Kept(signs + [s], InSlot(s)) == Kept(signs, InSlot(s)) && Dropped(signs + [s], InSlot(s)) == [s]
  {
    KeptAppend(signs, [s], InSlot(s));
    NoneDropped(signs, InSlot(s));
    OneKept(s, InSlot(s));
  }

  lemma OneKept(s: Sign, drop: Test)
    ensures drop(s) ==> Kept([s], drop) == [] && Dropped([s], drop) == [s]
  {
    assert [s][..0] == [] && [] + [s] == [s];
  }

  lemma SlotReplace(signs: seq<Sign>, s: Sign, i: nat)
    requires i < |signs| && SameSlot(signs[i], s) && forall k :: 0 <= k < i ==> !SameSlot(signs[k], s)
    ensures var test := InSlot(s);
      var r := signs[..i] + [s] + Kept(signs[i + 1..], test);
      && Kept(r, test) == Kept(signs, test) && Dropped(r, test) == [s]
      && (signs[i] == s && Dropped(signs[i + 1..], test) == [] ==> r == signs)
      && (signs[i] != s ==> r[i] != signs[i])
      && (Dropped(signs[i + 1..], test) != [] ==> |r| < |signs|)
      && |r| <= |signs| && (forall q :: q in r ==> q == s || q in signs)
  {
    var test := InSlot(s);
    var head, tail := signs[..i], signs[i + 1..];
    var rest := Kept(tail, test);
    assert signs == head + [signs[i]] + tail;
    KeptIs(tail, test);
    NoneDropped(rest, test);
    NoneDropped(head, test);
    OneKept(s, test);
    OneKept(signs[i], test);
    hide Kept, Dropped, SameSlot;
    KeptAppend(head + [signs[i]], tail, test);
    KeptAppend(head, [signs[i]], test);
    KeptAppend(head + [s], rest, test);
    KeptAppend(head, [s], test);
  }

  lemma NoneDropped(signs: seq<Sign>, drop: Test)
    requires forall q :: q in signs ==> !drop(q)
    ensures Kept(signs, drop) == signs && Dropped(signs, drop) == []
  {
    KeptIs(signs, drop);
  }
}
