/**
 What each lock-protected section makes of the signs of a running server, and what every run of them
 keeps: the index, the burst, and the sidecar with its saves.
 */
module SignRuns {
  import opened BlockRules
  import opened Voxels
  import opened Decimal
  import opened SignStore
  import opened TextLines

  // --- keys -----------------------------------------------------------------------------------------

  /** The cell of a key. */
  function Unkey(k: int): Pos { Pos(k / 0x100_0000_0000 % 0x100_0000, k % 0x1_0000, k / 0x1_0000 % 0x100_0000) }

  lemma UnkeyKey(p: Pos)
    requires InWorld(p)
    ensures Unkey(Key(p)) == p
  {
    KeyInWorld(p);
  }

  function Blocks(signs: seq<Sign>): set<int> { set s | s in signs :: Key(s.At()) }

  /** The line a client is sent for a sign. */
  function WireLine(s: Sign): string { ServerLine(LineText(s)) + "\n" }

  function ServerLine(l: string): string { "SIGNP:server:" + l }

  function Burst(signs: seq<Sign>): string {
    if signs == [] then "" else Burst(signs[..|signs| - 1]) + WireLine(signs[|signs| - 1])
  }

  /** The sign a client reads in a line from the server. */
  function HeardSign(line: string): Parsed { if "SIGNP:server:" <= line then ParseLine(line[13..]) else Bad }

  /** The sign the server reads in a line from a player. */
  function PlayerSign(line: string): Parsed { if "SIGNP:" <= line then ParseLine(line[6..]) else Bad }

  /** What a client makes of the lines it is sent. */
  function Heard(wire: string): seq<Parsed>
    decreases |wire|
  {
    if wire == "" then []
    else
      var k := Find(wire, '\n');
      [HeardSign(wire[..k])] + Heard(if k < |wire| then wire[k + 1..] else "")
  }

  /** A sign of which a line can hold all but perhaps its text. */
  predicate Placed(s: Sign) { InWorld(s.At()) && FitsInt(s.a) && FitsInt(s.b) && FitsInt(s.c) }

  lemma HeardNothing()
    ensures Heard("") == []
  {
  }

  lemma HeardFirst(a: string)
    requires Find(a, '\n') < |a|
    ensures Heard(a) == [HeardSign(a[..Find(a, '\n')])] + Heard(a[Find(a, '\n') + 1..])
  {
    hide HeardSign, Find;
  }

  lemma {:induction false} HeardAppend(a: string, b: string)
    requires WholeLines(a)
    ensures Heard(a + b) == Heard(a) + Heard(b)
    decreases |a|
  {
    hide HeardSign, WholeLines, Heard, Find;
    if a == "" {
      assert a + b == b;
      HeardNothing();
      assert [] + Heard(b) == Heard(b);
    } else {
      var ab, k := a + b, Find(a, '\n');
      FirstLine(a, b);
      var rest := a[k + 1..];
      HeardFirst(a);
      HeardFirst(ab);
      HeardAppend(rest, b);
      assert Heard(ab) == [HeardSign(a[..k])] + (Heard(rest) + Heard(b));
    }
  }

  lemma HeardLine(l: string)
    requires OneLine(l)
    ensures Heard(l + "\n") == [HeardSign(l)] && WholeLines(l + "\n")
  {
    hide HeardSign, Heard, Find;
    assert l + "\n" == l + "\n" + "";
    LineEnds(l, "");
    HeardFirst(l + "\n");
    HeardNothing();
  }

  lemma ServerLineReads(l: string)
    ensures HeardSign(ServerLine(l)) == ParseLine(l) && (OneLine(l) ==> OneLine(ServerLine(l)))
  {
    hide ParseLine;
    assert ServerLine(l)[13..] == l;
  }

  lemma WireTells(s: Sign)
    requires Placed(s)
    ensures Heard(WireLine(s)) == [Good(Cleaned(s))] && WholeLines(WireLine(s))
  {
    AnyLineReads(s);
    hide LineText, ParseLine, Sign.Valid, Cleaned, ServerLine, HeardSign, Heard;
    ServerLineReads(LineText(s));
    HeardLine(ServerLine(LineText(s)));
  }

  lemma NothingWhole()
    ensures WholeLines("")
  {
  }

  lemma WholeAppend(a: string, b: string)
    requires WholeLines(a) && WholeLines(b)
    ensures WholeLines(a + b)
  {
    if b == "" { assert a + b == a; }
  }

  /** A client hears every sign of the list once, in order, each on a line of its own whatever its text. */
  lemma {:induction false} BurstTells(signs: seq<Sign>)
    requires forall s :: s in signs ==> Placed(s)
    ensures Heard(Burst(signs)) == seq(|signs|, i requires 0 <= i < |signs| => Good(Cleaned(signs[i])))
    ensures WholeLines(Burst(signs))
  {
    hide Heard, WireLine, Cleaned, Placed, WholeLines;
    if signs == [] {
      HeardNothing();
      NothingWhole();
    } else {
      var init, s := signs[..|signs| - 1], signs[|signs| - 1];
      BurstTells(init);
      WireTells(s);
      HeardAppend(Burst(init), WireLine(s));
      WholeAppend(Burst(init), WireLine(s));
    }
  }

  lemma AnyPlacedReads(s: Sign)
    requires Placed(s)
    ensures ParseLine(LineText(s)) == Good(Cleaned(s))
  {
    hide LineText, ParseLine, Cleaned;
    AnyLineReads(s);
  }

  /** A player's line says a sign behind its own prefix, and a line the server sent, sent back, says none. */
  lemma PlayerLineReads(s: Sign)
    requires Placed(s)
    ensures PlayerSign("SIGNP:" + LineText(s)) == Good(Cleaned(s))
    ensures PlayerSign(ServerLine(LineText(s))) == Bad
  {
    hide LineText, Sign.Valid, Cleaned, ParseLine, Placed, Sign.At, FitsInt;
    AnyPlacedReads(s);
    assert ("SIGNP:" + LineText(s))[6..] == LineText(s);
    ServerIsNoNumber(LineText(s));
    assert ServerLine(LineText(s))[6..] == "server" + (":" + LineText(s));
  }

  lemma {:induction false} TrimKeeps(a: string, rest: string)
    requires a != "" && a[|a| - 1] != '\r' && a[|a| - 1] != '\n'
    ensures a <= TrimEnd(a + rest)
  {
    if rest == "" {
      assert a + rest == a;
    } else {
      assert (a + rest)[..|a + rest| - 1] == a + rest[..|rest| - 1];
      TrimKeeps(a, rest[..|rest| - 1]);
    }
  }

  /** The sender's name is no number, whatever follows it. */
  lemma ServerIsNoNumber(rest: string)
    ensures ParseLine("server" + (":" + rest)) == Bad
  {
    var l := "server" + (":" + rest);
    TrimKeeps("server:", rest);
    assert l == "server:" + rest;
    var t := TrimEnd(l);
    hide TrimEnd, ReadInt;
    NameNoNumber();
    FindIs(t, ':', 6);
    assert t[..6] == "server";
  }

  lemma NameNoNumber()
    ensures ReadInt("server") == None
  {
    assert "server"[0] == 's' && !IsDigit('s');
  }

  function OnBlock(p: Pos): Test { (s: Sign) => s.At() == p }

  /** Signs an edit took off a block, for the audit log. */
  datatype Removal = Removal(at: Pos, signs: seq<Sign>)

  function OnAir(cells: Cells): Test { (s: Sign) => s.At() in cells && cells[s.At()].kind == AIR }

  lemma SignInWorld(signs: seq<Sign>, s: Sign)
    requires AllValid(signs) && s in signs
    ensures InWorld(s.At())
  {
  }

  lemma KeptValid(signs: seq<Sign>, drop: Test)
    requires AllValid(signs)
    ensures AllValid(Kept(signs, drop)) && |Kept(signs, drop)| <= |signs|
  {
    hide Sign.Valid;
    KeptIs(signs, drop);
    assert forall i :: 0 <= i < |Kept(signs, drop)| ==> Kept(signs, drop)[i] in Kept(signs, drop);
  }

  /** Taking the signs off a block takes exactly its key out of the index. */
  lemma BlockOf(signs: seq<Sign>, k: int)
    requires AllValid(signs) && k in Blocks(signs)
    ensures forall s :: s in signs ==> (Key(s.At()) == k <==> s.At() == Unkey(k))
    ensures Blocks(Kept(signs, OnBlock(Unkey(k)))) == Blocks(signs) - {k}
  {
    forall s | s in signs
      ensures Key(s.At()) == k <==> s.At() == Unkey(k)
    {
      SignInWorld(signs, s);
      UnkeyKey(s.At());
      var t :| t in signs && Key(t.At()) == k;
      SignInWorld(signs, t);
      UnkeyKey(t.At());
    }
    KeptIs(signs, OnBlock(Unkey(k)));
  }

  // --- the state and its steps --------------------------------------------------------------------------

  /** `saving` is what a save under way will put in the sidecar. */
  datatype State = State(
    cells: Cells, cap: nat, signs: seq<Sign>, index: set<int>, burst: string, stale: bool, dirty: bool,
    removals: seq<Removal>, sidecar: string, saving: Option<string>)

  datatype Event =
    | Put(line: string)
    | TakeOff(at: Pos)
    | Store(pos: Pos, kind: int, color: int)
    | Orphans
    | Request
    | Drain
    | SaveBegin
    | SaveEnd(ok: bool)

  /** A server starts from its sidecar. */
  function Fresh(cells: Cells, cap: nat, sidecar: string): State {
    var signs := Load(sidecar);
    State(cells, cap, signs, Blocks(signs), Burst(signs), false, false, [], sidecar, None)
  }

  /** The list becomes this: unless that is what it was, index and burst follow and the sidecar is due. */
  function Relisted(s: State, signs: seq<Sign>): State {
    if signs == s.signs then s
    else s.(signs := signs, index := Blocks(signs), burst := Burst(signs), stale := false, dirty := true)
  }

  function Refreshed(s: State): State { if s.stale then s.(burst := Burst(s.signs), stale := false) else s }

  /** A block became air: its signs go, the index follows, the burst is only marked stale. */
  function Bared(s: State, k: int): State {
    if k !in s.index then s
    else
      var at := Unkey(k);
      s.(index := s.index - {k}, signs := Kept(s.signs, OnBlock(at)), stale := true, dirty := true,
         removals := s.removals + [Removal(at, Dropped(s.signs, OnBlock(at)))])
  }

  predicate Takes(s: State, p: Pos) { InWorld(p) && (p in s.cells || |s.cells| < s.cap) }

  function Stored(s: State, p: Pos, kind: int, color: int): State {
    if !Takes(s, p) then s
    else
      var t := s.(cells := s.cells[p := StoredBlock(kind, color)]);
      if kind == AIR then Bared(t, Key(p)) else t
  }

  function Next(s: State, e: Event): State {
    match e
    case Put(line) =>
      var p := ParseLine(line);
      if p.Good? then Relisted(s, Upserted(s.signs, p.sign, MAX_SIGNS)) else s
    case TakeOff(at) => Relisted(s, Kept(s.signs, OnBlock(at)))
    case Store(p, kind, color) => Stored(s, p, kind, color)
    case Orphans => Relisted(s, Kept(s.signs, OnAir(s.cells)))
    case Request => Refreshed(s)
    case Drain => Refreshed(s).(removals := [])
    case SaveBegin =>
      if s.saving.Some? || !s.dirty then s else s.(dirty := false, saving := Some(FormatFile(s.signs)))
    case SaveEnd(ok) =>
      if s.saving.None? then s
      else if ok then s.(sidecar := s.saving.value, saving := None)
      else s.(dirty := true, saving := None)
  }

  function After(s: State, es: seq<Event>): State
    decreases |es|
  {
    if es == [] then s else After(Next(s, es[0]), es[1..])
  }

  // --- what every run keeps ------------------------------------------------------------------------------

  /** The index is exactly the blocks that carry signs, and the burst is the list unless marked stale. */
  ghost predicate Indexed(s: State) {
    AllValid(s.signs) && |s.signs| <= MAX_SIGNS && s.index == Blocks(s.signs) && (s.stale || s.burst == Burst(s.signs))
  }

  /** Unless the list is due the sidecar, or the save on its way there, loads as the list. */
  ghost predicate Backed(s: State) {
    !s.dirty ==> Load(if s.saving.Some? then s.saving.value else s.sidecar) == s.signs
  }

  ghost predicate Sound(s: State) { Indexed(s) && Backed(s) }

  lemma MembersValid(signs: seq<Sign>, s: Sign, r: seq<Sign>)
    requires AllValid(signs) && s.Valid() && forall q :: q in r ==> q == s || q in signs
    ensures AllValid(r)
  {
    hide Sign.Valid;
    forall k | 0 <= k < |r|
      ensures r[k].Valid()
    {
      assert r[k] in r;
    }
  }

  lemma UpsertValid(signs: seq<Sign>, s: Sign)
    requires AllValid(signs) && |signs| <= MAX_SIGNS && s.Valid()
    ensures AllValid(Upserted(signs, s, MAX_SIGNS)) && |Upserted(signs, s, MAX_SIGNS)| <= MAX_SIGNS
  {
    hide Sign.Valid, SameSlot, Kept, Dropped, FirstIn;
    var i := FirstIn(signs, s);
    if i < |signs| { SlotReplace(signs, s, i); }
    MembersValid(signs, s, Upserted(signs, s, MAX_SIGNS));
  }

  lemma RelistedSound(s: State, signs: seq<Sign>)
    requires Sound(s) && AllValid(signs) && |signs| <= MAX_SIGNS
    ensures Sound(Relisted(s, signs))
  {
    hide Load, Burst, AllValid, Blocks;
  }

  lemma RelistedSame(s: State, signs: seq<Sign>)
    ensures signs == s.signs ==> Relisted(s, signs) == s
    ensures Relisted(s, signs).signs == signs && (signs != s.signs ==> Relisted(s, signs).dirty)
  {
  }

  lemma BaredSound(s: State, k: int)
    requires Sound(s)
    ensures Sound(Bared(s, k))
  {
    hide Load, Burst, Sign.Valid;
    if k in s.index {
      BlockOf(s.signs, k);
      KeptValid(s.signs, OnBlock(Unkey(k)));
    }
  }

  /** The index names exactly the blocks that lose signs. */
  lemma BaredSigns(s: State, k: int)
    requires Sound(s)
    ensures forall q :: q in Bared(s, k).signs <==> q in s.signs && Key(q.At()) != k
  {
    hide Load, Burst, Sign.Valid;
    if k in s.index {
      BlockOf(s.signs, k);
      KeptIs(s.signs, OnBlock(Unkey(k)));
    }
  }

  /** What the cells hold is not part of it. */
  lemma CellsSound(s: State, cells: Cells)
    requires Sound(s)
    ensures Sound(s.(cells := cells))
  {
  }

  /** Every step keeps the board sound. */
  lemma NextSound(s: State, e: Event)
    requires Sound(s)
    ensures Sound(Next(s, e))
  {
    hide Load, Burst, Blocks, Sign.Valid, ParseLine, Upserted, Kept;
    match e {
      case Put(line) =>
        ParsedValid(line);
        if ParseLine(line).Good? {
          UpsertValid(s.signs, ParseLine(line).sign);
          RelistedSound(s, Upserted(s.signs, ParseLine(line).sign, MAX_SIGNS));
        }
      case TakeOff(at) =>
        KeptValid(s.signs, OnBlock(at));
        RelistedSound(s, Kept(s.signs, OnBlock(at)));
      case Store(p, kind, color) =>
        BaredSound(s.(cells := s.cells[p := StoredBlock(kind, color)]), Key(p));
      case Orphans =>
        KeptValid(s.signs, OnAir(s.cells));
        RelistedSound(s, Kept(s.signs, OnAir(s.cells)));
      case SaveBegin => FileRoundTrip(s.signs);
      case _ =>
    }
  }

  /** The list as it was when the last save that worked began; `last` so far, `doing` for the save under way. */
  function LastSaved(s: State, es: seq<Event>, last: seq<Sign>, doing: seq<Sign>): seq<Sign>
    decreases |es|
  {
    if es == [] then last
    else
      var t := Next(s, es[0]);
      if es[0].SaveBegin? && s.saving.None? && s.dirty then LastSaved(t, es[1..], last, s.signs)
      else if es[0].SaveEnd? && es[0].ok && s.saving.Some? then LastSaved(t, es[1..], doing, doing)
      else LastSaved(t, es[1..], last, doing)
  }

  lemma NextSidecar(s: State, e: Event)
    ensures var t := Next(s, e);
      && t.saving == (if e.SaveBegin? && s.saving.None? && s.dirty then Some(FormatFile(s.signs))
                      else if e.SaveEnd? then None else s.saving)
      && t.sidecar == (if e.SaveEnd? && e.ok && s.saving.Some? then s.saving.value else s.sidecar)
  {
    hide FormatFile, ParseLine, Upserted, Kept, Dropped, Blocks, Burst, Takes;
  }

  lemma {:induction false} RunKeeps(s: State, es: seq<Event>, last: seq<Sign>, doing: seq<Sign>)
    requires Sound(s) && Load(s.sidecar) == last && (s.saving.Some? ==> Load(s.saving.value) == doing)
    ensures Sound(After(s, es)) && Load(After(s, es).sidecar) == LastSaved(s, es, last, doing)
    decreases |es|
  {
    hide Load, Next, FormatFile, AllValid, Blocks, Burst;
    if es != [] {
      var e := es[0];
      NextSound(s, e);
      NextSidecar(s, e);
      if e.SaveBegin? && s.saving.None? && s.dirty {
        FileRoundTrip(s.signs);
        RunKeeps(Next(s, e), es[1..], last, s.signs);
      } else if e.SaveEnd? && e.ok && s.saving.Some? {
        RunKeeps(Next(s, e), es[1..], doing, doing);
      } else {
        RunKeeps(Next(s, e), es[1..], last, doing);
      }
    }
  }

  /** Whatever a server does after it loaded its sidecar, writes, removals, edits, prunes, requests and
      saves in any order: the sidecar always loads as the whole list of the moment the last save that
      worked began, a failed or unfinished one changing nothing; and whenever nothing is due and no save
      is running that is the list there is. */
  lemma SidecarFollows(cells: Cells, cap: nat, sidecar: string, es: seq<Event>)
    ensures var s := Fresh(cells, cap, sidecar); var t := After(s, es);
      && Load(t.sidecar) == LastSaved(s, es, s.signs, [])
      && (!t.dirty && t.saving.None? ==> Load(t.sidecar) == t.signs)
      && t.index == Blocks(t.signs) && Next(t, Request).burst == Burst(t.signs)
  {
    FreshSound(cells, cap, sidecar);
    hide Load, Next, Blocks, Burst, AllValid;
    RunKeeps(Fresh(cells, cap, sidecar), es, Load(sidecar), []);
    Answered(After(Fresh(cells, cap, sidecar), es));
  }

  /** A save that works puts the whole list in the sidecar and leaves nothing due; one that fails leaves the
      sidecar as it was and the list due. */
  lemma SaveReaches(s: State, ok: bool)
    requires Sound(s) && s.saving.None?
    ensures var t := Next(Next(s, SaveBegin), SaveEnd(ok));
      && t.signs == s.signs && t.saving.None?
      && (ok ==> Load(t.sidecar) == s.signs && !t.dirty)
      && (!ok ==> t.sidecar == s.sidecar && t.dirty == s.dirty)
  {
    hide Load, FormatFile, Burst, Blocks, Sign.Valid;
    FileRoundTrip(s.signs);
  }

  lemma FreshSound(cells: Cells, cap: nat, sidecar: string)
    ensures Sound(Fresh(cells, cap, sidecar))
  {
    LoadValid(sidecar, []);
  }

  lemma Answered(s: State)
    requires Sound(s)
    ensures Next(s, Request).burst == Burst(s.signs)
  {
  }

  /** Storing air leaves no sign on the block, and takes no other. */
  lemma AirTakesSigns(s: State, p: Pos, color: int)
    requires Sound(s) && Takes(s, p)
    ensures var t := Next(s, Store(p, AIR, color));
      && t.signs == Kept(s.signs, OnBlock(p))
      && t.removals == s.removals + if Dropped(s.signs, OnBlock(p)) == [] then [] else [Removal(p, Dropped(s.signs, OnBlock(p)))]
  {
    hide Load, Burst, Sign.Valid, Kept, Dropped;
    UnkeyKey(p);
    KeptIs(s.signs, OnBlock(p));
    if Key(p) in s.index {
      BlockOf(s.signs, Key(p));
      var q :| q in s.signs && Key(q.At()) == Key(p);
      assert q in Dropped(s.signs, OnBlock(p));
    } else {
      assert forall q :: q in s.signs ==> q.At() != p;
    }
  }
}
