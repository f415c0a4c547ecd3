/**
 The signs of a running server: the list, the index of the blocks that carry signs, the burst sent to
 a client that asks, and the sidecar file, changed by players, the operator, edits of the world,
 pruning and saving, one lock-protected section at a time.
 */
module SignBoard {
  import opened BlockRules
  import opened Voxels
  import opened SignRuns
  import opened SignStore
  import StoredKinds

  class Board {
    var cells: Cells
    var cap: nat

    var signs: seq<Sign>
    var index: set<int>
    var burst: string
    var stale: bool
    var dirty: bool
    var removals: seq<Removal>

    /** The sidecar as it is on disk, and what a save under way will put there. */
    var sidecar: string
    var saving: Option<string>

    ghost function Now(): State
      reads this
    {
      State(cells, cap, signs, index, burst, stale, dirty, removals, sidecar, saving)
    }

    ghost predicate Valid()
      reads this
    {
      Sound(Now())
    }

    /** A server starts from its sidecar. */
    constructor (cells: Cells, cap: nat, sidecar: string)
      ensures Valid() && Now() == Fresh(cells, cap, sidecar)
    {
      FreshSound(cells, cap, sidecar);
      this.cells, this.cap, this.sidecar := cells, cap, sidecar;
      signs := Load(sidecar);
      index := Blocks(Load(sidecar));
      burst := Burst(Load(sidecar));
      stale, dirty, removals, saving := false, false, [], None;
    }

    method RebuildIndex()
      modifies this`index
      ensures index == Blocks(signs)
    {
      index := {};
      for i := 0 to |signs|
        invariant index == Blocks(signs[..i])
      {
        assert signs[..i + 1] == signs[..i] + [signs[i]];
        index := index + {Key(signs[i].At())};
      }
      assert signs[..|signs|] == signs;
    }

    method FormatBurst() returns (b: string)
      ensures b == Burst(signs)
    {
      b := "";
      for i := 0 to |signs|
        invariant b == Burst(signs[..i])
      {
        assert signs[..i + 1][..i] == signs[..i];
        b := b + WireLine(signs[i]);
      }
      assert signs[..|signs|] == signs;
    }

    /** The list changed: index and burst follow, and the sidecar is due. */
    method Changed(list: seq<Sign>)
      requires list != signs
      modifies this`signs, this`index, this`burst, this`stale, this`dirty
      ensures Now() == Relisted(old(Now()), list) && signs == list && dirty && !stale
    {
      hide Blocks, Burst;
      signs := list;
      RebuildIndex();
      burst := FormatBurst();
      stale, dirty := false, true;
    }

    /** A player's sign, or the operator's: the same door. */
    method Write(line: string) returns (p: Parsed, u: Upsert)
      requires Valid()
      modifies this`signs, this`index, this`burst, this`stale, this`dirty
      ensures Valid() && Now() == Next(old(Now()), Put(line)) && p == ParseLine(line)
      ensures p.Good? ==> (u == Unchanged || u == Full ==> signs == old(signs) && dirty == old(dirty))
      ensures p.Good? && u != Full ==>
        Dropped(signs, InSlot(p.sign)) == [p.sign] && Kept(signs, InSlot(p.sign)) == Kept(old(signs), InSlot(p.sign))
      ensures p.Good? && (u == Added || u == Replaced) ==> dirty && !stale
      ensures p.Good? ==> (u == Full <==> |old(signs)| >= MAX_SIGNS && forall q :: q in old(signs) ==> !SameSlot(q, p.sign))
    {
      hide Sound, Relisted, Sign.Valid, ParseLine, Upserted, Kept, Dropped, SameSlot;
      NextSound(Now(), Put(line));
      RelistedSame(Now(), signs);
      u := Unchanged;
      p := ParseSignLine(line);
      if !p.Good? { return; }
      var r;
      r, u := UpsertSign(signs, p.sign, MAX_SIGNS);
      if u == Added || u == Replaced {
        Changed(r);
      }
    }

    /** A player's line. A sign on a block of theirs to edit goes in; one on a protected block does not, and
        the signs its slot holds are sent back to put right what the player's client shows. */
    method PlayerWrite(line: string, deny: Pos -> bool) returns (p: Parsed, u: Option<Upsert>, back: string)
      requires Valid()
      modifies this`signs, this`index, this`burst, this`stale, this`dirty
      ensures Valid() && p == PlayerSign(line)
      ensures Now() == if p.Good? && !deny(p.sign.At()) then Next(old(Now()), Put(line[6..])) else old(Now())
      ensures !p.Good? || deny(p.sign.At()) ==> u.None?
      ensures back == if p.Good? && deny(p.sign.At()) then Burst(Dropped(signs, InSlot(p.sign))) else ""
      ensures p.Good? && !deny(p.sign.At()) ==> u.Some?
      ensures u.Some? && u.value != Full ==>
        Dropped(signs, InSlot(p.sign)) == [p.sign] && Kept(signs, InSlot(p.sign)) == Kept(old(signs), InSlot(p.sign))
      ensures u == Some(Full) ==> signs == old(signs)
    {
      hide Sound, Load, Burst, Sign.Valid, ParseLine, Upserted, Relisted, Kept, Dropped, Blocks;
      p, u, back := Bad, None, "";
      if !("SIGNP:" <= line) { return; }
      p := ParseSignLine(line[6..]);
      if !p.Good? { return; }
      if deny(p.sign.At()) {
        back := SlotLines(p.sign);
      } else {
        var _, done := Write(line[6..]);
        u := Some(done);
      }
    }

    /** The lines of the signs in a slot. */
    method SlotLines(s: Sign) returns (b: string)
      ensures b == Burst(Dropped(signs, InSlot(s)))
    {
      b := "";
      NoSigns(InSlot(s));
      for i := 0 to |signs|
        invariant b == Burst(Dropped(signs[..i], InSlot(s)))
      {
        OneMoreDropped(signs, i, InSlot(s));
        if SameSlot(signs[i], s) { b := b + WireLine(signs[i]); }
      }
      assert signs[..|signs|] == signs;
    }

    /** The operator takes every sign off a block. */
    method RemoveAt(at: Pos) returns (n: nat)
      requires Valid()
      modifies this`signs, this`index, this`burst, this`stale, this`dirty
      ensures Valid() && Now() == Next(old(Now()), TakeOff(at))
      ensures signs == Kept(old(signs), OnBlock(at)) && n == |old(signs)| - |signs|
      ensures n == 0 ==> signs == old(signs) && dirty == old(dirty)
    {
      hide Sound, Relisted, Sign.Valid, Kept, Dropped;
      NextSound(Now(), TakeOff(at));
      RelistedSame(Now(), signs);
      KeptIs(signs, OnBlock(at));
      var kept, removed := Prune(signs, OnBlock(at));
      n := |removed|;
      if removed != [] {
        Changed(kept);
      }
    }

    /** Drop signs on blocks the world stores as air; a cell the world does not hold keeps its signs. */
    method PruneOrphans() returns (dropped: seq<Sign>)
      requires Valid()
      modifies this`signs, this`index, this`burst, this`stale, this`dirty
      ensures Valid() && Now() == Next(old(Now()), Orphans)
      ensures forall s :: s in signs <==> s in old(signs) && !(s.At() in cells && cells[s.At()].kind == AIR)
      ensures signs == Kept(old(signs), OnAir(cells)) && dropped == Dropped(old(signs), OnAir(cells))
    {
      hide Sound, Relisted, Sign.Valid, Kept, Dropped;
      NextSound(Now(), Orphans);
      RelistedSame(Now(), signs);
      KeptIs(signs, OnAir(cells));
      var kept;
      kept, dropped := Prune(signs, OnAir(cells));
      if dropped != [] {
        Changed(kept);
      }
    }

    /** A block became air: its signs go, the others stay in order, and what went is kept for the log.
        The index follows; the burst is only marked stale. */
    method RemoveOnBlock(k: int)
      requires Valid()
      modifies this`signs, this`index, this`stale, this`dirty, this`removals
      ensures Valid() && Now() == Bared(old(Now()), k)
      ensures signs == if k in old(index) then Kept(old(signs), OnBlock(Unkey(k))) else old(signs)
      ensures removals == old(removals) +
        if k in old(index) then [Removal(Unkey(k), Dropped(old(signs), OnBlock(Unkey(k))))] else []
      ensures forall s :: s in signs <==> s in old(signs) && Key(s.At()) != k
    {
      hide Sound, Sign.Valid, Kept, Dropped, Key, Unkey;
      BaredSound(Now(), k);
      BaredSigns(Now(), k);
      if index == {} { return; }
      if k !in index { return; }
      index := index - {k};
      var kept, removed := Prune(signs, OnBlock(Unkey(k)));
      signs := kept;
      removals := removals + [Removal(Unkey(k), removed)];
      stale, dirty := true, true;
    }

    /** Store a block; one stored as air loses its signs. */
    method WorldSet(p: Pos, kind: int, color: int) returns (ok: bool)
      requires Valid()
      modifies this`cells, this`signs, this`index, this`stale, this`dirty, this`removals
      ensures Valid() && Now() == Next(old(Now()), Store(p, kind, color))
      ensures ok <==> InWorld(p) && (p in old(cells) || |old(cells)| < cap)
      ensures cells == if ok then old(cells)[p := StoredBlock(kind, color)] else old(cells)
      ensures signs == if ok && kind == AIR then Kept(old(signs), OnBlock(p)) else old(signs)
      ensures ok && kind == AIR ==> forall s :: s in signs <==> s in old(signs) && s.At() != p
      ensures ok && cells[p].kind == AIR ==>
        ((forall s :: s in signs ==> s.At() != p) <==> kind == AIR || forall s :: s in old(signs) ==> s.At() != p)
      ensures ok && StoredKinds.Plain(kind) && cells[p].kind == AIR ==> forall s :: s in signs ==> s.At() != p
    {
      hide Sound, Bared, Kept, Dropped, Key;
      NextSound(Now(), Store(p, kind, color));
      if !InWorld(p) { return false; }
      if p !in cells && |cells| >= cap { return false; }
      if kind == AIR { AirTakesSigns(Now(), p, color); }
      KeptIs(signs, OnBlock(p));
      CellsSound(Now(), cells[p := StoredBlock(kind, color)]);
      cells := cells[p := StoredBlock(kind, color)];
      if kind == AIR { RemoveOnBlock(Key(p)); }
      return true;
    }

    /** The burst a client asks for is the list, whatever an edit left stale. */
    method Serve() returns (b: string)
      requires Valid()
      modifies this`burst, this`stale
      ensures Valid() && Now() == Next(old(Now()), Request) && b == Burst(signs) && !stale
    {
      NextSound(Now(), Event.Request);
      Answered(Now());
      hide Sound, Burst;
      if stale {
        burst := FormatBurst();
        stale := false;
      }
      b := burst;
    }

    /** Hand out the removals waiting for the log, and bring the burst up to date. */
    method Drain() returns (r: seq<Removal>)
      requires Valid()
      modifies this`burst, this`stale, this`removals
      ensures Valid() && Now() == Next(old(Now()), Event.Drain) && r == old(removals) && removals == [] && !stale
    {
      hide Sound, Refreshed;
      NextSound(Now(), Event.Drain);
      var _ := Serve();
      r := removals;
      removals := [];
    }

    /** A save begins: one at a time, and only when the list changed. */
    method SaveBegin() returns (started: bool)
      requires Valid() && saving == None
      modifies this`dirty, this`saving
      ensures Valid() && Now() == Next(old(Now()), Event.SaveBegin) && started == old(dirty)
      ensures started ==> saving == Some(FormatFile(signs)) && !dirty
      ensures !started ==> saving == None && dirty == old(dirty)
    {
      hide Sound, FormatFile;
      NextSound(Now(), Event.SaveBegin);
      if !dirty { return false; }
      var file := FormatAll();
      dirty, saving := false, Some(file);
      return true;
    }

    method FormatAll() returns (file: string)
      ensures file == FormatFile(signs)
    {
      file := "";
      for i := 0 to |signs|
        invariant file == FormatFile(signs[..i])
      {
        assert signs[..i + 1][..i] == signs[..i];
        file := file + FormatLine(signs[i]);
      }
      assert signs[..|signs|] == signs;
    }

    /** A save ends: the sidecar is what was asked for, or the list is due again. */
    method SaveEnd(ok: bool)
      requires Valid() && saving.Some?
      modifies this`dirty, this`sidecar, this`saving
      ensures Valid() && Now() == Next(old(Now()), Event.SaveEnd(ok)) && saving == None
      ensures sidecar == if ok then old(saving).value else old(sidecar)
      ensures !ok ==> dirty
    {
      hide Sound, FormatFile;
      NextSound(Now(), Event.SaveEnd(ok));
      if ok { sidecar := saving.value; } else { dirty := true; }
      saving := None;
    }
  }

  lemma NoSigns(drop: Test)
    ensures Burst(Dropped([], drop)) == ""
  {
  }

  lemma OneMoreDropped(signs: seq<Sign>, i: nat, drop: Test)
    requires i < |signs|
    ensures Burst(Dropped(signs[..i + 1], drop)) ==
      Burst(Dropped(signs[..i], drop)) + if drop(signs[i]) then WireLine(signs[i]) else ""
  {
    hide Dropped, Burst, WireLine;
    assert signs[..i + 1] == signs[..i] + [signs[i]];
    KeptAppend(signs[..i], [signs[i]], drop);
    OneDropped(signs[i], drop);
    var d := Dropped(signs[..i], drop);
    BurstSnoc(d, signs[i]);
    assert d + [] == d;
  }

  lemma OneDropped(s: Sign, drop: Test)
    ensures Dropped([s], drop) == if drop(s) then [s] else []
  {
    assert [s][..0] == [];
  }

  lemma BurstSnoc(signs: seq<Sign>, s: Sign)
    ensures Burst(signs + [s]) == Burst(signs) + WireLine(s)
  {
    hide WireLine;
    assert (signs + [s])[..|signs|] == signs;
  }
}
