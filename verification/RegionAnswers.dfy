/**
 What a client is told when it asks for a region: every stored cell near the place it asked about, as the
 world was at that moment, and nothing else.
 */
module RegionAnswers {
  import opened Voxels
  import opened SnapzCodec
  import opened RegionQuery
  import opened RegionCache
  import opened OutQueue
  import opened RegionService

  // --- what a client reads --------------------------------------------------------------------------

  /** The records a client reads out of what it is sent: a job's frames are lines of their own, and a
      cached line is read as any other. */
  function ReadUnit(inflate: Transform, u: Unit): seq<Rec> {
    match u
    case Text(_) => []
    case Record(rec) => [rec]
    case EmptyAnswer => []
    case CachedLine(line, _) => match ReadLine(inflate, line) case Ok((_, recs)) => recs case Err => []
  }

  function ReadUnits(inflate: Transform, us: seq<Unit>): seq<Rec>
    decreases |us|
  {
    if us == [] then [] else ReadUnit(inflate, us[0]) + ReadUnits(inflate, us[1..])
  }

  lemma {:induction false} ReadRecords(inflate: Transform, recs: seq<Rec>)
    ensures ReadUnits(inflate, Records(recs)) == recs
    decreases |recs|
  {
    if recs != [] {
      ReadRecords(inflate, recs[1..]);
      assert Records(recs)[1..] == Records(recs[1..]);
      assert [recs[0]] + recs[1..] == recs;
    }
  }

  lemma {:induction false} ReadFrames(cfg: Config, inflate: Transform, recs: seq<Rec>)
    requires forall b: seq<byte> :: inflate(cfg.deflate(b)) == b
    ensures ReadUnits(inflate, Lines(Frames(cfg, recs))) == recs
    decreases |recs|
  {
    hide ReadLine, SnapzLine;
    if recs != [] {
      var head, rest := if |recs| <= FRAME_RECORDS then recs else recs[..FRAME_RECORDS], if |recs| <= FRAME_RECORDS then [] else recs[FRAME_RECORDS..];
      ReadFrames(cfg, inflate, rest);
      LineRoundTrip(cfg.deflate, inflate, head);
      assert Frames(cfg, recs) == [Encoded(cfg, head)] + Frames(cfg, rest);
      assert Lines(Frames(cfg, recs))[1..] == Lines(Frames(cfg, rest));
      assert head + rest == recs;
    }
  }

  /** A whole reply reads as the records it was encoded from. */
  lemma ReadReply(cfg: Config, inflate: Transform, recs: seq<Rec>, emptyFrame: bool)
    requires forall b: seq<byte> :: inflate(cfg.deflate(b)) == b
    ensures ReadUnits(inflate, Lines(ReplyFrames(cfg, recs, emptyFrame))) == recs
  {
    hide ReadLine, SnapzLine;
    if recs == [] {
      LineRoundTrip(cfg.deflate, inflate, []);
      if emptyFrame { assert Lines([Encoded(cfg, [])])[1..] == []; }
    } else {
      ReadFrames(cfg, inflate, recs);
    }
  }

  // --- what it then knows ------------------------------------------------------------------------------

  predicate Around(p: Pos, x: int, z: int, n: int) { x - n <= p.x <= x + n && z - n <= p.z <= z + n }

  /** A client that knew nothing knows every stored cell within the radius of the place, knows nothing of a
      cell that is not stored or is a chunk past the radius, and what it knows is how things are. */
  ghost predicate Informed(recs: seq<Rec>, cells: Cells, x: int, z: int, radius: nat) {
    && (forall p :: p in cells && Around(p, x, z, radius) ==> Told(UNTOLD, recs, p) == Known(cells[p]))
    && (forall p :: Told(UNTOLD, recs, p) != UNTOLD ==>
          p in cells && Around(p, x, z, radius + CHUNK - 1) && Told(UNTOLD, recs, p) == Known(cells[p]))
  }

  lemma ScanInforms(walk: Walk, cells: Cells, x: int, z: int, radius: nat)
    requires Walks(walk) && StoreOk(cells)
    ensures Informed(Scan(walk, cells, RegionBox(x, z, radius)), cells, x, z, radius)
  {
    hide Scan, Known, Told, RegionBox;
    forall p
      ensures Told(UNTOLD, Scan(walk, cells, RegionBox(x, z, radius)), p) ==
        if p in cells && RegionBox(x, z, radius).Contains(p.x, p.z) then Known(cells[p]) else UNTOLD
    {
      ScanTells(walk, cells, RegionBox(x, z, radius), p);
    }
  }

  /** In every run, a request that is taken up leaves its client an answer to queue that reads as the scan
      of the box round the place it asked about, in the world of that moment, whether it was scanned or
      found in the cache: so the client is told every stored cell within the radius and nothing else. A
      request changes nothing in the world. */
  lemma RequestIsAnswered(cfg: Config, inflate: Transform, start: Server, steps: seq<Step>, st: Step)
    requires Started(cfg, start) && forall b: seq<byte> :: inflate(cfg.deflate(b)) == b
    requires st.Request? && PointValid(st.x, st.z) && st.admitted
    ensures ServiceOk(cfg, start)
    ensures var s := Run(cfg, start, steps);
      ServiceOk(cfg, s) && (StepOk(cfg, s, st) && st.client in s.clients && s.clients[st.client].asked.None? ==>
        var t := Next(cfg, s, st);
        && t.cells == s.cells && t.clients.Keys == s.clients.Keys
        && st.client in t.clients && t.clients[st.client].asked.Some?
        && var told := ReadUnits(inflate, ActUnits(t.clients[st.client].asked.value));
        && told == Scan(cfg.walk, s.cells, RegionBox(st.x, st.z, cfg.radius))
        && Informed(told, s.cells, st.x, st.z, cfg.radius))
  {
    StartedOk(cfg, start);
    RunKeepsService(cfg, start, steps);
    var s := Run(cfg, start, steps);
    hide Run;
    if StepOk(cfg, s, st) && st.client in s.clients && s.clients[st.client].asked.None? {
      AnswerReads(cfg, inflate, s, st);
      ScanInforms(cfg.walk, s.cells, st.x, st.z, cfg.radius);
    }
  }

  lemma AnswerReads(cfg: Config, inflate: Transform, s: Server, st: Step)
    requires ServiceOk(cfg, s) && StepOk(cfg, s, st) && forall b: seq<byte> :: inflate(cfg.deflate(b)) == b
    requires st.Request? && PointValid(st.x, st.z) && st.admitted && st.client in s.clients && s.clients[st.client].asked.None?
    ensures var t := Next(cfg, s, st);
      && t.cells == s.cells && t.clients.Keys == s.clients.Keys
      && st.client in t.clients && t.clients[st.client].asked.Some?
      && ReadUnits(inflate, ActUnits(t.clients[st.client].asked.value)) == Scan(cfg.walk, s.cells, RegionBox(st.x, st.z, cfg.radius))
  {
    var k := KeyOf(RegionBox(st.x, st.z, cfg.radius), cfg.emptyFrame);
    assert k.KeyBox() == RegionBox(st.x, st.z, cfg.radius);
    hide RegionBox, Scan, ReplyFrames, ReadUnits, EntryOk, ClientOk;
    var recs := Scan(cfg.walk, s.cells, k.KeyBox());
    ReadReply(cfg, inflate, recs, cfg.emptyFrame);
    ReadRecords(inflate, recs);
    if s.cache.Find(k, s.gens).1.Some? { HitIsFresh(cfg, s, k); }
    NothingRead(inflate);
  }

  lemma NothingRead(inflate: Transform)
    ensures ReadUnits(inflate, []) == [] && ReadUnits(inflate, [EmptyAnswer]) == []
  {
  }

  // --- from the answer to the wire -----------------------------------------------------------------------

  /** What a step does to its client's stream: one of the acts of the output queue, or none of them. */
  function StreamAct(s: Server, st: Step): Option<Act> {
    match st
    case Queue(id) => if id in s.clients then s.clients[id].asked else None
    case PushText(_, text, shared, admitted) => Some(PushBlob(text, shared, admitted))
    case Take(_) => Some(TakeNext)
    case Requeue(_) => Some(GiveBack)
    case Write(_, _) => Some(Send)
    case _ => None
  }

  predicate Streams(st: Step) { st.Queue? || st.PushText? || st.Take? || st.Requeue? || st.Write? }

  /** Each step moves the stream of its own client just as the output queue does. So what the queue delivers,
      over any run, is what the answers said, in order. */
  lemma StepsAreActs(cfg: Config, s: Server, st: Step, most: nat)
    requires ServiceOk(cfg, s) && Streams(st) && st.client in s.clients && StreamAct(s, st).Some? && FRAME_RECORDS <= most
    ensures var id, a := st.client, StreamAct(s, st).value;
      var c := s.clients[id];
      && LoOk(c.lo) && (c.held.Some? ==> ItemOk(c.held.value)) && ActOk(a, most) && id in Next(cfg, s, st).clients
      && var t, d := Do(Session(c.lo, c.held, [], []), a, cfg.maxJobs, most), Next(cfg, s, st).clients[id];
      && d.lo == t.lo && d.held == t.held && (st.Queue? ==> d.asked.None?)
  {
    var c := s.clients[st.client];
    assert ClientOk(cfg, s.cells, s.gens, c);
    hide Scan, SlotTagged, ItemTagged, FillOk, FillAfter, EntryOk, TakeFront, HandBack, RequestKey, Pushed, ActUnits, ItemUnits;
    if st.Queue? { assert AskedOk(cfg, s.cells, s.gens, c.asked.value); }
  }

  /** A step touches no client but its own, and an edit, a reload or a new cache size touches none. */
  lemma StepsKeepOthers(cfg: Config, s: Server, st: Step, id: nat)
    requires ServiceOk(cfg, s) && id in s.clients
    requires st.Edit? || st.Reload? || st.ResizeCache? || st.client != id
    ensures id in Next(cfg, s, st).clients && Next(cfg, s, st).clients[id] == s.clients[id]
  {
    hide ServiceOk, Scan, FillAfter, TakeFront, HandBack, RequestKey, Pushed;
    assert s.cache.Shape() && |s.gens.gen| == TILE * TILE by { ShapeOk(cfg, s); }
  }

  lemma ShapeOk(cfg: Config, s: Server)
    requires ServiceOk(cfg, s)
    ensures s.cache.Shape() && |s.gens.gen| == TILE * TILE
  {
  }

  /** An edit of the world is what the next scan sees, unless it is off the map or the world is full. */
  lemma EditIsStored(cfg: Config, s: Server, p: Pos, kind: int, color: int)
    requires ServiceOk(cfg, s)
    ensures Next(cfg, s, Edit(p, kind, color)).cells ==
      if InWorld(p) && (p in s.cells || |s.cells| < cfg.worldCap) then s.cells[p := StoredBlock(kind, color)] else s.cells
  {
  }

  /** The last frame of a job that came this far whole files its reply, every frame of it, under the box and
      the generation of its scan. */
  lemma ReplyIsFiled(cfg: Config, s: Server, id: nat)
    requires ServiceOk(cfg, s) && id in s.clients && s.clients[id].held.Some?
    requires var it := s.clients[id].held.value;
      it.JobFrame? && it.last && it.cacheable && FillFrom(s.clients[id].fill, it).Some?
    ensures var it := s.clients[id].held.value;
      && ItemOk(it)
      && var reply := Longer(cfg, FillFrom(s.clients[id].fill, it).value, it).reply;
      && reply.frames == ReplyFrames(cfg, RecsOf(it.recs), true) && reply.stamp == it.tag.stamp
      && (reply.bytes <= s.cache.maxBytes / 4 ==> Next(cfg, s, Write(id, true)).cache == s.cache.Insert(it.tag.key, reply).0)
  {
    var c := s.clients[id];
    var it := c.held.value;
    assert ClientOk(cfg, s.cells, s.gens, c);
    FillFromOk(cfg, s.cells, s.gens, c);
    var f := FillFrom(c.fill, it).value;
    assert ItemTagged(cfg, s.cells, s.gens, it) && Held(it, c.lo);
    WholeFills(cfg, f, it);
    hide ServiceOk, ClientOk, Filled, WireLine, ReplyFrames, OnFrame;
  }

  lemma WholeFills(cfg: Config, f: Fill, it: Item)
    requires it.JobFrame? && ItemOk(it) && it.last && Filled(cfg, f, it.tag, RecsOf(it.recs), it.off)
    requires it.count > 0 ==> OnFrame(it.off, it.count, |it.recs.recs|)
    ensures var reply := Longer(cfg, f, it).reply;
      reply.frames == ReplyFrames(cfg, RecsOf(it.recs), true) && reply.stamp == it.tag.stamp
  {
    hide SnapzLine, SumBytes, SumRecords;
    if it.count > 0 {
      FrameFills(cfg, f, it);
      assert it.recs.recs[..|it.recs.recs|] == it.recs.recs;
    } else {
      assert RecsOf(it.recs)[..0] == [];
    }
  }
}
