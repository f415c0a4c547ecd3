/**
 The REGION service as the server runs it: player edits, region requests, each client's writer, late
 cache inserts and evictions, interleaved one lock-protected section at a time. A reply served from
 the cache is what a fresh scan and encode of its box would give at that moment.
 */
module RegionService {
  import opened BlockRules
  import opened Voxels
  import opened SnapzCodec
  import opened RegionQuery
  import opened RegionCache
  import opened OutQueue

  datatype Config = Config(walk: Walk, deflate: Transform, emptyFrame: bool, worldCap: nat, radius: nat, maxJobs: nat)

  // --- what a fresh reply is --------------------------------------------------------------------

  function Encoded(cfg: Config, recs: seq<Rec>): Frame { Frame(SnapzLine(cfg.deflate, recs), |recs|) }

  /** The frames of a reply: full ones, then a short last one. */
  function Frames(cfg: Config, recs: seq<Rec>): seq<Frame> {
    if recs == [] then []
    else if |recs| <= FRAME_RECORDS then [Encoded(cfg, recs)]
    else [Encoded(cfg, recs[..FRAME_RECORDS])] + Frames(cfg, recs[FRAME_RECORDS..])
  }

  function ReplyFrames(cfg: Config, recs: seq<Rec>, emptyFrame: bool): seq<Frame> {
    if recs == [] then (if emptyFrame then [Encoded(cfg, [])] else []) else Frames(cfg, recs)
  }

  /** What a fresh scan and encode for this key gives now. */
  ghost function FreshFrames(cfg: Config, cells: Cells, k: CacheKey): seq<Frame>
    requires Walks(cfg.walk) && StoreOk(cells)
  {
    ReplyFrames(cfg, Scan(cfg.walk, cells, k.KeyBox()), k.emptyFrame)
  }

  lemma {:induction false} FramesExtend(cfg: Config, recs: seq<Rec>, off: nat, n: nat)
    requires off % FRAME_RECORDS == 0 && 0 < n <= FRAME_RECORDS && off + n <= |recs|
    ensures Frames(cfg, recs[..off + n]) == Frames(cfg, recs[..off]) + [Encoded(cfg, recs[off..off + n])]
    decreases off
  {
    hide Encoded;
    if off == 0 {
      assert recs[..0 + n] == recs[0..0 + n];
    } else {
      var rest := recs[FRAME_RECORDS..];
      FramesExtend(cfg, rest, off - FRAME_RECORDS, n);
      assert recs[..off + n][..FRAME_RECORDS] == recs[..FRAME_RECORDS] == recs[..off][..FRAME_RECORDS];
      assert recs[..off + n][FRAME_RECORDS..] == rest[..off - FRAME_RECORDS + n];
      assert recs[..off][FRAME_RECORDS..] == rest[..off - FRAME_RECORDS];
      assert rest[off - FRAME_RECORDS..off - FRAME_RECORDS + n] == recs[off..off + n];
      if off == FRAME_RECORDS { assert rest[..0] == []; }
    }
  }

  // --- the state --------------------------------------------------------------------------------

  /** An encoded reply on its way to the cache. */
  datatype Fill = Fill(tag: Tag, reply: Reply)

  /** One client: the answer its reader has looked up but not queued yet, its world-state stream, the
      item its writer holds, and the reply being filed. */
  datatype Client = Client(asked: Option<Act>, lo: seq<Slot>, held: Option<Item>, fill: Option<Fill>)

  datatype Server = Server(cells: Cells, gens: Gens, cache: Cache, clients: map<nat, Client>)

  datatype Step =
    | Edit(pos: Pos, kind: int, color: int)
    | Reload(cells: Cells)
    | Request(client: nat, x: int, z: int, scanned: RecordVector, admitted: bool)
    | Queue(client: nat)
    | PushText(client: nat, text: string, shared: bool, admitted: bool)
    | Take(client: nat)
    | Requeue(client: nat)
    | Write(client: nat, sent: bool)
    | EncodeFailed(client: nat)
    | DropStream(client: nat)
    | ResizeCache(maxBytes: nat)

  function WorldSet(cfg: Config, s: Server, p: Pos, kind: int, color: int): Server
    requires |s.gens.gen| == TILE * TILE
  {
    if !InWorld(p) || (p !in s.cells && |s.cells| >= cfg.worldCap) then s
    else s.(cells := s.cells[p := StoredBlock(kind, color)], gens := s.gens.Bump(p.x, p.z))
  }

  predicate PointValid(x: int, z: int) { 0 <= x <= WORLD_MAX && 0 <= z <= WORLD_MAX }

  function RequestKey(cfg: Config, x: int, z: int): CacheKey { KeyOf(RegionBox(x, z, cfg.radius), cfg.emptyFrame) }

  function PushSlot(c: Client, slot: Option<Slot>): Client {
    match slot case None => c case Some(sl) => c.(lo := c.lo + [sl])
  }

  /** The writer's bookkeeping when an item goes out: the fill it carries on, and a finished reply. */
  function FillAfter(cfg: Config, maxEntry: nat, fill: Option<Fill>, it: Item, sent: bool): (Option<Fill>, Option<Fill>)
    requires ItemOk(it)
  {
    if !it.JobFrame? && !it.CachedFrame? then (fill, None)
    else
      var f := if !it.first then fill
               else if it.JobFrame? && it.cacheable then Some(Fill(it.tag, Reply([], 0, 0, it.tag.stamp))) else None;
      if f.None? then (None, None)
      else
        var line := if it.JobFrame? then WireLine(cfg.deflate, it) else "";
        if !sent || f.value.reply.bytes + |line| > maxEntry then (None, None)
        else
          var g := Some(f.value.(reply := f.value.reply.Add(line, it.count)));
          if it.last then (None, g) else (g, None)
  }

  /** What a step brings along is what it claims: stored cells are bytes, and a scan is one of the store. */
  ghost predicate StepOk(cfg: Config, s: Server, st: Step) {
    && (st.Reload? ==> StoreOk(st.cells))
    && (st.Request? ==> Walks(cfg.walk) && StoreOk(s.cells))
    && (st.Request? ==> st.scanned.recs == Scan(cfg.walk, s.cells, RequestKey(cfg, st.x, st.z).KeyBox()))
  }

  /** A region request under the world lock: a cache lookup, else a scan tagged with the generation
      now. The answer is queued later, after the lock is gone. */
  ghost function Serve(cfg: Config, s: Server, st: Step): Server
    requires st.Request? && |s.gens.gen| == TILE * TILE && st.client in s.clients
  {
    if !PointValid(st.x, st.z) || s.clients[st.client].asked.Some? then s
    else
      var k := RequestKey(cfg, st.x, st.z);
      var (cache, hit) := s.cache.Find(k, s.gens);
      var t := s.(cache := cache);
      if !st.admitted then t
      else
        var act := match hit
          case Some(reply) => PushReply(reply)
          case None => PushJob(Job(st.scanned, 0, FRAME_RECORDS, cfg.emptyFrame, s.cache.maxBytes > 0, Tag(k, s.gens.now)));
        t.(clients := s.clients[st.client := s.clients[st.client].(asked := Some(act))])
  }

  /** An item goes out; a finished reply is filed in the cache. */
  ghost function WriteOut(cfg: Config, s: Server, id: nat, sent: bool): Server
    requires id in s.clients && s.clients[id].held.Some? && ItemOk(s.clients[id].held.value) && s.cache.Shape()
  {
    var c := s.clients[id];
    var (fill, done) := FillAfter(cfg, s.cache.maxBytes / 4, c.fill, c.held.value, sent);
    var t := s.(clients := s.clients[id := c.(held := None, fill := fill)]);
    match done case None => t case Some(f) => t.(cache := s.cache.Insert(f.tag.key, f.reply).0)
  }

  /** One atomic step; a step that cannot be taken changes nothing. */
  ghost function Next(cfg: Config, s: Server, st: Step): Server
    requires ServiceOk(cfg, s)
  {
    if !StepOk(cfg, s, st) then s else
    match st
    case Edit(p, kind, color) => WorldSet(cfg, s, p, kind, color)
    case Reload(cells) => s.(cells := cells, gens := s.gens.BumpAll())
    case ResizeCache(n) => s.(cache := s.cache.SetMaxBytes(n))
    case Request(id, _, _, _, _) => if id in s.clients then Serve(cfg, s, st) else s
    case Queue(id) =>
      if id in s.clients && s.clients[id].asked.Some? then
        var c := s.clients[id];
        s.(clients := s.clients[id := PushSlot(c.(asked := None), Pushed(c.asked.value, c.lo, cfg.maxJobs))])
      else s
    case PushText(id, text, shared, admitted) =>
      if id !in s.clients then s
      else s.(clients := s.clients[id := PushSlot(s.clients[id], Pushed(PushBlob(text, shared, admitted), s.clients[id].lo, cfg.maxJobs))])
    case Take(id) =>
      if id in s.clients && s.clients[id].held.None? && s.clients[id].lo != [] then
        var (it, rest) := TakeFront(s.clients[id].lo);
        s.(clients := s.clients[id := s.clients[id].(lo := rest, held := Some(it))])
      else s
    case Requeue(id) =>
      if id in s.clients && s.clients[id].held.Some? && s.clients[id].held.value.JobFrame? then
        var c := s.clients[id];
        s.(clients := s.clients[id := c.(lo := HandBack(c.held.value, c.lo), held := None)])
      else s
    case Write(id, sent) =>
      if id in s.clients && s.clients[id].held.Some? then WriteOut(cfg, s, id, sent) else s
    case EncodeFailed(id) =>
      if id in s.clients && s.clients[id].held.Some? && s.clients[id].held.value.JobFrame? then
        s.(clients := s.clients[id := s.clients[id].(held := None, fill := None)])
      else s
    case DropStream(id) =>
      if id in s.clients && s.clients[id].held.None? then s.(clients := s.clients[id := s.clients[id].(lo := [])]) else s
  }

  // --- the invariant ------------------------------------------------------------------------------

  /** As long as the box has not changed since the stamp, these frames are what a fresh reply would be. */
  ghost predicate EntryOk(cfg: Config, cells: Cells, g: Gens, k: CacheKey, e: Reply)
    requires Walks(cfg.walk) && StoreOk(cells) && g.Valid()
  {
    e.stamp <= g.now && (g.Unchanged(k.KeyBox(), e.stamp) ==> e.frames == FreshFrames(cfg, cells, k))
  }

  function RecsOf(v: RecordVector?): seq<Rec> { if v == null then [] else v.recs }

  /** As long as the box has not changed since the stamp, these records are what a fresh scan would give. */
  ghost predicate TagOk(cfg: Config, cells: Cells, g: Gens, tag: Tag, recs: seq<Rec>)
    requires Walks(cfg.walk) && StoreOk(cells) && g.Valid()
  {
    && tag.stamp <= g.now && (recs == [] ==> tag.key.emptyFrame)
    && (g.Unchanged(tag.key.KeyBox(), tag.stamp) ==> recs == Scan(cfg.walk, cells, tag.key.KeyBox()))
  }

  /** An answer not queued yet: a scan's job is tagged, fresh and sliced as the cache will want it. */
  ghost predicate AskedOk(cfg: Config, cells: Cells, g: Gens, a: Act)
    requires Walks(cfg.walk) && StoreOk(cells) && g.Valid()
  {
    && (a.PushJob? || a.PushReply?)
    && (a.PushJob? ==>
         a.job.cursor == 0 && a.job.frameRecords == FRAME_RECORDS &&
         (a.job.Total() > 0 || a.job.emptyFrame ==> SlotTagged(cfg, cells, g, Slot.Pending(a.job))))
  }

  /** A cursor a frame starts at, with frames of n records from there. */
  predicate OnFrame(cursor: nat, n: nat, total: nat) {
    cursor % FRAME_RECORDS == 0 && (n == FRAME_RECORDS || (n < FRAME_RECORDS && cursor + n == total))
  }

  ghost predicate SlotTagged(cfg: Config, cells: Cells, g: Gens, sl: Slot)
    requires Walks(cfg.walk) && StoreOk(cells) && g.Valid()
  {
    sl.Pending? && sl.job.cacheable ==>
      TagOk(cfg, cells, g, sl.job.tag, RecsOf(sl.job.recs)) &&
      (sl.job.Total() > 0 ==> OnFrame(sl.job.cursor, sl.job.frameRecords, sl.job.Total()))
  }

  ghost predicate ItemTagged(cfg: Config, cells: Cells, g: Gens, it: Item)
    requires Walks(cfg.walk) && StoreOk(cells) && g.Valid()
  {
    it.JobFrame? && it.cacheable ==>
      TagOk(cfg, cells, g, it.tag, RecsOf(it.recs)) &&
      (it.count > 0 ==> it.recs != null && OnFrame(it.off, it.count, |it.recs.recs|))
  }

  /** The fill holds exactly the first n records of the reply being sent, as frames. */
  ghost predicate Filled(cfg: Config, f: Fill, tag: Tag, recs: seq<Rec>, n: nat) {
    f.tag == tag && f.reply.stamp == tag.stamp && n <= |recs| && f.reply.frames == Frames(cfg, recs[..n])
  }

  /** A fill under way belongs to the job part way through: the frame held, else the front of the stream. */
  ghost predicate FillOk(cfg: Config, c: Client) {
    c.fill.Some? ==>
      if c.held.Some? && c.held.value.JobFrame? then
        c.held.value.off > 0 ==>
          c.held.value.cacheable && Filled(cfg, c.fill.value, c.held.value.tag, RecsOf(c.held.value.recs), c.held.value.off)
      else if c.held.Some? && c.held.value.CachedFrame? then c.held.value.first
      else c.lo == [] || FrontFilled(cfg, c.fill.value, c.lo[0])
  }

  ghost predicate FrontFilled(cfg: Config, f: Fill, front: Slot) {
    match front
    case Blob(_, _) => true
    case Cached(_, cursor) => cursor == 0
    case Pending(j) => j.cursor > 0 ==> j.cacheable && Filled(cfg, f, j.tag, RecsOf(j.recs), j.cursor)
  }

  ghost predicate ClientOk(cfg: Config, cells: Cells, g: Gens, c: Client)
    requires Walks(cfg.walk) && StoreOk(cells) && g.Valid()
  {
    && LoOk(c.lo) && (c.held.Some? ==> Held(c.held.value, c.lo))
    && (forall i :: 0 <= i < |c.lo| ==> SlotTagged(cfg, cells, g, c.lo[i]))
    && (c.held.Some? ==> ItemTagged(cfg, cells, g, c.held.value))
    && (c.asked.Some? ==> AskedOk(cfg, cells, g, c.asked.value))
    && FillOk(cfg, c) && (c.fill.Some? ==> c.fill.value.reply.Valid())
  }

  ghost predicate ServiceOk(cfg: Config, s: Server) {
    && Walks(cfg.walk) && StoreOk(s.cells) && s.gens.Valid() && s.cache.Valid()
    && (forall k :: k in s.cache.entries ==> EntryOk(cfg, s.cells, s.gens, k, s.cache.entries[k]))
    && (forall id :: id in s.clients ==> ClientOk(cfg, s.cells, s.gens, s.clients[id]))
  }

  /** A reply served from the cache is, line for line, what a fresh scan and encode of its box would
      give at that moment. */
  lemma HitIsFresh(cfg: Config, s: Server, k: CacheKey)
    requires ServiceOk(cfg, s) && s.cache.Find(k, s.gens).1.Some?
    ensures s.cache.Find(k, s.gens).1.value.frames == FreshFrames(cfg, s.cells, k)
  {
  }

  // --- edits --------------------------------------------------------------------------------------

  /** A generation table only ever moves forward. */
  ghost predicate Later(g: Gens, h: Gens)
    requires g.Valid() && h.Valid()
  {
    g.now <= h.now && g.floor <= h.floor && forall i :: 0 <= i < |g.gen| ==> g.gen[i] <= h.gen[i]
  }

  lemma LaterUnchanged(g: Gens, h: Gens, b: Box, stamp: nat)
    requires g.Valid() && h.Valid() && Later(g, h) && h.Unchanged(b, stamp)
    ensures g.Unchanged(b, stamp)
  {
  }

  /** Nothing a box covers was written between g and h unless the box counts as changed since then. */
  ghost predicate Covered(cfg: Config, cells: Cells, g: Gens, after: Cells, h: Gens)
    requires Walks(cfg.walk) && StoreOk(cells) && StoreOk(after) && g.Valid() && h.Valid()
  {
    && Later(g, h)
    && forall b: Box, stamp: nat :: stamp <= g.now && h.Unchanged(b, stamp) ==>
         Scan(cfg.walk, after, b) == Scan(cfg.walk, cells, b)
  }

  /** An edit inside a box makes every earlier stamp of it stale. */
  lemma BumpStales(g: Gens, p: Pos, box: Box, stamp: nat)
    requires g.Valid() && stamp <= g.now
    ensures box.Contains(p.x, p.z) ==> !g.Bump(p.x, p.z).Unchanged(box, stamp)
  {
    if box.Contains(p.x, p.z) {
      assert Covers(box, p.x / CHUNK, p.z / CHUNK);
      assert g.Bump(p.x, p.z).gen[ColumnSlot(p.x / CHUNK, p.z / CHUNK)] == g.now + 1;
    }
  }

  lemma BumpCovers(cfg: Config, cells: Cells, g: Gens, p: Pos, b: Block)
    requires Walks(cfg.walk) && StoreOk(cells) && g.Valid() && InWorld(p) && ByteBlock(b)
    ensures Covered(cfg, cells, g, cells[p := b], g.Bump(p.x, p.z))
  {
    var h := g.Bump(p.x, p.z);
    forall box: Box, stamp: nat | stamp <= g.now && h.Unchanged(box, stamp)
      ensures Scan(cfg.walk, cells[p := b], box) == Scan(cfg.walk, cells, box)
    {
      BumpStales(g, p, box, stamp);
      ScanFrame(cfg.walk, cells, box, p, b);
    }
  }

  lemma ReloadCovers(cfg: Config, cells: Cells, g: Gens, after: Cells)
    requires Walks(cfg.walk) && StoreOk(cells) && StoreOk(after) && g.Valid()
    ensures Covered(cfg, cells, g, after, g.BumpAll())
  {
  }

  /** A change of the world that the generations cover keeps every entry, tag and fill right. */
  lemma ChangeKeeps(cfg: Config, s: Server, after: Cells, h: Gens)
    requires ServiceOk(cfg, s) && StoreOk(after) && h.Valid() && Covered(cfg, s.cells, s.gens, after, h)
    ensures ServiceOk(cfg, s.(cells := after, gens := h))
  {
    hide Scan, LoOk, Held, FillOk, OnFrame;
    forall k | k in s.cache.entries
      ensures EntryOk(cfg, after, h, k, s.cache.entries[k])
    {
      if h.Unchanged(k.KeyBox(), s.cache.entries[k].stamp) {
        LaterUnchanged(s.gens, h, k.KeyBox(), s.cache.entries[k].stamp);
      }
    }
    forall id | id in s.clients
      ensures ClientOk(cfg, after, h, s.clients[id])
    {
      var c := s.clients[id];
      forall i | 0 <= i < |c.lo|
        ensures SlotTagged(cfg, after, h, c.lo[i])
      {
        if c.lo[i].Pending? { TagKept(cfg, s.cells, s.gens, after, h, c.lo[i].job.tag, RecsOf(c.lo[i].job.recs)); }
      }
      if c.asked.Some? && c.asked.value.PushJob? {
        TagKept(cfg, s.cells, s.gens, after, h, c.asked.value.job.tag, RecsOf(c.asked.value.job.recs));
      }
      if c.held.Some? && c.held.value.JobFrame? {
        TagKept(cfg, s.cells, s.gens, after, h, c.held.value.tag, RecsOf(c.held.value.recs));
      }
    }
  }

  lemma TagKept(cfg: Config, cells: Cells, g: Gens, after: Cells, h: Gens, tag: Tag, recs: seq<Rec>)
    requires Walks(cfg.walk) && StoreOk(cells) && StoreOk(after) && g.Valid() && h.Valid() && Covered(cfg, cells, g, after, h)
    ensures TagOk(cfg, cells, g, tag, recs) ==> TagOk(cfg, after, h, tag, recs)
  {
    hide Scan;
    if TagOk(cfg, cells, g, tag, recs) && h.Unchanged(tag.key.KeyBox(), tag.stamp) {
      LaterUnchanged(g, h, tag.key.KeyBox(), tag.stamp);
    }
  }

  // --- one client's steps ---------------------------------------------------------------------------

  lemma ReplaceClient(cfg: Config, s: Server, id: nat, c: Client)
    requires ServiceOk(cfg, s) && ClientOk(cfg, s.cells, s.gens, c)
    ensures ServiceOk(cfg, s.(clients := s.clients[id := c]))
  {
    hide ClientOk, EntryOk;
  }

  lemma ReplaceCache(cfg: Config, s: Server, cache: Cache)
    requires ServiceOk(cfg, s) && cache.Valid()
    requires forall k :: k in cache.entries ==> EntryOk(cfg, s.cells, s.gens, k, cache.entries[k])
    ensures ServiceOk(cfg, s.(cache := cache))
  {
    hide ClientOk, EntryOk;
  }

  lemma PushKeepsClient(cfg: Config, cells: Cells, g: Gens, c: Client, sl: Slot)
    requires Walks(cfg.walk) && StoreOk(cells) && g.Valid() && ClientOk(cfg, cells, g, c)
    requires SlotOk(sl) && Fresh(sl) && SlotTagged(cfg, cells, g, sl)
    ensures ClientOk(cfg, cells, g, c.(lo := c.lo + [sl]))
  {
    hide Scan, TagOk, ItemTagged, Filled, OnFrame, SlotTagged;
  }

  lemma TakeTagged(cfg: Config, cells: Cells, g: Gens, sl: Slot)
    requires Walks(cfg.walk) && StoreOk(cells) && g.Valid() && SlotOk(sl) && SlotTagged(cfg, cells, g, sl)
    ensures var (it, left) := TakeSlot(sl);
      ItemTagged(cfg, cells, g, it) && (left.Some? ==> SlotTagged(cfg, cells, g, left.value))
  {
    hide Scan;
  }

  lemma TakeKeepsClient(cfg: Config, cells: Cells, g: Gens, c: Client)
    requires Walks(cfg.walk) && StoreOk(cells) && g.Valid() && ClientOk(cfg, cells, g, c) && c.held.None? && c.lo != []
    ensures var (it, rest) := TakeFront(c.lo);
      ClientOk(cfg, cells, g, c.(lo := rest, held := Some(it)))
  {
    FrontOk(c.lo);
    TakeKeepsStream(c.lo);
    assert SlotTagged(cfg, cells, g, c.lo[0]);
    TakeTagged(cfg, cells, g, c.lo[0]);
    TakeFills(cfg, c);
    hide Scan, TagOk, ItemTagged, Filled, OnFrame, SlotTagged, FillOk, Held, LoOk, TakeSlot, Stream, ItemUnits;
  }

  lemma TakeFills(cfg: Config, c: Client)
    requires LoOk(c.lo) && c.lo != [] && c.held.None? && FillOk(cfg, c)
    ensures var (it, rest) := TakeFront(c.lo); FillOk(cfg, c.(lo := rest, held := Some(it)))
  {
    hide Filled;
    FrontOk(c.lo);
    if c.lo[0].Blob? && |c.lo| > 1 { assert Fresh(c.lo[1]); }
  }

  lemma RequeueKeepsClient(cfg: Config, cells: Cells, g: Gens, c: Client)
    requires Walks(cfg.walk) && StoreOk(cells) && g.Valid() && ClientOk(cfg, cells, g, c)
    requires c.held.Some? && c.held.value.JobFrame?
    ensures ClientOk(cfg, cells, g, c.(lo := HandBack(c.held.value, c.lo), held := None))
  {
    var it := c.held.value;
    HandBackKeepsStream(it, c.lo);
    hide Scan, TagOk, Filled, Stream, ItemUnits, LoOk, AllOk, SlotOk, OnFrame;
    var back := HandBack(it, c.lo);
    if it.last { assert back[1..] == c.lo; } else { assert SlotTagged(cfg, cells, g, c.lo[0]) && back[1..] == c.lo[1..]; }
    forall i | 0 <= i < |back|
      ensures SlotTagged(cfg, cells, g, back[i])
    {
      if i > 0 { assert back[i] == back[1..][i - 1]; }
    }
  }

  function Longer(cfg: Config, f: Fill, it: Item): Fill
    requires it.JobFrame? && ItemOk(it)
  {
    f.(reply := f.reply.Add(WireLine(cfg.deflate, it), it.count))
  }

  /** Filing one more frame of records extends the fill by exactly those records. */
  lemma FrameFills(cfg: Config, f: Fill, it: Item)
    requires it.JobFrame? && ItemOk(it) && it.count > 0 && OnFrame(it.off, it.count, |it.recs.recs|)
    requires Filled(cfg, f, it.tag, it.recs.recs, it.off)
    ensures Filled(cfg, Longer(cfg, f, it), it.tag, it.recs.recs, it.off + it.count)
  {
    hide SnapzLine, Frames, SumBytes, SumRecords;
    FramesExtend(cfg, it.recs.recs, it.off, it.count);
  }

  /** The fill of a whole job is an entry the cache may hold. */
  lemma LastFills(cfg: Config, cells: Cells, g: Gens, f: Fill, it: Item)
    requires Walks(cfg.walk) && StoreOk(cells) && g.Valid()
    requires it.JobFrame? && ItemOk(it) && it.last && TagOk(cfg, cells, g, it.tag, RecsOf(it.recs))
    requires Filled(cfg, f, it.tag, RecsOf(it.recs), it.off)
    requires it.count > 0 ==> OnFrame(it.off, it.count, |it.recs.recs|)
    ensures EntryOk(cfg, cells, g, it.tag.key, Longer(cfg, f, it).reply)
  {
    hide Scan, SnapzLine, SumBytes, SumRecords;
    if it.count > 0 {
      FrameFills(cfg, f, it);
      assert it.recs.recs[..|it.recs.recs|] == it.recs.recs;
    } else {
      assert RecsOf(it.recs)[..0] == [];
    }
  }

  /** The fill a frame adds to: a new one for a job's first frame, else the one under way. */
  function FillFrom(fill: Option<Fill>, it: Item): Option<Fill>
    requires it.JobFrame?
  {
    if !it.first then fill else if it.cacheable then Some(Fill(it.tag, Reply([], 0, 0, it.tag.stamp))) else None
  }

  lemma FillFromOk(cfg: Config, cells: Cells, g: Gens, c: Client)
    requires Walks(cfg.walk) && StoreOk(cells) && g.Valid() && ClientOk(cfg, cells, g, c)
    requires c.held.Some? && c.held.value.JobFrame?
    ensures var it := c.held.value; var f := FillFrom(c.fill, it);
      f.Some? ==> it.cacheable && f.value.reply.Valid() && Filled(cfg, f.value, it.tag, RecsOf(it.recs), it.off)
  {
    hide Scan, SlotTagged;
    var it := c.held.value;
    if it.first { assert RecsOf(it.recs)[..0] == []; }
  }

  /** A client with nothing held, and a fill that belongs to the front of its stream. */
  lemma SentKeepsClient(cfg: Config, cells: Cells, g: Gens, c: Client, fill: Option<Fill>)
    requires Walks(cfg.walk) && StoreOk(cells) && g.Valid() && ClientOk(cfg, cells, g, c)
    requires fill.Some? ==> fill.value.reply.Valid() && (c.lo == [] || FrontFilled(cfg, fill.value, c.lo[0]))
    ensures ClientOk(cfg, cells, g, c.(held := None, fill := fill))
  {
    hide FrontFilled, SlotTagged, ItemTagged, AskedOk, LoOk, Held;
  }

  lemma OtherKeepsClient(cfg: Config, cells: Cells, g: Gens, c: Client, maxEntry: nat, sent: bool)
    requires Walks(cfg.walk) && StoreOk(cells) && g.Valid() && ClientOk(cfg, cells, g, c)
    requires c.held.Some? && !c.held.value.JobFrame?
    ensures var (fill, done) := FillAfter(cfg, maxEntry, c.fill, c.held.value, sent);
      done.None? && ClientOk(cfg, cells, g, c.(held := None, fill := fill))
  {
    var fill := FillAfter(cfg, maxEntry, c.fill, c.held.value, sent).0;
    hide FrontFilled, SlotTagged, ItemTagged, AskedOk, LoOk;
    assert fill.Some? ==> fill.value.reply.Valid() && (c.lo == [] || FrontFilled(cfg, fill.value, c.lo[0]));
    hide FillAfter, ClientOk;
    SentKeepsClient(cfg, cells, g, c, fill);
  }

  /** A frame that goes out either ends the fill or makes it longer; the last one finishes it. */
  lemma FillAfterIs(cfg: Config, maxEntry: nat, fill: Option<Fill>, it: Item, sent: bool)
    requires it.JobFrame? && ItemOk(it)
    ensures var f := FillFrom(fill, it);
      var r := FillAfter(cfg, maxEntry, fill, it, sent);
      r == (None, None) || (f.Some? && r == if it.last then (None, Some(Longer(cfg, f.value, it))) else (Some(Longer(cfg, f.value, it)), None))
  {
    hide WireLine;
  }

  lemma LongerValid(cfg: Config, f: Fill, it: Item)
    requires it.JobFrame? && ItemOk(it) && f.reply.Valid()
    ensures Longer(cfg, f, it).reply.Valid() && Longer(cfg, f, it).tag == f.tag
  {
    hide WireLine;
  }

  /** The slot in front after a frame that was not its job's last is the rest of that job. */
  lemma FrontIs(cfg: Config, f: Fill, it: Item, lo: seq<Slot>)
    requires it.JobFrame? && !it.last && Held(it, lo) && it.cacheable
    requires Filled(cfg, f, it.tag, RecsOf(it.recs), it.off + it.count)
    ensures lo != [] && FrontFilled(cfg, f, lo[0])
  {
    hide Filled, LoOk;
  }

  lemma FrameKeepsClient(cfg: Config, cells: Cells, g: Gens, c: Client, maxEntry: nat, sent: bool)
    requires Walks(cfg.walk) && StoreOk(cells) && g.Valid() && ClientOk(cfg, cells, g, c)
    requires c.held.Some? && c.held.value.JobFrame?
    ensures var (fill, done) := FillAfter(cfg, maxEntry, c.fill, c.held.value, sent);
      && ClientOk(cfg, cells, g, c.(held := None, fill := fill))
      && (done.Some? ==> done.value.reply.Valid() && EntryOk(cfg, cells, g, done.value.tag.key, done.value.reply))
  {
    var it := c.held.value;
    assert Held(it, c.lo) && ItemTagged(cfg, cells, g, it);
    FillFromOk(cfg, cells, g, c);
    FillAfterIs(cfg, maxEntry, c.fill, it, sent);
    hide ClientOk, FillAfter, FillFrom, Longer, Filled, TagOk, OnFrame, EntryOk, FrontFilled, Held;
    assert ItemOk(it) by { HeldOk(it, c.lo); }
    var f := FillFrom(c.fill, it);
    if f.Some? {
      LongerValid(cfg, f.value, it);
      if it.last {
        LastFills(cfg, cells, g, f.value, it);
      } else {
        assert it.count > 0;
        FrameFills(cfg, f.value, it);
        FrontIs(cfg, Longer(cfg, f.value, it), it, c.lo);
      }
    }
    SentKeepsClient(cfg, cells, g, c, FillAfter(cfg, maxEntry, c.fill, it, sent).0);
  }

  lemma HeldOk(it: Item, lo: seq<Slot>)
    requires Held(it, lo)
    ensures ItemOk(it)
  {
  }

  lemma WriteKeepsClient(cfg: Config, cells: Cells, g: Gens, c: Client, maxEntry: nat, sent: bool)
    requires Walks(cfg.walk) && StoreOk(cells) && g.Valid() && ClientOk(cfg, cells, g, c) && c.held.Some?
    ensures var (fill, done) := FillAfter(cfg, maxEntry, c.fill, c.held.value, sent);
      && ClientOk(cfg, cells, g, c.(held := None, fill := fill))
      && (done.Some? ==> done.value.reply.Valid() && EntryOk(cfg, cells, g, done.value.tag.key, done.value.reply))
  {
    assert ItemOk(c.held.value);
    hide FillAfter, ClientOk, EntryOk;
    if c.held.value.JobFrame? {
      FrameKeepsClient(cfg, cells, g, c, maxEntry, sent);
    } else {
      OtherKeepsClient(cfg, cells, g, c, maxEntry, sent);
    }
  }

  // --- every run --------------------------------------------------------------------------------------

  lemma RequestKeeps(cfg: Config, s: Server, st: Step)
    requires ServiceOk(cfg, s) && st.Request? && StepOk(cfg, s, st) && st.client in s.clients
    ensures ServiceOk(cfg, Serve(cfg, s, st))
  {
    var k := RequestKey(cfg, st.x, st.z);
    var c := s.clients[st.client];
    var (cache, hit) := s.cache.Find(k, s.gens);
    FindValid(s.cache, k, s.gens);
    hide Scan, EntryOk, ClientOk;
    ReplaceCache(cfg, s, cache);
    var t := s.(cache := cache);
    var job := Job(st.scanned, 0, FRAME_RECORDS, cfg.emptyFrame, s.cache.maxBytes > 0, Tag(k, s.gens.now));
    var act := match hit case Some(reply) => PushReply(reply) case None => PushJob(job);
    AskKeepsClient(cfg, s.cells, s.gens, c, act);
    ReplaceClient(cfg, t, st.client, c.(asked := Some(act)));
  }

  lemma AskKeepsClient(cfg: Config, cells: Cells, g: Gens, c: Client, act: Act)
    requires Walks(cfg.walk) && StoreOk(cells) && g.Valid() && ClientOk(cfg, cells, g, c)
    requires act.PushReply? || act.PushJob?
    requires act.PushJob? ==> act.job.cursor == 0 && act.job.frameRecords == FRAME_RECORDS
    requires act.PushJob? ==> act.job.tag.stamp <= g.now && act.job.emptyFrame == act.job.tag.key.emptyFrame
    requires act.PushJob? ==> RecsOf(act.job.recs) == Scan(cfg.walk, cells, act.job.tag.key.KeyBox())
    ensures ClientOk(cfg, cells, g, c.(asked := Some(act)))
  {
    hide Scan, LoOk, Held, Filled, ItemTagged;
  }

  lemma QueueKeepsClient(cfg: Config, cells: Cells, g: Gens, c: Client)
    requires Walks(cfg.walk) && StoreOk(cells) && g.Valid() && ClientOk(cfg, cells, g, c) && c.asked.Some?
    ensures ClientOk(cfg, cells, g, PushSlot(c.(asked := None), Pushed(c.asked.value, c.lo, cfg.maxJobs)))
  {
    var d := c.(asked := None);
    var p := Pushed(c.asked.value, c.lo, cfg.maxJobs);
    assert ClientOk(cfg, cells, g, d) by { hide Scan, SlotTagged, ItemTagged, Filled, LoOk, Held; }
    if p.Some? { PushKeepsClient(cfg, cells, g, d, p.value); }
  }

  lemma TextKeepsClient(cfg: Config, cells: Cells, g: Gens, c: Client, text: string, shared: bool, admitted: bool)
    requires Walks(cfg.walk) && StoreOk(cells) && g.Valid() && ClientOk(cfg, cells, g, c)
    ensures ClientOk(cfg, cells, g, PushSlot(c, Pushed(PushBlob(text, shared, admitted), c.lo, cfg.maxJobs)))
  {
    if text != "" && admitted { PushKeepsClient(cfg, cells, g, c, Blob(text, shared)); }
  }

  lemma WriteKeeps(cfg: Config, s: Server, id: nat, sent: bool)
    requires ServiceOk(cfg, s) && id in s.clients && s.clients[id].held.Some?
    ensures ServiceOk(cfg, WriteOut(cfg, s, id, sent))
  {
    var c := s.clients[id];
    WriteKeepsClient(cfg, s.cells, s.gens, c, s.cache.maxBytes / 4, sent);
    hide EntryOk, ClientOk, FillAfter;
    var (fill, done) := FillAfter(cfg, s.cache.maxBytes / 4, c.fill, c.held.value, sent);
    var d := c.(held := None, fill := fill);
    ReplaceClient(cfg, s, id, d);
    if done.Some? {
      InsertValid(s.cache, done.value.tag.key, done.value.reply);
      ReplaceCache(cfg, s.(clients := s.clients[id := d]), s.cache.Insert(done.value.tag.key, done.value.reply).0);
    }
  }

  lemma ForgetKeepsClient(cfg: Config, cells: Cells, g: Gens, c: Client)
    requires Walks(cfg.walk) && StoreOk(cells) && g.Valid() && ClientOk(cfg, cells, g, c)
    ensures c.held.Some? ==> ClientOk(cfg, cells, g, c.(held := None, fill := None))
    ensures c.held.None? ==> ClientOk(cfg, cells, g, c.(lo := []))
  {
    hide Scan, SlotTagged, ItemTagged, Filled;
  }

  /** Every atomic step keeps the service right. */
  lemma NextKeeps(cfg: Config, s: Server, st: Step)
    requires ServiceOk(cfg, s)
    ensures ServiceOk(cfg, Next(cfg, s, st))
  {
    hide ClientOk, EntryOk, StoreOk;
    if StepOk(cfg, s, st) {
      match st {
        case Edit(p, kind, color) => EditKeeps(cfg, s, p, kind, color);
        case Reload(cells) =>
          ReloadCovers(cfg, s.cells, s.gens, cells);
          ChangeKeeps(cfg, s, cells, s.gens.BumpAll());
        case ResizeCache(n) => ResizeKeeps(cfg, s, n);
        case Request(id, _, _, _, _) => if id in s.clients { RequestKeeps(cfg, s, st); }
        case Write(id, sent) => if id in s.clients && s.clients[id].held.Some? { WriteKeeps(cfg, s, id, sent); }
        case _ => ClientStepKeeps(cfg, s, st);
      }
    }
  }

  lemma EditKeeps(cfg: Config, s: Server, p: Pos, kind: int, color: int)
    requires ServiceOk(cfg, s)
    ensures ServiceOk(cfg, WorldSet(cfg, s, p, kind, color))
  {
    hide ClientOk, EntryOk;
    if InWorld(p) {
      var b := StoredBlock(kind, color);
      BumpCovers(cfg, s.cells, s.gens, p, b);
      ChangeKeeps(cfg, s, s.cells[p := b], s.gens.Bump(p.x, p.z));
    }
  }

  lemma ResizeKeeps(cfg: Config, s: Server, n: nat)
    requires ServiceOk(cfg, s)
    ensures ServiceOk(cfg, s.(cache := s.cache.SetMaxBytes(n)))
  {
    hide ClientOk, EntryOk;
    EvictValid(s.cache.(maxBytes := n), n);
    ReplaceCache(cfg, s, s.cache.SetMaxBytes(n));
  }

  lemma ClientStepKeeps(cfg: Config, s: Server, st: Step)
    requires ServiceOk(cfg, s) && StepOk(cfg, s, st)
    requires st.Queue? || st.PushText? || st.Take? || st.Requeue? || st.EncodeFailed? || st.DropStream?
    ensures ServiceOk(cfg, Next(cfg, s, st))
  {
    var id := st.client;
    if id in s.clients {
      var c := s.clients[id];
      assert ClientOk(cfg, s.cells, s.gens, c);
      if st.Queue? && c.asked.Some? { QueueKeepsClient(cfg, s.cells, s.gens, c); }
      if st.PushText? { TextKeepsClient(cfg, s.cells, s.gens, c, st.text, st.shared, st.admitted); }
      if st.Take? && c.held.None? && c.lo != [] { TakeKeepsClient(cfg, s.cells, s.gens, c); }
      if st.Requeue? && c.held.Some? && c.held.value.JobFrame? { RequeueKeepsClient(cfg, s.cells, s.gens, c); }
      if st.EncodeFailed? || st.DropStream? { ForgetKeepsClient(cfg, s.cells, s.gens, c); }
      hide ClientOk, EntryOk, PushSlot, Pushed, TakeFront, HandBack;
      var t := Next(cfg, s, st);
      if t != s {
        assert t == s.(clients := s.clients[id := t.clients[id]]);
        ReplaceClient(cfg, s, id, t.clients[id]);
      }
    }
  }

  ghost function Run(cfg: Config, s: Server, steps: seq<Step>): Server
    requires ServiceOk(cfg, s)
    decreases |steps|
  {
    if steps == [] then s
    else
      NextKeeps(cfg, s, steps[0]);
      Run(cfg, Next(cfg, s, steps[0]), steps[1..])
  }

  lemma {:induction false} RunKeepsService(cfg: Config, s: Server, steps: seq<Step>)
    requires ServiceOk(cfg, s)
    ensures ServiceOk(cfg, Run(cfg, s, steps))
    decreases |steps|
  {
    hide ServiceOk;
    if steps != [] {
      NextKeeps(cfg, s, steps[0]);
      RunKeepsService(cfg, Next(cfg, s, steps[0]), steps[1..]);
    }
  }

  /** Nothing asked, queued, held or being filed. */
  predicate Idle(c: Client) { c.asked.None? && c.lo == [] && c.held.None? && c.fill.None? }

  /** A server just started over some world, its cache empty and its clients idle. */
  ghost predicate Started(cfg: Config, s: Server) {
    && Walks(cfg.walk) && StoreOk(s.cells) && s.gens.Valid() && s.cache.entries == map[] && s.cache.order == []
    && forall id :: id in s.clients ==> Idle(s.clients[id])
  }

  lemma StartedOk(cfg: Config, s: Server)
    requires Started(cfg, s)
    ensures ServiceOk(cfg, s)
  {
  }

  /** In every interleaving of edits, reloads, scans, late cache inserts, evictions and lookups, a reply
      served from the cache is frame for frame what a fresh scan and encode of that box would give at
      that moment; and the cache never holds more bytes than it may. */
  lemma CacheIsExact(cfg: Config, start: Server, steps: seq<Step>, k: CacheKey)
    requires Started(cfg, start)
    ensures ServiceOk(cfg, start)
    ensures var s := Run(cfg, start, steps);
      && Walks(cfg.walk) && StoreOk(s.cells) && |s.gens.gen| == TILE * TILE && s.cache.Valid()
      && (s.cache.Find(k, s.gens).1.Some? ==>
            s.cache.Find(k, s.gens).1.value.frames == FreshFrames(cfg, s.cells, k))
  {
    StartedOk(cfg, start);
    RunKeepsService(cfg, start, steps);
    var s := Run(cfg, start, steps);
    hide Run;
    if s.cache.Find(k, s.gens).1.Some? { HitIsFresh(cfg, s, k); }
  }
}
