/**
 One client's output queue: latency-sensitive lines that may be dropped, and the ordered world-state
 stream that may not, with region replies kept as jobs and handed out one frame at a time.
 */
module OutQueue {
  import opened Voxels
  import opened SnapzCodec
  import opened RegionQuery
  import opened RegionCache

  /** A scanned record vector; jobs and frames share it, so its identity matters. */
  class RecordVector {
    const recs: seq<Rec>

    constructor (recs: seq<Rec>)
      ensures this.recs == recs
    {
      this.recs := recs;
    }
  }

  datatype Tag = Tag(key: CacheKey, stamp: nat)

  /** A scanned reply still to be encoded. */
  datatype Job = Job(recs: RecordVector?, cursor: nat, frameRecords: nat, emptyFrame: bool, cacheable: bool, tag: Tag) {
    function Total(): nat { if recs == null then 0 else |recs.recs| }
  }

  datatype Slot =
    | Blob(text: string, shared: bool)
    | Pending(job: Job)
    | Cached(reply: Reply, cursor: nat)

  /** What the writer is handed. */
  datatype Item =
    | Bytes(text: string)
    | SharedBytes(text: string)
    | JobFrame(recs: RecordVector?, off: nat, count: nat, first: bool, last: bool, cacheable: bool, tag: Tag)
    | CachedFrame(line: string, count: nat, first: bool, last: bool)

  // --- the stream, record by record -----------------------------------------------------------

  /** What the client is sent: a line, one record, an explicit empty answer, or a cached line. */
  datatype Unit = Text(text: string) | Record(rec: Rec) | EmptyAnswer | CachedLine(line: string, records: nat)

  function Records(rs: seq<Rec>): (us: seq<Unit>)
    ensures |us| == |rs| && forall i :: 0 <= i < |rs| ==> us[i] == Record(rs[i])
  {
    seq(|rs|, i requires 0 <= i < |rs| => Record(rs[i]))
  }

  function Lines(fs: seq<Frame>): (us: seq<Unit>)
    ensures |us| == |fs| && forall i :: 0 <= i < |fs| ==> us[i] == CachedLine(fs[i].line, fs[i].records)
  {
    seq(|fs|, i requires 0 <= i < |fs| => CachedLine(fs[i].line, fs[i].records))
  }

  predicate JobOk(j: Job) {
    j.frameRecords > 0 && (if j.Total() == 0 then j.cursor == 0 else j.cursor < j.Total())
  }

  predicate SlotOk(s: Slot) {
    match s
    case Blob(text, _) => text != ""
    case Pending(j) => JobOk(j)
    case Cached(r, cursor) => cursor < |r.frames|
  }

  function SlotUnits(s: Slot): seq<Unit>
    requires SlotOk(s)
  {
    match s
    case Blob(text, _) => [Text(text)]
    case Pending(j) => if j.Total() == 0 then [EmptyAnswer] else Records(j.recs.recs[j.cursor..])
    case Cached(r, cursor) => Lines(r.frames[cursor..])
  }

  predicate AllOk(lo: seq<Slot>) { forall i :: 0 <= i < |lo| ==> SlotOk(lo[i]) }

  /** The pending world-state stream, front first. */
  function Stream(lo: seq<Slot>): seq<Unit>
    requires AllOk(lo)
  {
    if lo == [] then [] else SlotUnits(lo[0]) + Stream(lo[1..])
  }

  predicate ItemOk(it: Item) {
    it.JobFrame? ==>
      if it.count == 0 then it.recs == null && it.off == 0 && it.last
      else it.recs != null && it.off + it.count <= |it.recs.recs| && (it.last <==> it.off + it.count == |it.recs.recs|)
  }

  function ItemUnits(it: Item): seq<Unit>
    requires ItemOk(it)
  {
    match it
    case Bytes(t) => [Text(t)]
    case SharedBytes(t) => [Text(t)]
    case JobFrame(v, off, count, _, _, _, _) => if count == 0 then [EmptyAnswer] else Records(v.recs[off..off + count])
    case CachedFrame(line, n, _, _) => [CachedLine(line, n)]
  }

  lemma {:induction false} StreamAppend(a: seq<Slot>, b: seq<Slot>)
    requires AllOk(a) && AllOk(b)
    ensures AllOk(a + b) && Stream(a + b) == Stream(a) + Stream(b)
  {
    if a == [] {
      assert a + b == b;
    } else {
      assert (a + b)[1..] == a[1..] + b;
      StreamAppend(a[1..], b);
    }
  }

  lemma StreamPush(lo: seq<Slot>, s: Slot)
    requires AllOk(lo) && SlotOk(s)
    ensures AllOk(lo + [s]) && Stream(lo + [s]) == Stream(lo) + SlotUnits(s)
  {
    StreamAppend(lo, [s]);
    assert Stream([s]) == SlotUnits(s) + Stream([]);
  }

  // --- taking and handing back ------------------------------------------------------------------

  predicate Fresh(s: Slot) { (s.Pending? ==> s.job.cursor == 0) && (s.Cached? ==> s.cursor == 0) }

  /** Only the front slot may be part way through. */
  predicate LoOk(lo: seq<Slot>) {
    AllOk(lo) && forall i :: 0 < i < |lo| ==> Fresh(lo[i])
  }

  function Min(a: nat, b: nat): nat { if a < b then a else b }

  /** One turn of a slot: the item it gives, and what is left of it. */
  function TakeSlot(s: Slot): (Item, Option<Slot>)
    requires SlotOk(s)
  {
    match s
    case Blob(text, shared) => (if shared then SharedBytes(text) else Bytes(text), None)
    case Cached(r, cursor) =>
      var last := cursor + 1 == |r.frames|;
      (CachedFrame(r.frames[cursor].line, r.frames[cursor].records, cursor == 0, last),
       if last then None else Some(Slot.Cached(r, cursor + 1)))
    case Pending(j) =>
      if j.Total() == 0 then (JobFrame(null, 0, 0, true, true, j.cacheable, j.tag), None)
      else
        var n := Min(j.Total() - j.cursor, j.frameRecords);
        var last := j.cursor + n == j.Total();
        (JobFrame(j.recs, j.cursor, n, j.cursor == 0, last, j.cacheable, j.tag),
         if last then None else Some(Slot.Pending(j.(cursor := j.cursor + n))))
  }

  /** The next item of a non-empty stream, and the slots left. */
  function TakeFront(lo: seq<Slot>): (Item, seq<Slot>)
    requires LoOk(lo) && lo != []
  {
    var (it, left) := TakeSlot(lo[0]);
    (it, LeftSlots(left, lo[1..]))
  }

  /** it is the item last taken from the slots in front of lo: nothing has been taken since, though
      slots may have been pushed. */
  predicate Held(it: Item, lo: seq<Slot>) {
    && ItemOk(it) && LoOk(lo)
    && (it.JobFrame? ==> (it.first <==> it.off == 0))
    && if it.JobFrame? && !it.last then
         lo != [] && lo[0].Pending? && lo[0].job.recs == it.recs && lo[0].job.cursor == it.off + it.count &&
         lo[0].job.cacheable == it.cacheable && lo[0].job.tag == it.tag && lo[0].job.frameRecords == it.count
       else it.JobFrame? ==> lo == [] || Fresh(lo[0])
  }

  /** The slots with a frame handed back to the front. */
  function HandBack(it: Item, lo: seq<Slot>): seq<Slot>
    requires it.JobFrame?
  {
    if lo != [] && lo[0].Pending? && it.recs != null && lo[0].job.recs == it.recs && lo[0].job.cursor == it.off + it.count then
      [Pending(lo[0].job.(cursor := it.off))] + lo[1..]
    else
      [Pending(Job(it.recs, it.off, if it.count > 0 then it.count else FRAME_RECORDS, it.count == 0, it.cacheable, it.tag))] + lo
  }

  lemma StreamCons(s: Slot, rest: seq<Slot>)
    requires SlotOk(s) && LoOk(rest) && (rest == [] || Fresh(rest[0]))
    ensures LoOk([s] + rest) && Stream([s] + rest) == SlotUnits(s) + Stream(rest)
  {
    hide SlotOk, Fresh, SlotUnits;
    assert ([s] + rest)[1..] == rest;
  }

  lemma RestOk(lo: seq<Slot>)
    requires LoOk(lo) && lo != []
    ensures LoOk(lo[1..]) && (lo[1..] == [] || Fresh(lo[1..][0])) && Stream(lo) == SlotUnits(lo[0]) + Stream(lo[1..])
  {
    hide SlotOk, Fresh, SlotUnits;
    assert forall i :: 0 <= i < |lo| - 1 ==> lo[1..][i] == lo[i + 1];
  }

  function LeftUnits(left: Option<Slot>): seq<Unit>
    requires left.Some? ==> SlotOk(left.value)
  {
    match left case None => [] case Some(s) => SlotUnits(s)
  }

  /** A turn of a slot splits its part of the stream in two. */
  lemma TakeSlotSplits(s: Slot)
    requires SlotOk(s)
    ensures var (it, left) := TakeSlot(s);
      && ItemOk(it) && (left.Some? ==> SlotOk(left.value))
      && ItemUnits(it) + LeftUnits(left) == SlotUnits(s)
  {
    match s {
      case Blob(_, _) =>
      case Cached(r, c) => CachedSplits(r, c);
      case Pending(j) => PendingSplits(j);
    }
    hide SlotOk, TakeSlot, ItemUnits, SlotUnits;
  }

  lemma CachedSplits(r: Reply, c: nat)
    requires SlotOk(Slot.Cached(r, c))
    ensures var (it, left) := TakeSlot(Slot.Cached(r, c));
      && ItemOk(it) && (left.Some? ==> SlotOk(left.value))
      && ItemUnits(it) + LeftUnits(left) == SlotUnits(Slot.Cached(r, c))
  {
    var one := [CachedLine(r.frames[c].line, r.frames[c].records)];
    assert Lines(r.frames[c..]) == one + Lines(r.frames[c + 1..]);
    assert one + [] == one;
  }

  lemma PendingSplits(j: Job)
    requires JobOk(j)
    ensures var (it, left) := TakeSlot(Slot.Pending(j));
      && ItemOk(it) && (left.Some? ==> SlotOk(left.value))
      && ItemUnits(it) + LeftUnits(left) == SlotUnits(Slot.Pending(j))
  {
    hide Records;
    if j.Total() > 0 { RecordsSplit(j.recs.recs, j.cursor, Min(j.Total() - j.cursor, j.frameRecords)); }
  }

  lemma RecordsSplit(rs: seq<Rec>, i: nat, n: nat)
    requires i + n <= |rs|
    ensures Records(rs[i..]) == Records(rs[i..i + n]) + Records(rs[i + n..])
    ensures i + n == |rs| ==> Records(rs[i..i + n]) + [] == Records(rs[i..])
  {
    assert rs[i..] == rs[i..i + n] + rs[i + n..];
  }

  lemma JoinSplit<T>(a: seq<T>, b: seq<T>, ab: seq<T>, c: seq<T>)
    requires a + b == ab
    ensures a + (b + c) == ab + c
  {
  }

  function LeftSlots(left: Option<Slot>, rest: seq<Slot>): seq<Slot> {
    match left case None => rest case Some(s) => [s] + rest
  }

  lemma TakeSlotHeld(s: Slot, rest: seq<Slot>)
    requires SlotOk(s) && LoOk(rest) && (rest == [] || Fresh(rest[0]))
    ensures var (it, left) := TakeSlot(s);
      Held(it, LeftSlots(left, rest)) && LoOk(LeftSlots(left, rest)) && (it.JobFrame? ==> s.Pending? && it.count <= s.job.frameRecords)
  {
    hide Stream, Records, Lines;
    TakeSlotSplits(s);
    var left := TakeSlot(s).1;
    if left.Some? { StreamCons(left.value, rest); }
  }

  lemma LeftStream(it: Item, left: Option<Slot>, all: seq<Unit>, rest: seq<Slot>)
    requires LoOk(rest) && (rest == [] || Fresh(rest[0]))
    requires ItemOk(it) && (left.Some? ==> SlotOk(left.value)) && ItemUnits(it) + LeftUnits(left) == all
    ensures LoOk(LeftSlots(left, rest)) && ItemUnits(it) + Stream(LeftSlots(left, rest)) == all + Stream(rest)
  {
    hide SlotUnits, ItemUnits, Stream, SlotOk;
    if left.Some? {
      StreamCons(left.value, rest);
      JoinSplit(ItemUnits(it), SlotUnits(left.value), all, Stream(rest));
    }
  }

  /** An item and the slots left make up the stream it was taken from. */
  lemma TakeKeepsStream(lo: seq<Slot>)
    requires LoOk(lo) && lo != []
    ensures var (it, rest) := TakeFront(lo);
      && Held(it, rest) && LoOk(rest)
      && ItemUnits(it) + Stream(rest) == Stream(lo)
      && (it.JobFrame? ==> lo[0].Pending? && it.count <= lo[0].job.frameRecords)
  {
    hide SlotUnits, ItemUnits, Stream, TakeSlot, Held, LoOk;
    FrontOk(lo);
    RestOk(lo);
    TakeSlotSplits(lo[0]);
    TakeSlotHeld(lo[0], lo[1..]);
    LeftStream(TakeSlot(lo[0]).0, TakeSlot(lo[0]).1, SlotUnits(lo[0]), lo[1..]);
  }

  lemma FrontOk(lo: seq<Slot>)
    requires LoOk(lo) && lo != []
    ensures SlotOk(lo[0])
  {
  }

  /** Handing a frame back puts exactly its records back in front of the stream. */
  lemma HandBackKeepsStream(it: Item, lo: seq<Slot>)
    requires it.JobFrame? && Held(it, lo)
    ensures LoOk(HandBack(it, lo)) && Stream(HandBack(it, lo)) == ItemUnits(it) + Stream(lo)
  {
    if it.last { HandBackLast(it, lo); } else { HandBackMiddle(it, lo); }
  }

  lemma HandBackLast(it: Item, lo: seq<Slot>)
    requires it.JobFrame? && it.last && Held(it, lo)
    ensures LoOk(HandBack(it, lo)) && Stream(HandBack(it, lo)) == ItemUnits(it) + Stream(lo)
  {
    if it.count > 0 { RecordsSplit(it.recs.recs, it.off, it.count); }
    StreamCons(HandBack(it, lo)[0], lo);
  }

  lemma HandBackMiddle(it: Item, lo: seq<Slot>)
    requires it.JobFrame? && !it.last && Held(it, lo)
    ensures LoOk(HandBack(it, lo)) && Stream(HandBack(it, lo)) == ItemUnits(it) + Stream(lo)
  {
    var j := lo[0].job;
    var back := Slot.Pending(j.(cursor := it.off));
    assert HandBack(it, lo) == [back] + lo[1..];
    assert lo[0] == Slot.Pending(j);
    hide HandBack;
    FrontOk(lo);
    assert TakeSlot(back) == (it, Some(lo[0]));
    RestOk(lo);
    hide Stream, LoOk, Records, Lines;
    StreamCons(back, lo[1..]);
    TakeSlotSplits(back);
    hide TakeSlot;
    LeftStream(it, Some(lo[0]), SlotUnits(back), lo[1..]);
    assert LeftSlots(Some(lo[0]), lo[1..]) == lo;
  }

  function Max(a: nat, b: nat): nat { if a < b then b else a }

  // --- every run of one client's stream ---------------------------------------------------------

  predicate IsRegion(s: Slot) { s.Pending? || s.Cached? }

  function Regions(lo: seq<Slot>): nat {
    if lo == [] then 0 else (if IsRegion(lo[0]) then 1 else 0) + Regions(lo[1..])
  }

  lemma {:induction false} RegionsAppend(a: seq<Slot>, b: seq<Slot>)
    ensures Regions(a + b) == Regions(a) + Regions(b)
  {
    if a == [] {
      assert a + b == b;
    } else {
      assert (a + b)[1..] == a[1..] + b;
      RegionsAppend(a[1..], b);
    }
  }

  /** A job as the queue takes it: a frame size of zero means the default. */
  function Normal(j: Job): Job { if j.frameRecords == 0 then j.(frameRecords := FRAME_RECORDS) else j }

  predicate Wide(s: Slot, most: nat) { s.Pending? && s.job.Total() > 0 ==> s.job.frameRecords <= most }

  /** What a producer or the writer does to the stream. */
  datatype Act =
    | PushBlob(text: string, shared: bool, admitted: bool)
    | PushJob(job: Job)
    | PushReply(reply: Reply)
    | TakeNext
    | GiveBack
    | Send

  /** The stream, the item the writer holds, and the whole history of what went in and out. */
  datatype Session = Session(lo: seq<Slot>, held: Option<Item>, accepted: seq<Unit>, delivered: seq<Unit>)

  /** A job is pushed fresh from its scan. */
  predicate ActOk(a: Act, most: nat) {
    a.PushJob? ==> a.job.cursor == 0 && Normal(a.job).frameRecords <= most
  }

  /** The slot a push adds, if it is accepted. */
  function Pushed(a: Act, lo: seq<Slot>, maxJobs: nat): Option<Slot> {
    match a
    case PushBlob(text, shared, admitted) => if text != "" && admitted then Some(Blob(text, shared)) else None
    case PushJob(j) =>
      if Regions(lo) >= maxJobs || (j.Total() == 0 && !j.emptyFrame) then None else Some(Slot.Pending(Normal(j)))
    case PushReply(r) => if Regions(lo) >= maxJobs || r.frames == [] then None else Some(Slot.Cached(r, 0))
    case _ => None
  }

  /** What a push would have the client sent. */
  function ActUnits(a: Act): seq<Unit> {
    match a
    case PushBlob(text, _, _) => if text == "" then [] else [Text(text)]
    case PushJob(j) => if j.Total() > 0 then Records(j.recs.recs) else if j.emptyFrame then [EmptyAnswer] else []
    case PushReply(r) => Lines(r.frames)
    case _ => []
  }

  /** There is room for it: bytes the byte budget admits, or a region within the limit. */
  predicate Room(a: Act, lo: seq<Slot>, maxJobs: nat) { if a.PushBlob? then a.admitted else Regions(lo) < maxJobs }

  /** A push adds a slot exactly when it says something and there is room; and the slot says just that. */
  lemma PushedIs(a: Act, lo: seq<Slot>, maxJobs: nat, most: nat)
    requires ActOk(a, most)
    ensures Pushed(a, lo, maxJobs).Some? <==> ActUnits(a) != [] && Room(a, lo, maxJobs)
    ensures Pushed(a, lo, maxJobs).Some? ==>
      var slot := Pushed(a, lo, maxJobs).value;
      SlotOk(slot) && Fresh(slot) && Wide(slot, most) && SlotUnits(slot) == ActUnits(a)
  {
    if a.PushReply? { assert a.reply.frames[0..] == a.reply.frames && |ActUnits(a)| == |a.reply.frames|; }
    if a.PushJob? && a.job.Total() > 0 { assert a.job.recs.recs[0..] == a.job.recs.recs && |ActUnits(a)| == a.job.Total(); }
  }

  function Do(s: Session, a: Act, maxJobs: nat, most: nat): Session
    requires LoOk(s.lo) && (s.held.Some? ==> ItemOk(s.held.value)) && ActOk(a, most)
  {
    match a
    case TakeNext =>
      if s.held.None? && s.lo != [] then
        var (it, rest) := TakeFront(s.lo); s.(lo := rest, held := Some(it))
      else s
    case GiveBack =>
      if s.held.Some? && s.held.value.JobFrame? then s.(lo := HandBack(s.held.value, s.lo), held := None) else s
    case Send =>
      if s.held.Some? then s.(held := None, delivered := s.delivered + ItemUnits(s.held.value)) else s
    case _ =>
      match Pushed(a, s.lo, maxJobs)
      case None => s
      case Some(slot) => s.(lo := s.lo + [slot], accepted := s.accepted + ActUnits(a))
  }

  function HeldUnits(held: Option<Item>): seq<Unit>
    requires held.Some? ==> ItemOk(held.value)
  {
    match held case None => [] case Some(it) => ItemUnits(it)
  }

  /** A held frame that was its job's last has left the region count. */
  function Popped(held: Option<Item>): nat {
    if held.Some? && held.value.JobFrame? && held.value.last then 1 else 0
  }

  ghost predicate Inv(s: Session, maxJobs: nat, most: nat) {
    && LoOk(s.lo)
    && (s.held.Some? ==> Held(s.held.value, s.lo) && (s.held.value.JobFrame? ==> s.held.value.count <= most))
    && (forall i :: 0 <= i < |s.lo| ==> Wide(s.lo[i], most))
    && s.accepted == s.delivered + (HeldUnits(s.held) + Stream(s.lo))
    && Regions(s.lo) + Popped(s.held) <= maxJobs + 1
  }

  lemma Quad<T>(a: seq<T>, b: seq<T>, c: seq<T>, d: seq<T>)
    ensures (a + (b + c)) + d == a + (b + (c + d))
  {
  }

  lemma PushKeeps(s: Session, a: Act, maxJobs: nat, most: nat)
    requires Inv(s, maxJobs, most) && ActOk(a, most) && !a.TakeNext? && !a.GiveBack? && !a.Send?
    ensures Inv(Do(s, a, maxJobs, most), maxJobs, most)
  {
    var p := Pushed(a, s.lo, maxJobs);
    if p.Some? {
      var slot := p.value;
      PushedIs(a, s.lo, maxJobs, most);
      StreamPush(s.lo, slot);
      RegionsAppend(s.lo, [slot]);
      assert Regions([slot]) == (if IsRegion(slot) then 1 else 0) + Regions([]);
      hide Stream, SlotUnits, ActUnits, Regions, Pushed, SlotOk, Wide, ItemUnits, HeldUnits, IsRegion;
      Quad(s.delivered, HeldUnits(s.held), Stream(s.lo), SlotUnits(slot));
    }
  }

  lemma TakeRegions(lo: seq<Slot>, most: nat)
    requires LoOk(lo) && lo != [] && forall i :: 0 <= i < |lo| ==> Wide(lo[i], most)
    ensures var (it, rest) := TakeFront(lo);
      && Regions(rest) + Popped(Some(it)) <= Regions(lo)
      && (forall i :: 0 <= i < |rest| ==> Wide(rest[i], most))
      && (it.JobFrame? ==> it.count <= most)
  {
    hide Stream, LoOk, AllOk;
    FrontOk(lo);
    var (it, left) := TakeSlot(lo[0]);
    assert Wide(lo[0], most) && forall i :: 0 <= i < |lo| - 1 ==> lo[1..][i] == lo[i + 1];
    if left.Some? { assert ([left.value] + lo[1..])[1..] == lo[1..]; }
  }

  lemma TakeKeeps(s: Session, maxJobs: nat, most: nat)
    requires Inv(s, maxJobs, most) && s.held.None? && s.lo != []
    ensures Inv(Do(s, TakeNext, maxJobs, most), maxJobs, most)
  {
    TakeKeepsStream(s.lo);
    TakeRegions(s.lo, most);
    hide Stream, ItemUnits, Held, TakeFront, LoOk, Regions, Wide;
    assert [] + Stream(s.lo) == Stream(s.lo);
  }

  lemma BackRegions(it: Item, lo: seq<Slot>, most: nat)
    requires it.JobFrame? && Held(it, lo) && it.count <= most
    requires forall i :: 0 <= i < |lo| ==> Wide(lo[i], most)
    ensures Regions(HandBack(it, lo)) == Regions(lo) + if it.last then 1 else 0
    ensures forall i :: 0 <= i < |HandBack(it, lo)| ==> Wide(HandBack(it, lo)[i], most)
  {
    var back := HandBack(it, lo);
    hide Stream, ItemUnits, SlotOk;
    if it.last {
      assert back[1..] == lo;
    } else {
      assert back[1..] == lo[1..];
      assert Wide(lo[0], most);
    }
  }

  lemma GiveBackKeeps(s: Session, maxJobs: nat, most: nat)
    requires Inv(s, maxJobs, most) && s.held.Some? && s.held.value.JobFrame?
    ensures Inv(Do(s, GiveBack, maxJobs, most), maxJobs, most)
  {
    var it := s.held.value;
    HandBackKeepsStream(it, s.lo);
    BackRegions(it, s.lo, most);
    hide Stream, ItemUnits, HandBack, Held, LoOk, Regions, Wide;
    assert [] + (ItemUnits(it) + Stream(s.lo)) == ItemUnits(it) + Stream(s.lo);
  }

  lemma SendKeeps(s: Session, maxJobs: nat, most: nat)
    requires Inv(s, maxJobs, most) && s.held.Some?
    ensures Inv(Do(s, Send, maxJobs, most), maxJobs, most)
  {
    hide Stream, ItemUnits;
    var u, rest := ItemUnits(s.held.value), Stream(s.lo);
    assert s.delivered + (u + rest) == (s.delivered + u) + ([] + rest);
  }

  lemma DoKeeps(s: Session, a: Act, maxJobs: nat, most: nat)
    requires Inv(s, maxJobs, most) && ActOk(a, most)
    ensures Inv(Do(s, a, maxJobs, most), maxJobs, most)
  {
    match a {
      case TakeNext => if s.held.None? && s.lo != [] { TakeKeeps(s, maxJobs, most); }
      case GiveBack => if s.held.Some? && s.held.value.JobFrame? { GiveBackKeeps(s, maxJobs, most); }
      case Send => if s.held.Some? { SendKeeps(s, maxJobs, most); }
      case _ => PushKeeps(s, a, maxJobs, most);
    }
  }

  ghost function RunActs(s: Session, acts: seq<Act>, maxJobs: nat, most: nat): Session
    requires Inv(s, maxJobs, most) && forall i :: 0 <= i < |acts| ==> ActOk(acts[i], most)
    decreases |acts|
  {
    if acts == [] then s
    else
      DoKeeps(s, acts[0], maxJobs, most);
      RunActs(Do(s, acts[0], maxJobs, most), acts[1..], maxJobs, most)
  }

  lemma {:induction false} RunKeeps(s: Session, acts: seq<Act>, maxJobs: nat, most: nat)
    requires Inv(s, maxJobs, most) && forall i :: 0 <= i < |acts| ==> ActOk(acts[i], most)
    ensures Inv(RunActs(s, acts, maxJobs, most), maxJobs, most)
    decreases |acts|
  {
    hide Do;
    if acts != [] {
      DoKeeps(s, acts[0], maxJobs, most);
      RunKeeps(Do(s, acts[0], maxJobs, most), acts[1..], maxJobs, most);
    }
  }

  /** Over every run of pushes, takes, hand-backs and sends: what was delivered, then what the writer
      holds, then what is pending, is exactly what was accepted, in order; no frame is larger than its
      job allows; and there is never more than one region over the limit. */
  lemma StreamIsExact(acts: seq<Act>, maxJobs: nat, most: nat)
    requires forall i :: 0 <= i < |acts| ==> ActOk(acts[i], most)
    ensures var start := Session([], None, [], []);
      && Inv(start, maxJobs, most)
      && var s := RunActs(start, acts, maxJobs, most);
      && LoOk(s.lo) && (s.held.Some? ==> ItemOk(s.held.value))
      && s.accepted == s.delivered + (HeldUnits(s.held) + Stream(s.lo))
      && (s.held.Some? && s.held.value.JobFrame? ==> s.held.value.count <= most)
      && Regions(s.lo) <= maxJobs + 1
  {
    RunKeeps(Session([], None, [], []), acts, maxJobs, most);
  }

  // --- what a frame says on the wire --------------------------------------------------------------

  /** The wire line of a job's frame. */
  function WireLine(deflate: Transform, it: Item): string
    requires it.JobFrame? && ItemOk(it)
  {
    SnapzLine(deflate, if it.count == 0 then [] else it.recs.recs[it.off..it.off + it.count])
  }

  /** A client reads a frame's records back out of its line, exactly those the stream promised. */
  lemma FrameDecodes(deflate: Transform, inflate: Transform, it: Item)
    requires it.JobFrame? && ItemOk(it) && forall b: seq<byte> :: inflate(deflate(b)) == b
    ensures var r := ReadLine(inflate, WireLine(deflate, it));
      && r.Ok? && r.value.0 == it.count == |r.value.1|
      && ItemUnits(it) == if it.count == 0 then [EmptyAnswer] else Records(r.value.1)
  {
    hide ReadLine, SnapzLine;
    LineRoundTrip(deflate, inflate, if it.count == 0 then [] else it.recs.recs[it.off..it.off + it.count]);
  }

  // --- the queue object ---------------------------------------------------------------------------

  datatype Limits = Limits(hiMaxBytes: nat, loMaxBytes: nat, maxRegionJobs: nat)

  function HiSize(hi: seq<string>): nat { if hi == [] then 0 else |hi[0]| + HiSize(hi[1..]) }

  function BlobSize(s: Slot): nat { if s.Blob? then |s.text| else 0 }

  function LoSize(lo: seq<Slot>): nat { if lo == [] then 0 else BlobSize(lo[0]) + LoSize(lo[1..]) }

  lemma {:induction false} HiSizePush(hi: seq<string>, line: string)
    ensures HiSize(hi + [line]) == HiSize(hi) + |line|
  {
    if hi == [] {
      assert hi + [line] == [line] && HiSize([line]) == |line| + HiSize([]);
    } else {
      assert (hi + [line])[1..] == hi[1..] + [line];
      HiSizePush(hi[1..], line);
    }
  }

  /** Dropping one more line from the front. */
  lemma {:induction false} DropOne(was: seq<string>, d: nat)
    requires d < |was|
    ensures was[d..][1..] == was[d + 1..] && HiSize(was[..d + 1]) == HiSize(was[..d]) + |was[d]|
    ensures HiSize(was[d..]) == |was[d]| + HiSize(was[d + 1..])
  {
    assert was[..d + 1] == was[..d] + [was[d]];
    HiSizePush(was[..d], was[d]);
  }

  lemma {:induction false} LoSizePush(lo: seq<Slot>, s: Slot)
    ensures LoSize(lo + [s]) == LoSize(lo) + BlobSize(s)
    ensures Regions(lo + [s]) == Regions(lo) + if IsRegion(s) then 1 else 0
  {
    if lo == [] {
      assert lo + [s] == [s] && LoSize([s]) == BlobSize(s) + LoSize([]);
      assert Regions([s]) == (if IsRegion(s) then 1 else 0) + Regions([]);
    } else {
      assert (lo + [s])[1..] == lo[1..] + [s];
      LoSizePush(lo[1..], s);
    }
  }

  class ClientQueue {
    var limits: Limits
    var hi: seq<string>
    var lo: seq<Slot>
    var hiBytes: nat
    var loBytes: nat
    var regionJobs: nat
    var peakBytes: nat
    var droppedLines: nat
    var droppedBytes: nat
    var overBudget: bool

    /** The byte and job counters always match the contents. */
    ghost predicate Valid()
      reads this
    {
      && hiBytes == HiSize(hi) && loBytes == LoSize(lo) && regionJobs == Regions(lo)
      && LoOk(lo) && (forall i :: 0 <= i < |hi| ==> hi[i] != "")
      && hiBytes + loBytes <= peakBytes
    }

    constructor (limits: Limits)
      ensures Valid() && this.limits == limits && hi == [] && lo == [] && !overBudget
      ensures droppedLines == 0 && droppedBytes == 0
    {
      this.limits := limits;
      hi, lo, hiBytes, loBytes, regionJobs, peakBytes := [], [], 0, 0, 0, 0;
      droppedLines, droppedBytes, overBudget := 0, 0, false;
    }

    method NotePeak()
      modifies this`peakBytes
      ensures peakBytes == Max(old(peakBytes), hiBytes + loBytes)
    {
      if hiBytes + loBytes > peakBytes { peakBytes := hiBytes + loBytes; }
    }

    /** Drop the oldest lines, and no more of them than it takes, to make room for one of this length. */
    method MakeRoom(need: nat) returns (ghost d: nat, clean: bool)
      requires hiBytes == HiSize(hi)
      modifies this`hi, this`hiBytes, this`droppedLines, this`droppedBytes
      ensures d <= |old(hi)| && hi == old(hi)[d..] && hiBytes == HiSize(hi) <= old(hiBytes) && (clean <==> d == 0)
      ensures hi == [] || hiBytes + need <= limits.hiMaxBytes
      ensures d > 0 ==> HiSize(old(hi)[d - 1..]) + need > limits.hiMaxBytes
      ensures droppedLines == old(droppedLines) + d && droppedBytes == old(droppedBytes) + HiSize(old(hi)[..d])
    {
      d, clean := 0, true;
      while hi != [] && hiBytes + need > limits.hiMaxBytes
        invariant d <= |old(hi)| && hi == old(hi)[d..] && hiBytes == HiSize(hi) <= old(hiBytes) && (clean <==> d == 0)
        invariant d > 0 ==> HiSize(old(hi)[d - 1..]) + need > limits.hiMaxBytes
        invariant droppedLines == old(droppedLines) + d && droppedBytes == old(droppedBytes) + HiSize(old(hi)[..d])
        decreases |hi|
      {
        DropOne(old(hi), d);
        hide HiSize;
        var lost := |hi[0]|;
        hiBytes := hiBytes - lost;
        hi := hi[1..];
        droppedLines, droppedBytes, clean := droppedLines + 1, droppedBytes + lost, false;
        d := d + 1;
      }
    }

    /** Queue a line that order does not matter for, dropping the oldest ones to make room. The new
        line always goes in; what is dropped is counted, and is no more than it takes. */
    method PushHi(line: string) returns (clean: bool)
      requires Valid()
      modifies this`hi, this`hiBytes, this`droppedLines, this`droppedBytes, this`peakBytes
      ensures Valid()
      ensures line == "" ==> hi == old(hi) && clean
      ensures line != "" ==> |hi| > 0 && hi[|hi| - 1] == line && hiBytes <= Max(limits.hiMaxBytes, |line|)
      ensures line != "" ==> var d := |old(hi)| + 1 - |hi|;
        && 0 <= d && hi == old(hi)[d..] + [line] && (clean <==> d == 0)
        && (d > 0 ==> HiSize(old(hi)[d - 1..]) + |line| > limits.hiMaxBytes)
        && droppedLines == old(droppedLines) + d && droppedBytes == old(droppedBytes) + HiSize(old(hi)[..d])
    {
      if line == "" { return true; }
      ghost var d;
      d, clean := MakeRoom(|line|);
      HiSizePush(hi, line);
      if hi == [] { assert HiSize(hi) == 0; }
      hide HiSize, LoSize, Regions, LoOk;
      assert forall i :: 0 <= i < |hi| ==> hi[i] == old(hi)[d + i];
      hiBytes := hiBytes + |line|;
      hi := hi + [line];
      NotePeak();
    }

    /** Queue world state the client cannot ask for again. Refused only once the backlog is over budget. */
    method PushWorld(text: string, shared: bool) returns (ok: bool)
      requires Valid()
      modifies this`lo, this`loBytes, this`peakBytes, this`overBudget
      ensures Valid()
      ensures ok == (text == "" || old(loBytes) <= limits.loMaxBytes)
      ensures lo == if ok && text != "" then old(lo) + [Blob(text, shared)] else old(lo)
      ensures overBudget == (old(overBudget) || !ok)
    {
      if text == "" { return true; }
      if loBytes > limits.loMaxBytes { overBudget := true; return false; }
      LoSizePush(lo, Blob(text, shared));
      StreamPush(lo, Blob(text, shared));
      loBytes := loBytes + |text|;
      lo := lo + [Blob(text, shared)];
      NotePeak();
      return true;
    }

    /** Queue the answer to a request the client can make again: only if it fits the budget. */
    method PushAnswer(text: string, shared: bool) returns (ok: bool)
      requires Valid()
      modifies this`lo, this`loBytes, this`peakBytes
      ensures Valid()
      ensures ok == (text == "" || old(loBytes) + |text| <= limits.loMaxBytes)
      ensures lo == if ok && text != "" then old(lo) + [Blob(text, shared)] else old(lo)
    {
      if text == "" { return true; }
      if loBytes + |text| > limits.loMaxBytes { return false; }
      LoSizePush(lo, Blob(text, shared));
      StreamPush(lo, Blob(text, shared));
      loBytes := loBytes + |text|;
      lo := lo + [Blob(text, shared)];
      NotePeak();
      return true;
    }

    /** Queue a scanned reply for lazy encoding, within the limit on regions in flight. */
    method PushRegion(job: Job) returns (ok: bool)
      requires Valid() && job.cursor == 0
      modifies this`lo, this`regionJobs
      ensures Valid() && ok == (Regions(old(lo)) < limits.maxRegionJobs)
      ensures lo == match Pushed(PushJob(job), old(lo), limits.maxRegionJobs) case None => old(lo) case Some(s) => old(lo) + [s]
    {
      if regionJobs >= limits.maxRegionJobs { return false; }
      if job.Total() == 0 && !job.emptyFrame { return true; }
      var j := if job.frameRecords == 0 then job.(frameRecords := FRAME_RECORDS) else job;
      LoSizePush(lo, Slot.Pending(j));
      StreamPush(lo, Slot.Pending(j));
      regionJobs := regionJobs + 1;
      lo := lo + [Slot.Pending(j)];
      return true;
    }

    /** Queue a reply answered from the region cache, with the same admission. */
    method PushCachedRegion(reply: Reply) returns (ok: bool)
      requires Valid()
      modifies this`lo, this`regionJobs
      ensures Valid() && ok == (Regions(old(lo)) < limits.maxRegionJobs)
      ensures lo == match Pushed(PushReply(reply), old(lo), limits.maxRegionJobs) case None => old(lo) case Some(s) => old(lo) + [s]
    {
      if regionJobs >= limits.maxRegionJobs { return false; }
      if reply.frames == [] { return true; }
      LoSizePush(lo, Slot.Cached(reply, 0));
      StreamPush(lo, Slot.Cached(reply, 0));
      regionJobs := regionJobs + 1;
      lo := lo + [Slot.Cached(reply, 0)];
      return true;
    }

    method PopRegion()
      requires lo != []
      modifies this`lo, this`regionJobs
      ensures lo == old(lo)[1..] && regionJobs == if old(regionJobs) > 0 then old(regionJobs) - 1 else 0
    {
      if regionJobs > 0 { regionJobs := regionJobs - 1; }
      lo := lo[1..];
    }

    /** Hand the writer the next thing to send: every latency-sensitive line first, then one turn of
        the world-state stream. */
    method Take() returns (r: Option<Item>)
      requires Valid()
      modifies this`hi, this`lo, this`hiBytes, this`loBytes, this`regionJobs
      ensures Valid()
      ensures r.None? <==> old(hi) == [] && old(lo) == []
      ensures old(hi) != [] ==> r == Some(Bytes(old(hi)[0])) && hi == old(hi)[1..] && lo == old(lo)
      ensures old(hi) == [] ==> hi == []
      ensures old(hi) == [] && old(lo) != [] ==> r.Some? && (r.value, lo) == TakeFront(old(lo))
      ensures old(hi) == [] && old(lo) == [] ==> lo == []
    {
      if hi != [] {
        var line := hi[0];
        hiBytes := hiBytes - |line|;
        hi := hi[1..];
        return Some(Bytes(line));
      }
      if lo == [] { return None; }
      r := TakeTurn();
    }

    method TakeTurn() returns (r: Option<Item>)
      requires Valid() && lo != []
      modifies this`lo, this`loBytes, this`regionJobs
      ensures Valid() && r.Some? && (r.value, lo) == TakeFront(old(lo))
    {
      TakeKeepsStream(lo);
      hide Stream, Held, ItemUnits;
      match lo[0]
      case Blob(text, shared) =>
        loBytes := loBytes - |text|;
        lo := lo[1..];
        r := Some(if shared then SharedBytes(text) else Bytes(text));
      case Cached(_, _) =>
        r := TakeCachedFrame();
      case Pending(j) =>
        r := TakeJobFrame();
    }

    /** The front slot part way through: its counters do not change. */
    method Advance(s: Slot)
      requires Valid() && lo != [] && IsRegion(lo[0]) && IsRegion(s) && LoOk([s] + lo[1..])
      modifies this`lo
      ensures Valid() && lo == [s] + old(lo)[1..]
    {
      hide LoOk;
      assert ([s] + lo[1..])[1..] == lo[1..];
      lo := [s] + lo[1..];
    }

    method TakeCachedFrame() returns (r: Option<Item>)
      requires Valid() && lo != [] && lo[0].Cached?
      modifies this`lo, this`regionJobs
      ensures Valid() && r.Some? && (r.value, lo) == TakeFront(old(lo))
    {
      TakeKeepsStream(lo);
      FrontOk(lo);
      hide Stream, Held, ItemUnits, LoOk, AllOk;
      var reply, cursor := lo[0].reply, lo[0].cursor;
      var f := reply.frames[cursor];
      var last := cursor + 1 == |reply.frames|;
      r := Some(CachedFrame(f.line, f.records, cursor == 0, last));
      if last { PopRegion(); } else { Advance(Slot.Cached(reply, cursor + 1)); }
    }

    /** The next frame of a job, and how many of its records it takes. */
    method SliceJob(j: Job) returns (it: Item, n: nat, last: bool)
      requires JobOk(j) && j.Total() > 0
      ensures last <==> j.cursor + n == j.Total()
      ensures TakeSlot(Slot.Pending(j)) == (it, if last then None else Some(Slot.Pending(j.(cursor := j.cursor + n))))
    {
      var left := j.Total() - j.cursor;
      n := if left < j.frameRecords then left else j.frameRecords;
      last := j.cursor + n == j.Total();
      it := JobFrame(j.recs, j.cursor, n, j.cursor == 0, last, j.cacheable, j.tag);
    }

    method TakeJobFrame() returns (r: Option<Item>)
      requires Valid() && lo != [] && lo[0].Pending?
      modifies this`lo, this`regionJobs
      ensures Valid() && r.Some? && (r.value, lo) == TakeFront(old(lo))
    {
      TakeKeepsStream(lo);
      FrontOk(lo);
      var j := lo[0].job;
      assert lo[0] == Slot.Pending(j);
      if j.Total() == 0 {
        PopRegion();
        return Some(JobFrame(null, 0, 0, true, true, j.cacheable, j.tag));
      }
      var it, n, last := SliceJob(j);
      hide Stream, Held, ItemUnits, LoOk, AllOk, TakeSlot;
      if last { PopRegion(); } else { Advance(Slot.Pending(j.(cursor := j.cursor + n))); }
      return Some(it);
    }

    /** Hand back a frame the writer could not encode in time. Only the last taken frame can come back. */
    method RequeueFront(it: Item) returns (ok: bool)
      requires Valid() && Held(it, lo)
      modifies this`lo, this`regionJobs
      ensures Valid() && ok == it.JobFrame?
      ensures lo == if ok then HandBack(it, old(lo)) else old(lo)
      ensures ok ==> Stream(lo) == ItemUnits(it) + Stream(old(lo))
    {
      if !it.JobFrame? { return false; }
      HandBackKeepsStream(it, lo);
      if lo != [] && lo[0].Pending? && it.recs != null && lo[0].job.recs == it.recs && lo[0].job.cursor == it.off + it.count {
        lo := [Slot.Pending(lo[0].job.(cursor := it.off))] + lo[1..];
      } else {
        lo := [Slot.Pending(Job(it.recs, it.off, if it.count > 0 then it.count else FRAME_RECORDS, it.count == 0, it.cacheable, it.tag))] + lo;
        regionJobs := regionJobs + 1;
      }
      return true;
    }

    /** Discard the pending world state of a client that is leaving. */
    method DropLo()
      requires Valid()
      modifies this`lo, this`loBytes, this`regionJobs
      ensures Valid() && lo == []
    {
      lo, loBytes, regionJobs := [], 0, 0;
    }
  }
}
