/**
 The encoded-region cache: column generations that say when a box last changed, and the LRU of
 finished replies bounded by the bytes it holds.
 */
module RegionCache {
  import opened Voxels
  import opened RegionQuery

  // --- column generations -------------------------------------------------------------------

  const TILE := 256

  /** The slot of a chunk column: the world folds onto a tile of 256 x 256 columns. */
  function ColumnSlot(cx: int, cz: int): (s: nat)
    ensures s < TILE * TILE
  {
    cx % TILE * TILE + cz % TILE
  }

  /** The generation table as a value. */
  datatype Gens = Gens(gen: seq<nat>, now: nat, floor: nat) {
    ghost predicate Valid() {
      |gen| == TILE * TILE && floor <= now && forall s :: 0 <= s < |gen| ==> gen[s] <= now
    }

    /** A cell at block (x, z) changed. */
    function Bump(x: int, z: int): (g: Gens)
      requires |gen| == TILE * TILE
      ensures Valid() ==> g.Valid()
    {
      Gens(gen[ColumnSlot(x / CHUNK, z / CHUNK) := now + 1], now + 1, floor)
    }

    /** Everything changed. */
    function BumpAll(): (g: Gens)
      ensures Valid() ==> g.Valid()
    {
      Gens(gen, now + 1, now + 1)
    }

    /** No column the box covers has a generation newer than the stamp. */
    ghost predicate Unchanged(b: Box, stamp: nat)
      requires |gen| == TILE * TILE
    {
      floor <= stamp && forall cx, cz :: Covers(b, cx, cz) ==> gen[ColumnSlot(cx, cz)] <= stamp
    }
  }

  ghost predicate Covers(b: Box, cx: int, cz: int) {
    b.x0 / CHUNK <= cx <= b.x1 / CHUNK && b.z0 / CHUNK <= cz <= b.z1 / CHUNK
  }

  /** A column past the tile's edge shares its slot with one inside it. */
  lemma FoldedColumn(lo: int, cx: int) returns (c: int)
    requires lo <= cx
    ensures lo <= c < lo + TILE && c <= cx && c % TILE == cx % TILE
  {
    c := lo + (cx - lo) % TILE;
    assert (cx - c) % TILE == 0 by { assert cx - c == (cx - lo) / TILE * TILE; }
  }

  function ClampSpan(n: int): nat { if n < 0 then 0 else if n > TILE then TILE else n }

  class ColumnGens {
    var gen: array<nat>
    var now: nat
    var floor: nat

    ghost function State(): Gens
      reads this, gen
    {
      Gens(gen[..], now, floor)
    }

    ghost predicate Valid()
      reads this, gen
    {
      State().Valid()
    }

    constructor ()
      ensures Valid() && fresh(gen) && now == 0 && floor == 0
    {
      gen := new nat[TILE * TILE](_ => 0);
      now, floor := 0, 0;
    }

    method Bump(x: int, z: int)
      requires Valid()
      modifies this`now, gen
      ensures Valid() && gen == old(gen) && State() == old(State()).Bump(x, z)
    {
      now := now + 1;
      gen[ColumnSlot(x / CHUNK, z / CHUNK)] := now;
    }

    method BumpAll()
      requires Valid()
      modifies this`now, this`floor
      ensures Valid() && State() == old(State()).BumpAll()
    {
      now := now + 1;
      floor := now;
    }

    /** The newest generation of any column the box covers: the sweep stops at one tile's edge, and
        loses none by it. */
    method NewestIn(b: Box) returns (m: nat)
      requires Valid()
      ensures floor <= m && forall cx, cz :: Covers(b, cx, cz) ==> gen[ColumnSlot(cx, cz)] <= m
      ensures m == floor || exists cx, cz :: Covers(b, cx, cz) && gen[ColumnSlot(cx, cz)] == m
    {
      m := floor;
      var cx0, cz0 := b.x0 / CHUNK, b.z0 / CHUNK;
      var nx, nz := ClampSpan(b.x1 / CHUNK - cx0 + 1), ClampSpan(b.z1 / CHUNK - cz0 + 1);
      for i := 0 to nx
        invariant floor <= m
        invariant forall cx, cz :: cx0 <= cx < cx0 + i && cz0 <= cz < cz0 + nz ==> gen[ColumnSlot(cx, cz)] <= m
        invariant m == floor || exists cx, cz :: Covers(b, cx, cz) && gen[ColumnSlot(cx, cz)] == m
      {
        var cx := cx0 + i;
        for j := 0 to nz
          invariant floor <= m
          invariant forall cx, cz :: cx0 <= cx < cx0 + i && cz0 <= cz < cz0 + nz ==> gen[ColumnSlot(cx, cz)] <= m
          invariant forall cz :: cz0 <= cz < cz0 + j ==> gen[ColumnSlot(cx, cz)] <= m
          invariant m == floor || exists cx, cz :: Covers(b, cx, cz) && gen[ColumnSlot(cx, cz)] == m
        {
          var g := gen[ColumnSlot(cx, cz0 + j)];
          if g > m {
            m := g;
            assert Covers(b, cx, cz0 + j);
          }
        }
      }
      forall cx, cz | Covers(b, cx, cz)
        ensures gen[ColumnSlot(cx, cz)] <= m
      {
        var fx := FoldedColumn(cx0, cx);
        var fz := FoldedColumn(cz0, cz);
        assert ColumnSlot(fx, fz) == ColumnSlot(cx, cz);
      }
    }

    method UnchangedSince(b: Box, stamp: nat) returns (ok: bool)
      requires Valid()
      ensures ok <==> State().Unchanged(b, stamp)
    {
      var m := NewestIn(b);
      ok := m <= stamp;
    }
  }

  // --- replies ------------------------------------------------------------------------------

  datatype CacheKey = CacheKey(x0: int, x1: int, z0: int, z1: int, emptyFrame: bool) {
    function KeyBox(): Box { Box(x0, x1, z0, z1) }
  }

  function KeyOf(b: Box, emptyFrame: bool): CacheKey { CacheKey(b.x0, b.x1, b.z0, b.z1, emptyFrame) }

  datatype Frame = Frame(line: string, records: nat)

  function SumBytes(fs: seq<Frame>): nat { if fs == [] then 0 else SumBytes(fs[..|fs| - 1]) + |fs[|fs| - 1].line| }
  function SumRecords(fs: seq<Frame>): nat { if fs == [] then 0 else SumRecords(fs[..|fs| - 1]) + fs[|fs| - 1].records }

  /** A whole reply as it went out, and the generation its box was scanned at. */
  datatype Reply = Reply(frames: seq<Frame>, bytes: nat, records: nat, stamp: nat) {
    ghost predicate Valid() { bytes == SumBytes(frames) && records == SumRecords(frames) }

    function Add(line: string, recs: nat): (r: Reply)
      ensures Valid() ==> r.Valid()
    {
      var fs := frames + [Frame(line, recs)];
      assert fs[..|fs| - 1] == frames;
      Reply(fs, bytes + |line|, records + recs, stamp)
    }
  }

  // --- the LRU ------------------------------------------------------------------------------

  function Without(s: seq<CacheKey>, k: CacheKey): seq<CacheKey> {
    if s == [] then []
    else if s[0] == k then Without(s[1..], k)
    else [s[0]] + Without(s[1..], k)
  }

  ghost predicate Unique(s: seq<CacheKey>) { forall i, j :: 0 <= i < j < |s| ==> s[i] != s[j] }

  lemma {:induction false} WithoutExact(s: seq<CacheKey>, k: CacheKey)
    ensures forall x :: x in Without(s, k) <==> x in s && x != k
    ensures |Without(s, k)| <= |s|
    ensures k !in s ==> Without(s, k) == s
    ensures Unique(s) ==> Unique(Without(s, k))
  {
    if s != [] {
      WithoutExact(s[1..], k);
      if Unique(s) {
        assert Unique(s[1..]) && s[0] !in s[1..];
      }
    }
  }

  /** The cache as a value: entries, and their keys from most to least recently used. */
  datatype Cache = Cache(maxBytes: nat, entries: map<CacheKey, Reply>, order: seq<CacheKey>) {
    ghost predicate Shape() {
      Unique(order) && forall k :: k in order <==> k in entries
    }

    function Bytes(): nat
      requires forall k :: k in order ==> k in entries
    {
      Total(entries, order)
    }

    ghost predicate Valid() { Shape() && Bytes() <= maxBytes }

    function Erase(k: CacheKey): Cache { this.(entries := entries - {k}, order := Without(order, k)) }

    function EvictTo(limit: int): Cache
      requires forall k :: k in order ==> k in entries
      decreases |order|
    {
      if Bytes() > limit && order != [] then
        EvictShrinks(this, order[|order| - 1]);
        Erase(order[|order| - 1]).EvictTo(limit)
      else this
    }

    function SetMaxBytes(n: nat): Cache
      requires forall k :: k in order ==> k in entries
    {
      this.(maxBytes := n).EvictTo(n)
    }

    /** A lookup serves an entry whose box has not changed since its scan; a stale one is dropped. */
    ghost function Find(k: CacheKey, g: Gens): (Cache, Option<Reply>)
      requires |g.gen| == TILE * TILE
    {
      if maxBytes == 0 || k !in entries then (this, None)
      else if !g.Unchanged(k.KeyBox(), entries[k].stamp) then (Erase(k), None)
      else (this.(order := [k] + Without(order, k)), Some(entries[k]))
    }

    /** File a reply, unless it is too big or no newer than the one held; the least recently used make room. */
    function Insert(k: CacheKey, e: Reply): (Cache, bool)
      requires forall k :: k in order ==> k in entries
    {
      if maxBytes == 0 || e.bytes > maxBytes / 4 then (this, false)
      else if k in entries && entries[k].stamp >= e.stamp then (this, false)
      else
        WithoutExact(order, k);
        var c := Erase(k).EvictTo(maxBytes - e.bytes);
        (c.(entries := c.entries[k := e], order := [k] + c.order), true)
    }
  }

  function Total(entries: map<CacheKey, Reply>, order: seq<CacheKey>): nat
    requires forall k :: k in order ==> k in entries
  {
    if order == [] then 0 else entries[order[0]].bytes + Total(entries, order[1..])
  }

  lemma EvictShrinks(c: Cache, k: CacheKey)
    requires (forall x :: x in c.order ==> x in c.entries) && k in c.order
    ensures |c.Erase(k).order| < |c.order| && forall x :: x in c.Erase(k).order ==> x in c.Erase(k).entries
  {
    WithoutExact(c.order, k);
    WithoutShorter(c.order, k);
  }

  lemma {:induction false} WithoutShorter(s: seq<CacheKey>, k: CacheKey)
    requires k in s
    ensures |Without(s, k)| < |s|
  {
    WithoutExact(s[1..], k);
    if s[0] != k { WithoutShorter(s[1..], k); }
  }

  lemma {:induction false} WithoutOne(s: seq<CacheKey>, k: CacheKey)
    requires Unique(s) && k in s
    ensures |Without(s, k)| == |s| - 1
  {
    WithoutExact(s[1..], k);
    if s[0] == k {
      assert k !in s[1..];
    } else {
      WithoutOne(s[1..], k);
    }
  }

  lemma {:induction false} TotalWithout(entries: map<CacheKey, Reply>, s: seq<CacheKey>, k: CacheKey)
    requires Unique(s) && forall x :: x in s ==> x in entries
    ensures forall x :: x in Without(s, k) ==> x in entries - {k}
    ensures Total(entries - {k}, Without(s, k)) == Total(entries, s) - if k in s then entries[k].bytes else 0
  {
    WithoutExact(s, k);
    if s != [] {
      TotalWithout(entries, s[1..], k);
      if s[0] == k { assert k !in s[1..]; }
    }
  }

  lemma EraseValid(c: Cache, k: CacheKey)
    requires c.Shape()
    ensures c.Erase(k).Shape()
    ensures c.Erase(k).Bytes() == c.Bytes() - if k in c.entries then c.entries[k].bytes else 0
  {
    WithoutExact(c.order, k);
    TotalWithout(c.entries, c.order, k);
  }

  /** Evicting keeps the shape and the entries it does not drop, and stops under the limit. */
  lemma {:induction false} EvictValid(c: Cache, limit: int)
    requires c.Shape()
    ensures var d := c.EvictTo(limit);
      && d.Shape() && d.maxBytes == c.maxBytes && d.Bytes() <= c.Bytes()
      && (limit >= 0 ==> d.Bytes() <= limit)
      && (forall k :: k in d.entries ==> k in c.entries && d.entries[k] == c.entries[k])
    decreases |c.order|
  {
    if c.Bytes() > limit && c.order != [] {
      EvictShrinks(c, c.order[|c.order| - 1]);
      EraseValid(c, c.order[|c.order| - 1]);
      EvictValid(c.Erase(c.order[|c.order| - 1]), limit);
    }
  }

  lemma {:induction false} WithoutLast(s: seq<CacheKey>)
    requires Unique(s) && s != []
    ensures Without(s, s[|s| - 1]) == s[..|s| - 1]
  {
    if |s| > 1 {
      assert Unique(s[1..]);
      WithoutLast(s[1..]);
      assert s[..|s| - 1] == [s[0]] + s[1..][..|s| - 2];
    }
  }

  lemma {:induction false} TotalRestricted(entries: map<CacheKey, Reply>, fewer: map<CacheKey, Reply>, s: seq<CacheKey>)
    requires forall x :: x in s ==> x in entries && x in fewer && entries[x] == fewer[x]
    ensures Total(entries, s) == Total(fewer, s)
  {
    if s != [] { TotalRestricted(entries, fewer, s[1..]); }
  }

  /** Eviction keeps the most recently used entries and drops no more than it must: with one more
      of them the limit would be passed. */
  lemma {:induction false} EvictKeepsRecent(c: Cache, limit: int)
    requires c.Shape()
    ensures var d := c.EvictTo(limit);
      && d.order <= c.order
      && (forall k :: k in d.order ==> k in c.entries)
      && (d.order != c.order ==> Total(c.entries, c.order[..|d.order| + 1]) > limit)
    decreases |c.order|
  {
    hide Total, Without, Unique, Cache.Erase;
    EvictValid(c, limit);
    if c.Bytes() > limit && c.order != [] {
      var k := c.order[|c.order| - 1];
      var e := c.Erase(k);
      EraseLast(c);
      EvictKeepsRecent(e, limit);
      var d := e.EvictTo(limit);
      assert d == c.EvictTo(limit);
      hide Cache.EvictTo, Cache.Shape;
      if d.order == e.order {
        assert c.order[..|d.order| + 1] == c.order;
      } else {
        assert e.order[..|d.order| + 1] == c.order[..|d.order| + 1];
        TotalErased(c, k, e.order, |d.order| + 1);
      }
    }
  }

  lemma EraseLast(c: Cache)
    requires c.Shape() && c.order != []
    ensures var k := c.order[|c.order| - 1];
      var e := c.Erase(k);
      && e.Shape() && c.order == e.order + [k] && |e.order| < |c.order|
      && (forall x :: x in e.order ==> x in c.entries && x != k)
  {
    hide Total, Without;
    var k := c.order[|c.order| - 1];
    WithoutLast(c.order);
    EraseValid(c, k);
    WithoutExact(c.order, k);
  }

  lemma TotalErased(c: Cache, k: CacheKey, s: seq<CacheKey>, n: nat)
    requires n <= |s| && forall x :: x in s ==> x in c.entries && x != k
    ensures (forall x :: x in s[..n] ==> x in c.entries && x in c.Erase(k).entries)
    ensures Total(c.entries, s[..n]) == Total(c.Erase(k).entries, s[..n])
  {
    forall x | x in s[..n]
      ensures x in c.entries && x != k
    {
      assert x in s;
    }
    TotalRestricted(c.entries, c.Erase(k).entries, s[..n]);
  }

  lemma {:induction false} TotalExtends(entries: map<CacheKey, Reply>, s: seq<CacheKey>, k: CacheKey, e: Reply)
    requires k !in s && forall x :: x in s ==> x in entries
    ensures Total(entries[k := e], s) == Total(entries, s)
  {
    if s != [] { TotalExtends(entries, s[1..], k, e); }
  }

  /** The cache with one more entry, most recently used. */
  function Fronted(c: Cache, k: CacheKey, e: Reply): Cache {
    c.(entries := c.entries[k := e], order := [k] + c.order)
  }

  lemma FrontedValid(c: Cache, k: CacheKey, e: Reply)
    requires c.Shape() && k !in c.entries
    ensures Fronted(c, k, e).Shape() && Fronted(c, k, e).Bytes() == c.Bytes() + e.bytes
  {
    var d := Fronted(c, k, e);
    assert d.order[1..] == c.order;
    forall x
      ensures x in d.order <==> x in d.entries
    {
      assert x in d.order <==> x == k || x in c.order;
    }
    TotalExtends(c.entries, c.order, k, e);
  }

  lemma FindValid(c: Cache, k: CacheKey, g: Gens)
    requires c.Valid() && |g.gen| == TILE * TILE
    ensures c.Find(k, g).0.Valid() && c.Find(k, g).0.maxBytes == c.maxBytes
    ensures forall x :: x in c.Find(k, g).0.entries ==> x in c.entries && c.Find(k, g).0.entries[x] == c.entries[x]
  {
    hide Total, Without, Unique, Gens.Unchanged;
    EraseValid(c, k);
    if k in c.entries { FrontKeepsBytes(c, k); }
  }

  lemma InsertValid(c: Cache, k: CacheKey, e: Reply)
    requires c.Valid()
    ensures c.Insert(k, e).0.Valid() && c.Insert(k, e).0.maxBytes == c.maxBytes
    ensures var d := c.Insert(k, e).0;
      forall x :: x in d.entries ==> (x == k && d.entries[x] == e) || (x in c.entries && d.entries[x] == c.entries[x])
  {
    hide Total, Without;
    if c.Insert(k, e).1 {
      EraseValid(c, k);
      var f := c.Erase(k).EvictTo(c.maxBytes - e.bytes);
      EvictValid(c.Erase(k), c.maxBytes - e.bytes);
      FrontedValid(f, k, e);
    }
  }

  /** A lookup serves the entry when there is one and its box has not changed, and makes it the most recently
      used; one whose box has changed is dropped, and a miss changes nothing. */
  lemma FindServes(c: Cache, k: CacheKey, g: Gens)
    requires c.Valid() && g.Valid()
    ensures var (d, r) := c.Find(k, g);
      var still := c.maxBytes > 0 && k in c.entries && g.Unchanged(k.KeyBox(), c.entries[k].stamp);
      && (r.Some? <==> still) && (still ==> r.value == c.entries[k] && d.entries == c.entries && d.order != [] && d.order[0] == k)
      && (forall x :: x in d.entries <==> x in c.entries && (x != k || still || c.maxBytes == 0))
      && Without(d.order, k) == Without(c.order, k)
  {
    WithoutExact(c.order, k);
    WithoutExact(Without(c.order, k), k);
    if c.maxBytes > 0 && k in c.entries && g.Unchanged(k.KeyBox(), c.entries[k].stamp) {
      var rest := Without(c.order, k);
      assert ([k] + rest)[1..] == rest;
    }
  }

  /** What an insert leaves, part by part. */
  lemma InsertParts(c: Cache, k: CacheKey, e: Reply)
    requires c.Valid()
    ensures c.Erase(k).Shape() && c.Erase(k).order == Without(c.order, k) && c.Erase(k).entries == c.entries - {k}
    ensures var (d, ok) := c.Insert(k, e);
      && (ok <==> 0 < c.maxBytes && e.bytes <= c.maxBytes / 4 && !(k in c.entries && c.entries[k].stamp >= e.stamp))
      && (if ok then d == Fronted(c.Erase(k).EvictTo(c.maxBytes - e.bytes), k, e) else d == c)
  {
    hide Total, Without, Unique, Cache.EvictTo, Cache.Bytes;
    EraseValid(c, k);
  }

  lemma FrontedParts(c: Cache, k: CacheKey, e: Reply)
    ensures var d := Fronted(c, k, e);
      && d.order != [] && d.order[0] == k && d.order[1..] == c.order && k in d.entries && d.entries[k] == e
      && (forall x :: x in d.entries && x != k ==> x in c.entries && d.entries[x] == c.entries[x])
  {
  }

  /** An insert files a reply that is not too big, unless it holds one as recent: it is then the most recently
      used, the ones used before it keep their order, and no more of them go than it takes to make room. */
  lemma InsertFiles(c: Cache, k: CacheKey, e: Reply)
    requires c.Valid()
    ensures var (d, ok) := c.Insert(k, e);
      && (ok <==> 0 < c.maxBytes && e.bytes <= c.maxBytes / 4 && !(k in c.entries && c.entries[k].stamp >= e.stamp))
      && (!ok ==> d == c)
      && (ok ==> d.order != [] && d.order[0] == k && k in d.entries && d.entries[k] == e && Spared(c.Erase(k), d.order[1..], c.maxBytes - e.bytes))
      && (ok ==> forall x :: x in d.entries && x != k ==> x in c.entries && d.entries[x] == c.entries[x])
  {
    hide Total, Without, Unique, Cache.EvictTo, Cache.Insert, Cache.Erase, Fronted, Cache.Bytes, Cache.Valid;
    InsertParts(c, k, e);
    var rest := c.Erase(k);
    var f := rest.EvictTo(c.maxBytes - e.bytes);
    EvictKeepsRecent(rest, c.maxBytes - e.bytes);
    EvictValid(rest, c.maxBytes - e.bytes);
    FrontedParts(f, k, e);
  }

  /** These are the most recently used entries, and one more of them would pass the limit. */
  ghost predicate Spared(c: Cache, kept: seq<CacheKey>, limit: int) {
    && kept <= c.order && (forall x :: x in c.order ==> x in c.entries)
    && (kept != c.order ==> Total(c.entries, c.order[..|kept| + 1]) > limit)
  }

  // --- the cache object ---------------------------------------------------------------------

  datatype Stats = Stats(hits: nat, misses: nat, stale: nat, inserts: nat, evictions: nat, oversize: nat)

  function Evicted(s: Stats, n: nat): Stats { s.(evictions := s.evictions + n) }
  function Inserted(s: Stats): Stats { s.(inserts := s.inserts + 1) }
  function Oversized(s: Stats): Stats { s.(oversize := s.oversize + 1) }

  class ReplyCache {
    var maxBytes: nat
    var bytes: nat
    var entries: map<CacheKey, Reply>
    var order: seq<CacheKey>
    var stats: Stats

    ghost function State(): Cache
      reads this
    {
      Cache(maxBytes, entries, order)
    }

    /** The list and the map hold the same keys, and the byte count is their exact sum and in bounds. */
    ghost predicate Valid()
      reads this
    {
      State().Valid() && bytes == State().Bytes()
    }

    constructor (maxBytes: nat)
      ensures Valid() && State() == Cache(maxBytes, map[], []) && stats == Stats(0, 0, 0, 0, 0, 0)
    {
      this.maxBytes, bytes, entries, order := maxBytes, 0, map[], [];
      stats := Stats(0, 0, 0, 0, 0, 0);
    }

    method Erase(k: CacheKey)
      requires State().Shape() && bytes == State().Bytes() && k in entries
      modifies this`bytes, this`entries, this`order
      ensures State() == old(State()).Erase(k) && State().Shape() && bytes == State().Bytes()
      ensures |order| == |old(order)| - 1
    {
      EraseValid(State(), k);
      WithoutOne(order, k);
      bytes := bytes - entries[k].bytes;
      order := Without(order, k);
      entries := entries - {k};
    }

    method EvictTo(limit: nat)
      requires State().Shape() && bytes == State().Bytes()
      modifies this`bytes, this`entries, this`order, this`stats
      ensures State() == old(State()).EvictTo(limit) && State().Shape() && bytes == State().Bytes() && bytes <= limit
      ensures |order| <= |old(order)| && stats == Evicted(old(stats), |old(order)| - |order|)
    {
      while bytes > limit && order != []
        invariant State().Shape() && bytes == State().Bytes()
        invariant State().EvictTo(limit) == old(State()).EvictTo(limit)
        invariant |order| <= |old(order)| && stats == Evicted(old(stats), |old(order)| - |order|)
        decreases |order|
      {
        EvictShrinks(State(), order[|order| - 1]);
        Erase(order[|order| - 1]);
        stats := stats.(evictions := stats.evictions + 1);
      }
    }

    method SetMaxBytes(n: nat)
      requires Valid()
      modifies this
      ensures Valid() && State() == old(State()).SetMaxBytes(n)
      ensures |order| <= |old(order)| && stats == Evicted(old(stats), |old(order)| - |order|)
    {
      maxBytes := n;
      EvictTo(n);
    }

    method Find(k: CacheKey, gens: ColumnGens) returns (r: Option<Reply>)
      requires Valid() && gens.Valid()
      modifies this
      ensures Valid() && (State(), r) == old(State()).Find(k, gens.State())
      ensures stats == if maxBytes == 0 then old(stats)
        else if r.Some? then old(stats).(hits := old(stats).hits + 1)
        else if k in old(entries) then old(stats).(stale := old(stats).stale + 1)
        else old(stats).(misses := old(stats).misses + 1)
    {
      FindValid(State(), k, gens.State());
      if maxBytes == 0 { return None; }
      if k !in entries {
        stats := stats.(misses := stats.misses + 1);
        return None;
      }
      var ok := gens.UnchangedSince(k.KeyBox(), entries[k].stamp);
      if !ok {
        stats := stats.(stale := stats.stale + 1);
        Erase(k);
        return None;
      }
      ghost var c := State();
      order := [k] + Without(order, k);
      stats := stats.(hits := stats.hits + 1);
      FrontKeepsBytes(c, k);
      return Some(entries[k]);
    }

    /** Make room for a new entry, evicting from the least recently used end, and put it first. */
    method File(k: CacheKey, e: Reply)
      requires State().Shape() && bytes == State().Bytes() && k !in entries && e.bytes <= maxBytes
      modifies this
      ensures State() == Fronted(old(State()).EvictTo(old(maxBytes) - e.bytes), k, e)
      ensures State().Shape() && bytes == State().Bytes() && bytes <= maxBytes
      ensures |order| <= |old(order)| + 1 && stats == Inserted(Evicted(old(stats), |old(order)| + 1 - |order|))
    {
      hide Total, Without, Unique;
      EvictValid(State(), maxBytes - e.bytes);
      EvictTo(maxBytes - e.bytes);
      FrontedValid(State(), k, e);
      order := [k] + order;
      bytes := bytes + e.bytes;
      entries := entries[k := e];
      stats := stats.(inserts := stats.inserts + 1);
    }

    method Insert(k: CacheKey, e: Reply) returns (ok: bool)
      requires Valid()
      modifies this
      ensures Valid() && (State(), ok) == old(State()).Insert(k, e)
      ensures !ok ==> stats == if maxBytes > 0 && e.bytes > maxBytes / 4 then Oversized(old(stats)) else old(stats)
      ensures ok ==>
        var room := |old(order)| + 1 - |order| - if k in old(entries) then 1 else 0;
        room >= 0 && stats == Inserted(Evicted(old(stats), room))
    {
      hide Total, Without, Unique;
      if maxBytes == 0 { return false; }
      if e.bytes > maxBytes / 4 {
        stats := stats.(oversize := stats.oversize + 1);
        return false;
      }
      if k in entries && entries[k].stamp >= e.stamp { return false; }
      ghost var c := State();
      if k in entries { Erase(k); } else { EraseAbsent(State(), k); }
      File(k, e);
      InsertValid(c, k, e);
      return true;
    }

    method Clear()
      requires Valid()
      modifies this
      ensures Valid() && State() == Cache(old(maxBytes), map[], []) && stats == old(stats)
    {
      entries, order, bytes := map[], [], 0;
    }
  }

  lemma EraseAbsent(c: Cache, k: CacheKey)
    requires c.Shape() && k !in c.entries
    ensures c.Erase(k) == c
  {
    WithoutExact(c.order, k);
    assert c.entries - {k} == c.entries;
  }

  lemma FrontKeepsBytes(c: Cache, k: CacheKey)
    requires c.Shape() && k in c.entries
    ensures var d := c.(order := [k] + Without(c.order, k)); d.Shape() && d.Bytes() == c.Bytes()
  {
    hide Total, Without, Unique;
    EraseValid(c, k);
    FrontedValid(c.Erase(k), k, c.entries[k]);
    assert (c.entries - {k})[k := c.entries[k]] == c.entries;
    assert Fronted(c.Erase(k), k, c.entries[k]) == c.(order := [k] + Without(c.order, k));
  }
}
