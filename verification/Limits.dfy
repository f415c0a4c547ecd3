/**
 The rate limits on clients: the record budget of the REGION service, a bucket that may go into
 debt, and the sliding window on connects per address. Times and amounts are real numbers.
 */
module Limits {
  import opened Voxels

  // --- the record budget --------------------------------------------------------------------------

  /** What time adds. */
  function Gain(rate: real, time: real): real { time * rate }

  datatype Bucket = Bucket(capacity: real, rate: real, tokens: real, last: real, primed: bool) {
    /** Between one burst owed and one burst saved up. */
    predicate Valid() { -capacity <= tokens <= capacity }

    function Refilled(now: real): Bucket {
      if !primed then this.(last := now, primed := true)
      else if now > last then
        var t := tokens + Gain(rate, now - last);
        this.(tokens := if t > capacity then capacity else t, last := now)
      else this
    }

    /** Spend cost if there is that much; otherwise spend nothing. */
    function Allow(now: real, cost: real): (Bucket, bool) {
      var b := Refilled(now);
      if b.tokens < cost then (b, false) else (b.(tokens := b.tokens - cost), true)
    }

    /** Spend cost after the fact, into debt of one burst at most. */
    function Charge(now: real, cost: real): Bucket {
      var b := Refilled(now);
      var t := b.tokens - cost;
      b.(tokens := if t < -capacity then -capacity else t)
    }
  }

  /** May a reply of this many records be sent now? */
  function Admit(b: Bucket, now: real, records: real): (Bucket, bool) {
    if b.capacity <= 0.0 || b.rate <= 0.0 || records <= 0.0 then (b, true)
    else
      var upFront := if records < b.capacity then records else b.capacity;
      var (c, ok) := b.Allow(now, upFront);
      if !ok then (c, false)
      else (if records > upFront then c.Charge(now, records - upFront) else c, true)
  }

  class TokenBucket {
    const capacity: real
    const rate: real
    var tokens: real
    var last: real
    var primed: bool

    function State(): Bucket
      reads this
    {
      Bucket(capacity, rate, tokens, last, primed)
    }

    constructor (capacity: real, rate: real)
      ensures State() == Bucket(capacity, rate, capacity, 0.0, false)
    {
      this.capacity, this.rate, tokens, last, primed := capacity, rate, capacity, 0.0, false;
    }

    method Refill(now: real)
      modifies this
      ensures State() == old(State()).Refilled(now)
    {
      if !primed {
        last, primed := now, true;
      } else if now > last {
        tokens := tokens + Gain(rate, now - last);
        if tokens > capacity { tokens := capacity; }
        last := now;
      }
    }

    method Allow(now: real, cost: real) returns (ok: bool)
      modifies this
      ensures (State(), ok) == old(State()).Allow(now, cost)
    {
      Refill(now);
      if tokens < cost { return false; }
      tokens := tokens - cost;
      return true;
    }

    method Charge(now: real, cost: real)
      modifies this
      ensures State() == old(State()).Charge(now, cost)
    {
      Refill(now);
      tokens := tokens - cost;
      if tokens < -capacity { tokens := -capacity; }
    }

    method AdmitRegion(now: real, records: real) returns (ok: bool)
      modifies this
      ensures (State(), ok) == Admit(old(State()), now, records)
    {
      if capacity <= 0.0 || rate <= 0.0 { return true; }
      if records <= 0.0 { return true; }
      var upFront := if records < capacity then records else capacity;
      ok := Allow(now, upFront);
      if !ok { return false; }
      if records > upFront { Charge(now, records - upFront); }
      return true;
    }
  }

  datatype Ask = Ask(now: real, records: real)

  predicate InOrder(asks: seq<Ask>) { forall i, j :: 0 <= i < j < |asks| ==> asks[i].now <= asks[j].now }

  /** What an admitted reply counts for: its records, but no more than two bursts. */
  function Weight(b: Bucket, records: real): real {
    if records <= 0.0 then 0.0 else if records < 2.0 * b.capacity then records else 2.0 * b.capacity
  }

  function After(b: Bucket, asks: seq<Ask>): Bucket
    decreases |asks|
  {
    if asks == [] then b else After(Admit(b, asks[0].now, asks[0].records).0, asks[1..])
  }

  function Admitted(b: Bucket, asks: seq<Ask>): real
    decreases |asks|
  {
    if asks == [] then 0.0
    else
      var (c, ok) := Admit(b, asks[0].now, asks[0].records);
      (if ok then Weight(b, asks[0].records) else 0.0) + Admitted(c, asks[1..])
  }

  lemma RefillBound(b: Bucket, now: real)
    requires b.Valid() && b.capacity > 0.0 && b.rate > 0.0
    ensures var c := b.Refilled(now);
      && c.Valid() && c.capacity == b.capacity && c.rate == b.rate
      && (b.primed ==> c.primed && c.last == (if now > b.last then now else b.last))
      && (b.primed && now >= b.last ==> c.tokens <= b.tokens + Gain(b.rate, now - b.last))
      && (!b.primed ==> c.primed && c.last == now)
  {
    GainAdds(b.rate, 0.0, if now > b.last then now - b.last else 0.0);
    hide Gain;
  }

  /** An admitted reply takes exactly its weight out of the refilled bucket; a refused one takes nothing. */
  lemma AdmitTakes(b: Bucket, now: real, records: real)
    requires b.Valid() && b.capacity > 0.0 && b.rate > 0.0
    ensures var (c, ok) := Admit(b, now, records);
      && c.Valid() && c.capacity == b.capacity && c.rate == b.rate
      && (records <= 0.0 ==> c == b)
      && (records > 0.0 ==> c == b.Refilled(now).(tokens := b.Refilled(now).tokens - if ok then Weight(b, records) else 0.0))
  {
    RefillBound(b, now);
  }

  /** What a client may spend now: the tokens held and what time brought, one burst at most. */
  function Held(b: Bucket, now: real): (held: real)
    requires b.Valid() && b.rate > 0.0
    ensures b.tokens <= held <= b.capacity
  {
    if !b.primed || now <= b.last then b.tokens
    else
      GainAdds(b.rate, 0.0, now - b.last);
      if b.tokens + (now - b.last) * b.rate < b.capacity then b.tokens + (now - b.last) * b.rate else b.capacity
  }

  /** A reply of at most one burst is sent exactly when what the client may spend covers it, and one
      larger than a burst exactly when the bucket is full; it then pays its records, two bursts at most.
      The clock of the bucket follows, never back. */
  lemma AdmitDecides(b: Bucket, now: real, records: real)
    requires b.Valid() && b.capacity > 0.0 && b.rate > 0.0 && records > 0.0
    ensures var (c, ok) := Admit(b, now, records);
      && (records <= b.capacity ==> (ok <==> Held(b, now) >= records))
      && (records > b.capacity ==> (ok <==> Held(b, now) == b.capacity))
      && c.tokens == Held(b, now) - (if !ok then 0.0 else if records <= 2.0 * b.capacity then records else 2.0 * b.capacity)
      && c.Valid() && c.primed && c.last == (if b.primed && now < b.last then b.last else now)
      && c.capacity == b.capacity && c.rate == b.rate
  {
    RefillBound(b, now);
  }

  lemma NothingAsked(b: Bucket, now: real, records: real)
    requires records <= 0.0
    ensures Admit(b, now, records) == (b, true)
  {
  }

  /** What a client may spend adds up over time. */
  lemma HeldLater(b: Bucket, c: Bucket, now: real, later: real)
    requires b.Valid() && b.capacity > 0.0 && b.rate > 0.0 && b.primed && b.last <= now <= later
    requires c.Valid() && c == b.(tokens := Held(b, now), last := now)
    ensures Held(c, later) == Held(b, later)
  {
    GainAdds(b.rate, now - b.last, later - now);
    GainAdds(b.rate, 0.0, now - b.last);
  }

  predicate AllRefused(b: Bucket, asks: seq<Ask>)
    decreases |asks|
  {
    asks == [] || (var (c, ok) := Admit(b, asks[0].now, asks[0].records); !ok && AllRefused(c, asks[1..]))
  }

  /** However often a client is refused, it may spend as much afterwards as if it had not asked. */
  lemma {:induction false} RefusalsCostNothing(b: Bucket, asks: seq<Ask>, later: real)
    requires b.Valid() && b.capacity > 0.0 && b.rate > 0.0 && b.primed && InOrder(asks) && b.last <= later
    requires forall i :: 0 <= i < |asks| ==> b.last <= asks[i].now <= later
    requires AllRefused(b, asks)
    ensures var c := After(b, asks);
      && c.Valid() && c.primed && c.last <= later && c.capacity == b.capacity && c.rate == b.rate
      && Held(c, later) == Held(b, later)
    decreases |asks|
  {
    if asks != [] {
      var now := asks[0].now;
      var c := Admit(b, now, asks[0].records).0;
      assert asks[0].records > 0.0;
      AdmitDecides(b, now, asks[0].records);
      assert InOrder(asks[1..]);
      hide Admit, Held, Bucket.Refilled, Gain;
      HeldLater(b, c, now, later);
      RefusalsCostNothing(c, asks[1..], later);
    }
  }

  lemma FullByNow(b: Bucket, now: real)
    requires b.Valid() && b.capacity > 0.0 && b.rate > 0.0 && b.primed && b.last <= now
    requires (now - b.last) * b.rate >= 2.0 * b.capacity
    ensures Held(b, now) == b.capacity
  {
  }

  /** Nobody is locked out for longer than two bursts take to come back: whatever was refused on the
      way, the next reply is then sent, however large. */
  lemma NeverLockedOut(b: Bucket, asks: seq<Ask>, now: real, records: real)
    requires b.Valid() && b.capacity > 0.0 && b.rate > 0.0 && b.primed && InOrder(asks) && b.last <= now
    requires forall i :: 0 <= i < |asks| ==> b.last <= asks[i].now <= now
    requires AllRefused(b, asks) && (now - b.last) * b.rate >= 2.0 * b.capacity
    ensures Admit(After(b, asks), now, records).1
  {
    hide After, AllRefused, Held, Admit;
    RefusalsCostNothing(b, asks, now);
    FullByNow(b, now);
    if records > 0.0 {
      AdmitDecides(After(b, asks), now, records);
    } else {
      NothingAsked(After(b, asks), now, records);
    }
  }

  /** From any state on, what is admitted is at most what is in the bucket, one burst of debt, and
      what time adds. */
  lemma {:induction false} AdmittedBound(b: Bucket, asks: seq<Ask>, until: real)
    requires b.Valid() && b.capacity > 0.0 && b.rate > 0.0 && b.primed && InOrder(asks)
    requires forall i :: 0 <= i < |asks| ==> b.last <= asks[i].now <= until
    requires b.last <= until
    ensures Admitted(b, asks) <= b.tokens + b.capacity + Gain(b.rate, until - b.last)
    decreases |asks|
  {
    if asks == [] {
      GainAdds(b.rate, 0.0, until - b.last);
    } else {
      var now := asks[0].now;
      RefillBound(b, now);
      AdmitTakes(b, now, asks[0].records);
      var c := Admit(b, now, asks[0].records).0;
      assert InOrder(asks[1..]);
      hide Admit, Weight, Bucket.Refilled, Gain;
      AdmittedBound(c, asks[1..], until);
      GainAdds(b.rate, now - b.last, until - now);
    }
  }

  lemma GainAdds(rate: real, a: real, b: real)
    requires rate > 0.0
    ensures Gain(rate, a + b) == Gain(rate, a) + Gain(rate, b)
    ensures (a >= 0.0 ==> Gain(rate, a) >= 0.0) && (b >= 0.0 ==> Gain(rate, b) >= 0.0)
  {
  }

  /** From any state a run can reach, before it is known when it was last refilled. */
  lemma {:induction false} StretchBound(b: Bucket, asks: seq<Ask>, start: real, until: real)
    requires b.Valid() && b.capacity > 0.0 && b.rate > 0.0 && InOrder(asks) && start <= until
    requires forall i :: 0 <= i < |asks| ==> start <= asks[i].now <= until
    requires b.primed ==> forall i :: 0 <= i < |asks| ==> b.last <= asks[i].now
    ensures Admitted(b, asks) <= 2.0 * b.capacity + Gain(b.rate, until - start)
    decreases |asks|
  {
    if asks == [] {
      GainAdds(b.rate, 0.0, until - start);
    } else {
      var now := asks[0].now;
      RefillBound(b, now);
      AdmitTakes(b, now, asks[0].records);
      var c := Admit(b, now, asks[0].records).0;
      assert InOrder(asks[1..]);
      if asks[0].records <= 0.0 {
        StretchBound(b, asks[1..], start, until);
      } else {
        hide Admit, Weight, Bucket.Refilled, Gain;
        AdmittedBound(c, asks[1..], until);
        GainAdds(b.rate, now - start, until - now);
      }
    }
  }

  lemma {:induction false} AfterValid(b: Bucket, asks: seq<Ask>)
    requires b.Valid() && b.capacity > 0.0 && b.rate > 0.0 && InOrder(asks)
    requires b.primed ==> forall i :: 0 <= i < |asks| ==> b.last <= asks[i].now
    ensures var c := After(b, asks);
      && c.Valid() && c.capacity == b.capacity && c.rate == b.rate
      && (c.primed && !b.primed ==> exists i :: 0 <= i < |asks| && c.last == asks[i].now)
      && (c.primed && b.primed ==> c.last == b.last || exists i :: 0 <= i < |asks| && c.last == asks[i].now)
    decreases |asks|
  {
    if asks != [] {
      RefillBound(b, asks[0].now);
      AdmitTakes(b, asks[0].now, asks[0].records);
      var c := Admit(b, asks[0].now, asks[0].records).0;
      assert InOrder(asks[1..]);
      hide Admit, Bucket.Refilled;
      AfterValid(c, asks[1..]);
      assert forall i :: 0 <= i < |asks| - 1 ==> asks[1..][i] == asks[i + 1];
    }
  }

  /** Over every run of requests, any stretch of it admits at most two bursts and what the rate adds
      over its length, however large single replies are. */
  lemma BudgetHolds(capacity: real, rate: real, before: seq<Ask>, during: seq<Ask>)
    requires capacity > 0.0 && rate > 0.0 && InOrder(before + during) && during != []
    ensures Admitted(After(Bucket(capacity, rate, capacity, 0.0, false), before), during)
         <= 2.0 * capacity + Gain(rate, during[|during| - 1].now - during[0].now)
  {
    hide Gain, Admitted, After;
    var b := Bucket(capacity, rate, capacity, 0.0, false);
    forall i, j | 0 <= i < j < |before|
      ensures before[i].now <= before[j].now
    {
      assert (before + during)[i] == before[i] && (before + during)[j] == before[j];
    }
    forall i, j | 0 <= i < j < |during|
      ensures during[i].now <= during[j].now
    {
      assert (before + during)[|before| + i] == during[i] && (before + during)[|before| + j] == during[j];
    }
    AfterValid(b, before);
    var c := After(b, before);
    var start := during[0].now;
    forall i | 0 <= i < |before|
      ensures before[i].now <= start
    {
      assert (before + during)[i] == before[i] && (before + during)[|before|] == during[0];
    }
    StretchBound(c, during, start, during[|during| - 1].now);
  }

  // --- connects per address -----------------------------------------------------------------------

  predicate Rising(a: seq<real>) { forall i, j :: 0 <= i < j < |a| ==> a[i] <= a[j] }

  /** Any most + 1 connects in a row span a whole window. */
  predicate Spaced(a: seq<real>, most: nat, window: real) {
    forall i :: 0 <= i < |a| - most ==> a[i] <= a[i + most] - window
  }

  /** The hits kept are the last of those admitted, all but ones older than the window. */
  predicate Kept(a: seq<real>, h: seq<real>, cutoff: real) {
    |h| <= |a| && h == a[|a| - |h|..] && forall i :: 0 <= i < |a| - |h| ==> a[i] <= cutoff
  }

  function Pruned(h: seq<real>, cutoff: real): (r: seq<real>)
    ensures |r| <= |h|
  {
    if h != [] && h[0] <= cutoff then Pruned(h[1..], cutoff) else h
  }

  lemma {:induction false} PrunedKept(a: seq<real>, h: seq<real>, older: real, cutoff: real)
    requires Rising(a) && Kept(a, h, older) && older <= cutoff
    ensures Kept(a, Pruned(h, cutoff), cutoff)
    ensures forall i :: 0 <= i < |Pruned(h, cutoff)| ==> Pruned(h, cutoff)[i] > cutoff
    decreases |h|
  {
    if h != [] && h[0] <= cutoff {
      assert h[1..] == a[|a| - |h| + 1..];
      PrunedKept(a, h[1..], cutoff, cutoff);
    } else if h != [] {
      hide Rising;
      forall i | 0 <= i < |h|
        ensures h[i] > cutoff
      {
        RisesTo(a, |a| - |h|, |a| - |h| + i);
      }
    }
  }

  lemma RisesTo(a: seq<real>, i: nat, j: nat)
    requires Rising(a) && i <= j < |a|
    ensures a[i] <= a[j]
  {
  }

  function CountIn(a: seq<real>, lo: real, hi: real): nat {
    if a == [] then 0 else CountIn(a[..|a| - 1], lo, hi) + if lo < a[|a| - 1] <= hi then 1 else 0
  }

  lemma {:induction false} CountSplit(a: seq<real>, b: seq<real>, lo: real, hi: real)
    ensures CountIn(a + b, lo, hi) == CountIn(a, lo, hi) + CountIn(b, lo, hi)
    ensures CountIn(b, lo, hi) <= |b|
    ensures (forall i :: 0 <= i < |b| ==> b[i] <= lo) ==> CountIn(b, lo, hi) == 0
    ensures (forall i :: 0 <= i < |b| ==> lo < b[i] <= hi) ==> CountIn(b, lo, hi) == |b|
    decreases |b|
  {
    if b == [] {
      assert a + b == a;
    } else {
      assert (a + b)[..|a + b| - 1] == a + b[..|b| - 1];
      CountSplit(a, b[..|b| - 1], lo, hi);
    }
  }

  lemma CountAfter(a: seq<real>, k: nat, lo: real, hi: real)
    requires k <= |a| && forall i :: 0 <= i < k ==> a[i] <= lo
    ensures CountIn(a, lo, hi) == CountIn(a[k..], lo, hi) <= |a| - k
  {
    assert a == a[..k] + a[k..] && [] + a[..k] == a[..k];
    hide CountIn;
    CountSplit([], a[..k], lo, hi);
    CountSplit(a[..k], a[k..], lo, hi);
  }

  lemma InitSpaced(a: seq<real>, most: nat, window: real)
    requires Rising(a) && Spaced(a, most, window) && a != []
    ensures Rising(a[..|a| - 1]) && Spaced(a[..|a| - 1], most, window)
  {
  }

  /** Spaced connects never put more than the limit in any window, wherever it starts. */
  lemma {:induction false} WindowHolds(a: seq<real>, most: nat, window: real, start: real)
    requires Rising(a) && Spaced(a, most, window)
    ensures CountIn(a, start, start + window) <= most
    decreases |a|
  {
    if a != [] {
      if a[|a| - 1] > start + window {
        InitSpaced(a, most, window);
        hide Rising, Spaced;
        WindowHolds(a[..|a| - 1], most, window, start);
      } else {
        var k := if |a| > most then |a| - most else 0;
        hide CountIn, Rising;
        forall i | 0 <= i < k
          ensures a[i] <= start
        {
          RisesTo(a, i, k - 1);
          assert a[k - 1] <= a[k - 1 + most] - window;
        }
        CountAfter(a, k, start, start + window);
      }
    }
  }

  lemma AdmitSpaced(a: seq<real>, h: seq<real>, most: nat, window: real, now: real)
    requires Rising(a) && Spaced(a, most, window) && Kept(a, h, now - window) && |h| < most
    requires a != [] ==> a[|a| - 1] <= now
    ensures Rising(a + [now]) && Spaced(a + [now], most, window) && Kept(a + [now], h + [now], now - window)
  {
    var b := a + [now];
    forall i, j | 0 <= i < j < |b|
      ensures b[i] <= b[j]
    {
      if j == |a| && i < |a| - 1 { assert a[i] <= a[|a| - 1]; }
    }
    forall i | 0 <= i < |b| - most
      ensures b[i] <= b[i + most] - window
    {
      if i + most == |a| { assert i < |a| - |h|; }
    }
    assert (h + [now]) == b[|b| - |h| - 1..];
  }

  /** Of the connects admitted before now, those within the window are exactly the ones kept. */
  lemma RecentIs(a: seq<real>, h: seq<real>, cutoff: real, now: real)
    requires Rising(a) && Kept(a, h, cutoff) && (a != [] ==> a[|a| - 1] <= now)
    requires forall i :: 0 <= i < |h| ==> h[i] > cutoff
    ensures CountIn(a, cutoff, now) == |h|
  {
    var k := |a| - |h|;
    hide CountIn, Rising;
    forall i | 0 <= i < |h|
      ensures cutoff < h[i] <= now
    {
      assert h[i] == a[k + i];
      RisesTo(a, k + i, |a| - 1);
    }
    CountAfter(a, k, cutoff, now);
    hide Kept;
    CountSplit([], h, cutoff, now);
  }

  lemma NothingPruned(cutoff: real)
    ensures Pruned([], cutoff) == []
  {
  }

  type Hits = map<string, seq<real>>

  function Of(h: Hits, ip: string): seq<real> { if ip in h then h[ip] else [] }

  /** One address's record: its admitted connects, and the hits still kept of them. */
  ghost predicate Fine(most: nat, window: real, a: seq<real>, h: seq<real>, clock: real) {
    Rising(a) && Spaced(a, most, window) && Kept(a, h, clock - window) && (a != [] ==> a[|a| - 1] <= clock)
  }

  lemma FineLater(most: nat, window: real, a: seq<real>, h: seq<real>, clock: real, now: real)
    requires Fine(most, window, a, h, clock) && clock <= now
    ensures Fine(most, window, a, h, now)
  {
  }

  lemma FinePruned(most: nat, window: real, a: seq<real>, h: seq<real>, clock: real, now: real)
    requires Fine(most, window, a, h, clock) && clock <= now
    ensures Fine(most, window, a, Pruned(h, now - window), now)
    ensures CountIn(a, now - window, now) == |Pruned(h, now - window)|
  {
    hide Pruned, CountIn, Rising, Spaced, Kept;
    PrunedKept(a, h, clock - window, now - window);
    RecentIs(a, Pruned(h, now - window), now - window, now);
  }

  lemma FineAdmits(most: nat, window: real, a: seq<real>, h: seq<real>, now: real)
    requires Fine(most, window, a, h, now) && |h| < most
    ensures Fine(most, window, a + [now], h + [now], now)
  {
    hide Rising, Spaced, Kept;
    AdmitSpaced(a, h, most, window, now);
  }

  class ConnectLimiter {
    const most: nat
    const window: real
    const maxTracked: nat
    var hits: Hits

    /** Every connect admitted and counted, and when this object was last asked. */
    ghost var admitted: Hits
    ghost var clock: real

    ghost predicate Valid()
      reads this
    {
      forall ip :: Fine(most, window, Of(admitted, ip), Of(hits, ip), clock)
    }

    constructor (most: nat, window: real, maxTracked: nat)
      ensures Valid() && admitted == map[] && this.most == most && this.window == window && this.maxTracked == maxTracked
    {
      this.most, this.window, this.maxTracked := most, window, maxTracked;
      hits, admitted, clock := map[], map[], 0.0;
    }

    /** In every half-open interval as long as the window, an address has no more connects than allowed. */
    lemma Holds(ip: string, start: real)
      requires Valid()
      ensures CountIn(Of(admitted, ip), start, start + window) <= most
    {
      assert Fine(most, window, Of(admitted, ip), Of(hits, ip), clock);
      WindowHolds(Of(admitted, ip), most, window, start);
    }

    /** Drop every address with no hits left inside the window. */
    method Sweep(now: real)
      requires Valid() && clock <= now
      modifies this
      ensures Valid() && clock == now && admitted == old(admitted)
      ensures forall ip :: Of(hits, ip) == Pruned(Of(old(hits), ip), now - window)
      ensures forall ip :: ip in hits <==> ip in old(hits) && Pruned(old(hits)[ip], now - window) != []
    {
      hide Fine, Pruned;
      var kept := PruneAll(hits, now - window);
      NothingPruned(now - window);
      forall ip
        ensures Of(kept, ip) == Pruned(Of(hits, ip), now - window)
        ensures Fine(most, window, Of(admitted, ip), Of(kept, ip), now)
      {
        FinePruned(most, window, Of(admitted, ip), Of(hits, ip), clock, now);
      }
      hits, clock := kept, now;
    }

    static method PruneAll(hits: Hits, cutoff: real) returns (kept: Hits)
      ensures forall ip :: ip in kept <==> ip in hits && Pruned(hits[ip], cutoff) != []
      ensures forall ip :: ip in kept ==> kept[ip] == Pruned(hits[ip], cutoff)
    {
      kept := map[];
      var left := hits.Keys;
      while left != {}
        invariant left <= hits.Keys
        invariant forall ip :: ip in kept <==> ip in hits && ip !in left && Pruned(hits[ip], cutoff) != []
        invariant forall ip :: ip in kept ==> kept[ip] == Pruned(hits[ip], cutoff)
        decreases |left|
      {
        var ip :| ip in left;
        var h := Prune(hits[ip], cutoff);
        if h != [] { kept := kept[ip := h]; }
        left := left - {ip};
      }
    }

    static method Prune(h: seq<real>, cutoff: real) returns (r: seq<real>)
      ensures r == Pruned(h, cutoff)
    {
      var keep := 0;
      while keep < |h| && h[keep] <= cutoff
        invariant keep <= |h| && Pruned(h[keep..], cutoff) == Pruned(h, cutoff)
      {
        assert h[keep..][1..] == h[keep + 1..];
        keep := keep + 1;
      }
      r := h[keep..];
    }

    /** May this address connect now? A full table lets a new address through uncounted; otherwise the
        answer is exact: fewer than the limit within the last window. */
    method Allow(ip: string, now: real) returns (ok: bool, counted: bool)
      requires Valid() && clock <= now
      modifies this
      ensures Valid() && clock == now
      ensures counted ==> (ok <==> CountIn(Of(old(admitted), ip), now - window, now) < most)
      ensures admitted == if ok && counted then old(admitted)[ip := Of(old(admitted), ip) + [now]] else old(admitted)
      ensures !counted ==> ok && ip !in old(hits) && |old(hits)| >= maxTracked && |hits| >= maxTracked
    {
      if ip !in hits && |hits| >= maxTracked {
        Sweep(now);
        if |hits| >= maxTracked { return true, false; }
      }
      ok := Count(ip, now);
      counted := true;
    }

    method Count(ip: string, now: real) returns (ok: bool)
      requires Valid() && clock <= now
      modifies this
      ensures Valid() && clock == now
      ensures ok <==> CountIn(Of(old(admitted), ip), now - window, now) < most
      ensures admitted == if ok then old(admitted)[ip := Of(old(admitted), ip) + [now]] else old(admitted)
    {
      hide Fine, Pruned, CountIn;
      ghost var a := Of(admitted, ip);
      ghost var before, hitsBefore := admitted, hits;
      assert Fine(most, window, a, Of(hits, ip), clock);
      var h := Prune(Of(hits, ip), now - window);
      FinePruned(most, window, a, Of(hits, ip), clock, now);
      ok := |h| < most;
      if ok {
        FineAdmits(most, window, a, h, now);
        h := h + [now];
        admitted := admitted[ip := a + [now]];
      }
      forall q
        ensures Fine(most, window, Of(admitted, q), Of(hits[ip := h], q), now)
      {
        if q != ip {
          assert Fine(most, window, Of(before, q), Of(hitsBefore, q), clock);
          FineLater(most, window, Of(before, q), Of(hitsBefore, q), clock, now);
        }
      }
      hits, clock := hits[ip := h], now;
    }
  }
}
