/**
 The matchmaker's registry of listed servers: registrations, heartbeats, dropped connections, and a
 sweep that probes stale servers with the registry unlocked, so that other calls come in between.
 */
module Matchmaker {

  const HEARTBEAT_TTL := 45
  const MAX_REGISTRATIONS := 512

  datatype Registration = Registration(
    name: string, ip: string, port: int, hasPassword: bool, players: int, flag6: int,
    peer: string, conn: nat, lastSeen: int)

  datatype AddResult = Listed | Full | Taken | PeerLimit

  predicate SameKey(a: Registration, b: Registration) { a.ip == b.ip && a.port == b.port }

  // --- lists of rows ----------------------------------------------------------------------------

  type Test = Registration -> bool

  function Filter(es: seq<Registration>, keep: Test): seq<Registration> {
    if es == [] then []
    else Filter(es[..|es| - 1], keep) + if keep(es[|es| - 1]) then [es[|es| - 1]] else []
  }

  function Count(es: seq<Registration>, test: Test): nat {
    if es == [] then 0 else Count(es[..|es| - 1], test) + if test(es[|es| - 1]) then 1 else 0
  }

  function Map(es: seq<Registration>, f: Registration -> Registration): (r: seq<Registration>)
    ensures |r| == |es| && forall i :: 0 <= i < |es| ==> r[i] == f(es[i])
  {
    seq(|es|, i requires 0 <= i < |es| => f(es[i]))
  }

  /** Where the first row that passes is; the length when none does. */
  function First(es: seq<Registration>, test: Test): (k: nat)
    ensures k <= |es| && (k < |es| ==> test(es[k])) && forall i :: 0 <= i < k ==> !test(es[i])
  {
    if es == [] then 0
    else if test(es[0]) then 0
    else
      assert forall i :: 0 <= i < |es| - 1 ==> es[1..][i] == es[i + 1];
      1 + First(es[1..], test)
  }

  /** Two rows with different addresses and different connections. */
  predicate Apart(a: Registration, b: Registration) { !SameKey(a, b) && (a.conn != 0 ==> a.conn != b.conn) }

  /** One row per address, one row per connection, and no more rows than the registry holds. */
  predicate Ok(es: seq<Registration>) {
    |es| <= MAX_REGISTRATIONS && forall i, j :: 0 <= i < j < |es| ==> Apart(es[i], es[j])
  }

  lemma {:induction false} FilterIs(es: seq<Registration>, keep: Test)
    ensures forall e :: e in Filter(es, keep) <==> e in es && keep(e)
    ensures |Filter(es, keep)| <= |es|
  {
    if es != [] {
      assert es == es[..|es| - 1] + [es[|es| - 1]];
      FilterIs(es[..|es| - 1], keep);
    }
  }

  /** A filtered list is in order if the rows it keeps are. */
  lemma {:induction false} FilterOk(es: seq<Registration>, keep: Test)
    requires |es| <= MAX_REGISTRATIONS
    requires forall i, j :: 0 <= i < j < |es| && keep(es[i]) && keep(es[j]) ==> Apart(es[i], es[j])
    ensures Ok(Filter(es, keep))
  {
    if es != [] {
      var init, last := es[..|es| - 1], es[|es| - 1];
      FilterOk(init, keep);
      FilterIs(init, keep);
      forall e | e in Filter(init, keep) && keep(last)
        ensures Apart(e, last)
      {
        var i :| 0 <= i < |init| && init[i] == e;
        assert es[i] == e;
      }
    }
  }

  // --- the operations, as functions of the rows -------------------------------------------------

  datatype Outcome = Outcome(rows: seq<Registration>, result: AddResult, displaced: nat)

  function HasKey(reg: Registration): Test { (e: Registration) => SameKey(e, reg) }
  function OwnedBy(conn: nat): Test { (e: Registration) => conn != 0 && e.conn == conn }
  function HasConn(conn: nat): Test { (e: Registration) => e.conn == conn }
  function FromPeer(peer: string): Test { (e: Registration) => e.peer == peer }

  /** Rows that are not a connection's previous row, left behind by a move to this address. */
  function NotLeft(reg: Registration, conn: nat): Test { (e: Registration) => !(conn != 0 && e.conn == conn && !SameKey(e, reg)) }

  /** Add or replace a row. maxPerPeer of 0 means no limit. */
  function Added(es: seq<Registration>, reg: Registration, conn: nat, now: int, maxPerPeer: nat): Outcome {
    var u := reg.(conn := conn, lastSeen := now);
    var i := First(es, HasKey(reg));
    var j := First(es, OwnedBy(conn));
    if i < |es| then
      if es[i].conn != 0 && es[i].conn != conn && es[i].peer != reg.peer then Outcome(es, Taken, 0)
      else
        Outcome(Filter(es[i := u.(players := es[i].players)], NotLeft(reg, conn)),
                Listed, if es[i].conn != conn then es[i].conn else 0)
    else if j < |es| then Outcome(es[j := u.(players := es[j].players)], Listed, 0)
    else if maxPerPeer != 0 && reg.peer != "" && Count(es, FromPeer(reg.peer)) >= maxPerPeer then
      Outcome(es, PeerLimit, 0)
    else if |es| >= MAX_REGISTRATIONS then Outcome(es, Full, 0)
    else Outcome(es + [u], Listed, 0)
  }

  function Touched(es: seq<Registration>, conn: nat, now: int): seq<Registration> {
    Map(es, (e: Registration) => if e.conn == conn then e.(lastSeen := now) else e)
  }

  /** The first row of a connection, changed. */
  function FirstChanged(es: seq<Registration>, test: Test, f: Registration -> Registration): seq<Registration> {
    var i := First(es, test);
    if i < |es| then es[i := f(es[i])] else es
  }

  function Counted(es: seq<Registration>, conn: nat, players: int): seq<Registration> {
    FirstChanged(es, HasConn(conn), (e: Registration) => e.(players := players))
  }

  function Orphaned(es: seq<Registration>, conn: nat): seq<Registration> {
    FirstChanged(es, HasConn(conn), (e: Registration) => e.(conn := 0))
  }

  function NotConn(conn: nat): Test { (e: Registration) => e.conn != conn }

  function Removed(es: seq<Registration>, conn: nat): seq<Registration> {
    Filter(es, NotConn(conn))
  }

  // --- the sweep ----------------------------------------------------------------------------------

  datatype Key = Key(ip: string, port: int)

  function KeyOf(e: Registration): Key { Key(e.ip, e.port) }

  predicate Stale(e: Registration, now: int) { now - e.lastSeen > HEARTBEAT_TTL }

  /** First phase, locked: the addresses not heard from in time. */
  function StaleKeys(es: seq<Registration>, now: int): seq<Key> {
    if es == [] then []
    else StaleKeys(es[..|es| - 1], now) + if Stale(es[|es| - 1], now) then [KeyOf(es[|es| - 1])] else []
  }

  /** Between the phases, unlocked: which of them answer. */
  type Probe = Key -> bool

  function Answered(ks: seq<Key>, probe: Probe, want: bool): seq<Key> {
    if ks == [] then []
    else Answered(ks[..|ks| - 1], probe, want) + if probe(ks[|ks| - 1]) == want then [ks[|ks| - 1]] else []
  }

  function AtKey(k: Key): Test { (e: Registration) => KeyOf(e) == k }

  /** Second phase, locked: rows that answered are fresh again, rows that did not are dropped. */
  function Refreshed(es: seq<Registration>, ks: seq<Key>, now: int): seq<Registration> {
    if ks == [] then es
    else
      var k := ks[|ks| - 1];
      FirstChanged(Refreshed(es, ks[..|ks| - 1], now), AtKey(k), (e: Registration) => e.(lastSeen := now))
  }

  function Outside(ks: seq<Key>): Test { (e: Registration) => KeyOf(e) !in ks }

  function Dropped(es: seq<Registration>, ks: seq<Key>): seq<Registration> { Filter(es, Outside(ks)) }

  function Conns(es: seq<Registration>): seq<nat> {
    if es == [] then [] else Conns(es[..|es| - 1]) + [es[|es| - 1].conn]
  }

  /** Rows read back from disk: connectionless, and stale until the next sweep has probed them. */
  function Loaded(es: seq<Registration>, regs: seq<Registration>, now: int): seq<Registration>
    decreases |regs|
  {
    if regs == [] || |es| >= MAX_REGISTRATIONS then es
    else Loaded(es + [regs[0].(conn := 0, lastSeen := now - HEARTBEAT_TTL - 1)], regs[1..], now)
  }

  // --- what each operation keeps ------------------------------------------------------------------

  /** A row changed in place is still apart from every row that was not its own, if its key stays and
      its connection becomes nobody's or one that only rows to be dropped had. */
  lemma ReplaceOk(es: seq<Registration>, i: nat, v: Registration)
    requires Ok(es) && i < |es| && SameKey(es[i], v)
    ensures Ok(Filter(es[i := v], NotLeft(v, v.conn)))
  {
    var fs := es[i := v];
    var keep := NotLeft(v, v.conn);
    forall a, b | 0 <= a < b < |fs| && keep(fs[a]) && keep(fs[b])
      ensures Apart(fs[a], fs[b])
    {
      assert Apart(es[a], es[b]);
    }
    FilterOk(fs, keep);
  }

  lemma AddKeeps(es: seq<Registration>, reg: Registration, conn: nat, now: int, maxPerPeer: nat)
    requires Ok(es)
    ensures Ok(Added(es, reg, conn, now, maxPerPeer).rows)
  {
    var u := reg.(conn := conn, lastSeen := now);
    var i := First(es, HasKey(reg));
    if i < |es| {
      var v := u.(players := es[i].players);
      ReplaceOk(es, i, v);
      SameFilter(es[i := v], NotLeft(v, v.conn), NotLeft(reg, conn));
    }
  }

  lemma {:induction false} SameFilter(es: seq<Registration>, a: Test, b: Test)
    requires forall e :: a(e) == b(e)
    ensures Filter(es, a) == Filter(es, b)
  {
    if es != [] { SameFilter(es[..|es| - 1], a, b); }
  }

  /** A change of one row that keeps its address, and its connection or drops it, keeps rows unique. */
  lemma FirstChangedOk(es: seq<Registration>, test: Test, f: Registration -> Registration)
    requires Ok(es) && forall e :: SameKey(f(e), e) && (f(e).conn == e.conn || f(e).conn == 0)
    ensures Ok(FirstChanged(es, test, f))
  {
    var i := First(es, test);
    if i < |es| {
      var fs := es[i := f(es[i])];
      forall a, b | 0 <= a < b < |fs|
        ensures Apart(fs[a], fs[b])
      {
        assert Apart(es[a], es[b]);
      }
    }
  }

  lemma TouchKeeps(es: seq<Registration>, conn: nat, now: int)
    requires Ok(es)
    ensures Ok(Touched(es, conn, now))
  {
    var fs := Touched(es, conn, now);
    forall a, b | 0 <= a < b < |fs|
      ensures Apart(fs[a], fs[b])
    {
      assert Apart(es[a], es[b]);
    }
  }

  lemma {:induction false} RefreshKeeps(es: seq<Registration>, ks: seq<Key>, now: int)
    requires Ok(es)
    ensures Ok(Refreshed(es, ks, now))
  {
    if ks != [] {
      RefreshKeeps(es, ks[..|ks| - 1], now);
      FirstChangedOk(Refreshed(es, ks[..|ks| - 1], now), AtKey(ks[|ks| - 1]), (e: Registration) => e.(lastSeen := now));
    }
  }

  // --- every run ------------------------------------------------------------------------------------

  /** A sweep that is under way: what it saw in its first phase, then what its probes said. */
  datatype Sweep = Idle | Waiting(now: int, seen: seq<Registration>) | Probed(now: int, seen: seq<Registration>, probe: Probe)

  datatype State = State(rows: seq<Registration>, sweep: Sweep)

  datatype Step =
    | Add(reg: Registration, conn: nat, now: int, maxPerPeer: nat)
    | Touch(conn: nat, now: int)
    | SetPlayers(conn: nat, players: int)
    | Orphan(conn: nat)
    | Remove(conn: nat)
    | SweepStart(now: int)
    | SweepProbe(probe: Probe)
    | SweepEnd

  function Next(s: State, st: Step): State {
    match st
    case Add(reg, conn, now, most) => s.(rows := Added(s.rows, reg, conn, now, most).rows)
    case Touch(conn, now) => s.(rows := Touched(s.rows, conn, now))
    case SetPlayers(conn, n) => s.(rows := Counted(s.rows, conn, n))
    case Orphan(conn) => s.(rows := Orphaned(s.rows, conn))
    case Remove(conn) => s.(rows := Removed(s.rows, conn))
    case SweepStart(now) => if s.sweep.Idle? then s.(sweep := Waiting(now, s.rows)) else s
    case SweepProbe(probe) => if s.sweep.Waiting? then s.(sweep := Probed(s.sweep.now, s.sweep.seen, probe)) else s
    case SweepEnd =>
      if s.sweep.Probed? then
        var stale := StaleKeys(s.sweep.seen, s.sweep.now);
        State(Dropped(Refreshed(s.rows, Answered(stale, s.sweep.probe, true), s.sweep.now), Answered(stale, s.sweep.probe, false)), Idle)
      else s
  }

  lemma NextKeeps(s: State, st: Step)
    requires Ok(s.rows)
    ensures Ok(Next(s, st).rows)
  {
    hide Ok, Added, Touched, Refreshed, Filter;
    match st {
      case Add(reg, conn, now, most) => AddKeeps(s.rows, reg, conn, now, most);
      case Touch(conn, now) => TouchKeeps(s.rows, conn, now);
      case SetPlayers(conn, n) => FirstChangedOk(s.rows, HasConn(conn), (e: Registration) => e.(players := n));
      case Orphan(conn) => FirstChangedOk(s.rows, HasConn(conn), (e: Registration) => e.(conn := 0));
      case Remove(conn) => FilterRows(s.rows, NotConn(conn));
      case SweepEnd =>
        if s.sweep.Probed? {
          var stale := StaleKeys(s.sweep.seen, s.sweep.now);
          RefreshKeeps(s.rows, Answered(stale, s.sweep.probe, true), s.sweep.now);
          FilterRows(Refreshed(s.rows, Answered(stale, s.sweep.probe, true), s.sweep.now), Outside(Answered(stale, s.sweep.probe, false)));
        }
      case _ =>
    }
  }

  lemma FilterRows(es: seq<Registration>, keep: Test)
    requires Ok(es)
    ensures Ok(Filter(es, keep))
  {
    FilterOk(es, keep);
  }

  function Run(s: State, steps: seq<Step>): State
    decreases |steps|
  {
    if steps == [] then s else Run(Next(s, steps[0]), steps[1..])
  }

  /** In every interleaving, sweeps split at their probes included, there is one row per address, one
      row per connection, and never more rows than the registry holds. */
  lemma {:induction false} RunKeeps(s: State, steps: seq<Step>)
    requires Ok(s.rows)
    ensures Ok(Run(s, steps).rows)
    decreases |steps|
  {
    if steps != [] {
      NextKeeps(s, steps[0]);
      RunKeeps(Next(s, steps[0]), steps[1..]);
    }
  }

  // --- who may take a row away ------------------------------------------------------------------------

  /** What add decides, from the rows alone: which answer it gives, and when. */
  lemma AddDecides(es: seq<Registration>, reg: Registration, conn: nat, now: int, maxPerPeer: nat)
    requires Ok(es)
    ensures var r := Added(es, reg, conn, now, maxPerPeer).result;
      var known := exists e :: e in es && SameKey(e, reg);
      var owns := conn != 0 && exists e :: e in es && e.conn == conn;
      var crowded := maxPerPeer != 0 && reg.peer != "" && Count(es, FromPeer(reg.peer)) >= maxPerPeer;
      && (r == Taken <==> exists e :: e in es && SameKey(e, reg) && e.conn != 0 && e.conn != conn && e.peer != reg.peer)
      && (r == PeerLimit <==> !known && !owns && crowded)
      && (r == Full <==> !known && !owns && !crowded && |es| >= MAX_REGISTRATIONS)
    ensures var o := Added(es, reg, conn, now, maxPerPeer); o.result != Listed ==> o.rows == es && o.displaced == 0
  {
    hide Filter, Count;
    var i := First(es, HasKey(reg));
    var j := First(es, OwnedBy(conn));
    forall e | e in es && SameKey(e, reg)
      ensures i < |es| && e == es[i]
    {
      var k :| 0 <= k < |es| && es[k] == e;
      assert k >= i;
      assert k == i || Apart(es[i], es[k]);
    }
    forall e | e in es && conn != 0 && e.conn == conn
      ensures j < |es|
    {
      var k :| 0 <= k < |es| && es[k] == e;
    }
  }

  /** The player count a listed registration shows: that of the row it replaces, if there is one. */
  ghost function KeptPlayers(es: seq<Registration>, reg: Registration, conn: nat): int
    requires Ok(es)
  {
    if exists e :: e in es && SameKey(e, reg) then
      RowsDiffer(es);
      var e :| e in es && SameKey(e, reg); e.players
    else if conn != 0 && exists e :: e in es && e.conn == conn then
      RowsDiffer(es);
      var e :| e in es && e.conn == conn; e.players
    else reg.players
  }

  lemma RowsDiffer(es: seq<Registration>)
    requires Ok(es)
    ensures forall a, b :: a in es && b in es && (SameKey(a, b) || (a.conn != 0 && a.conn == b.conn)) ==> a == b
  {
    forall a, b | a in es && b in es && (SameKey(a, b) || (a.conn != 0 && a.conn == b.conn))
      ensures a == b
    {
      var i :| 0 <= i < |es| && es[i] == a;
      var j :| 0 <= j < |es| && es[j] == b;
      assert i != j ==> Apart(a, b) || Apart(b, a);
    }
  }

  /** A registration that is listed is the only row at its address, owned by its connection and heard
      from now, with the players of the row it replaces; the connection it displaces, if another had the
      address, is named, had the same peer and owns no row any more. */
  lemma AddLists(es: seq<Registration>, reg: Registration, conn: nat, now: int, maxPerPeer: nat)
    requires Ok(es) && Added(es, reg, conn, now, maxPerPeer).result == Listed
    ensures var o := Added(es, reg, conn, now, maxPerPeer);
      && reg.(conn := conn, lastSeen := now, players := KeptPlayers(es, reg, conn)) in o.rows
      && (forall e :: e in es && SameKey(e, reg) && e.conn != conn ==> o.displaced == e.conn)
      && (o.displaced != 0 ==> exists e :: e in es && SameKey(e, reg) && e.conn == o.displaced && e.peer == reg.peer)
      && (o.displaced != 0 ==> forall e :: e in o.rows ==> e.conn != o.displaced)
  {
    var u := reg.(conn := conn, lastSeen := now);
    var i := First(es, HasKey(reg));
    var j := First(es, OwnedBy(conn));
    hide Filter, Count, First;
    if i < |es| {
      var v := u.(players := es[i].players);
      var fs := es[i := v];
      FilterIs(fs, NotLeft(reg, conn));
      assert v in Filter(fs, NotLeft(reg, conn)) by { assert fs[i] == v; }
      forall e | e in Filter(fs, NotLeft(reg, conn)) && es[i].conn != conn && es[i].conn != 0
        ensures e.conn != es[i].conn
      {
        var k :| 0 <= k < |fs| && fs[k] == e;
        assert k < i ==> Apart(es[k], es[i]);
        assert i < k ==> Apart(es[i], es[k]);
      }
    } else if j < |es| {
      var v := u.(players := es[j].players);
      assert es[j := v][j] == v;
    } else {
      assert (es + [u])[|es|] == u;
    }
  }

  /** Rows of other addresses and other connections are left as they are, and every row afterwards but
      the new one was there before. */
  lemma AddFrame(es: seq<Registration>, reg: Registration, conn: nat, now: int, maxPerPeer: nat, e: Registration)
    requires Ok(es)
    ensures var o := Added(es, reg, conn, now, maxPerPeer);
      && (e in es && !SameKey(e, reg) && !OwnedBy(conn)(e) ==> e in o.rows)
      && (e in o.rows && !(SameKey(e, reg) && e.conn == conn) ==> e in es)
  {
    var u := reg.(conn := conn, lastSeen := now);
    var i := First(es, HasKey(reg));
    var j := First(es, OwnedBy(conn));
    hide Filter, Count, First;
    if i < |es| {
      var fs := es[i := u.(players := es[i].players)];
      FilterIs(fs, NotLeft(reg, conn));
      ReplacedIn(es, i, u.(players := es[i].players), e);
    } else if j < |es| {
      ReplacedIn(es, j, u.(players := es[j].players), e);
    }
  }

  lemma ReplacedIn(es: seq<Registration>, i: nat, v: Registration, e: Registration)
    requires i < |es|
    ensures e in es && e != es[i] ==> e in es[i := v]
    ensures e in es[i := v] && e != v ==> e in es
  {
    if e in es && e != es[i] {
      var k :| 0 <= k < |es| && es[k] == e;
      assert es[i := v][k] == e;
    }
    if e in es[i := v] && e != v {
      var k :| 0 <= k < |es| && es[i := v][k] == e;
      assert es[k] == e;
    }
  }

  predicate Listing(es: seq<Registration>, e: Registration) { exists x :: x in es && SameKey(x, e) }

  /** The live owner of an address. */
  predicate Owns(es: seq<Registration>, e: Registration) { exists x :: x in es && SameKey(x, e) && x.conn == e.conn }

  lemma {:induction false} StaleIs(es: seq<Registration>, now: int, k: Key)
    ensures k in StaleKeys(es, now) <==> exists e :: e in es && KeyOf(e) == k && Stale(e, now)
  {
    if es != [] {
      assert es == es[..|es| - 1] + [es[|es| - 1]];
      StaleIs(es[..|es| - 1], now, k);
    }
  }

  lemma {:induction false} AnsweredIs(ks: seq<Key>, probe: Probe, want: bool, k: Key)
    ensures k in Answered(ks, probe, want) <==> k in ks && probe(k) == want
  {
    if ks != [] {
      assert ks == ks[..|ks| - 1] + [ks[|ks| - 1]];
      AnsweredIs(ks[..|ks| - 1], probe, want, k);
    }
  }

  /** Changing the first row that passes leaves every address with the row it had, changed or not. */
  lemma ChangedListing(es: seq<Registration>, test: Test, f: Registration -> Registration, e: Registration)
    requires e in es && forall x :: SameKey(f(x), x)
    ensures Listing(FirstChanged(es, test, f), e)
    ensures (forall x :: f(x).conn == x.conn) ==> Owns(FirstChanged(es, test, f), e)
    ensures (forall x: Registration :: x.conn == e.conn ==> !test(x)) ==> e in FirstChanged(es, test, f)
  {
    var i := First(es, test);
    hide First;
    var k :| 0 <= k < |es| && es[k] == e;
    if i < |es| {
      var fs := es[i := f(es[i])];
      if k == i { assert fs[i] in fs && SameKey(fs[i], e); } else { assert fs[k] == e && e in fs && SameKey(e, e); }
    }
  }

  /** Why an address may leave the list: its connection closed, its connection moved to another
      address, or a sweep saw it stale in its first phase and its probe failed. */
  predicate MayLeave(s: State, st: Step, e: Registration) {
    || (st.Remove? && e.conn == st.conn)
    || (st.Add? && st.conn != 0 && e.conn == st.conn && !SameKey(e, st.reg))
    || (st.SweepEnd? && s.sweep.Probed? && !s.sweep.probe(KeyOf(e)) &&
        exists x :: x in s.sweep.seen && KeyOf(x) == KeyOf(e) && Stale(x, s.sweep.now))
  }

  /** Why a row may lose its owner while its address stays listed: its connection dropped, or a
      registration of the same peer came for the address. */
  predicate MayLoseOwner(st: Step, e: Registration) {
    || (st.Orphan? && e.conn == st.conn)
    || (st.Add? && SameKey(e, st.reg) && (e.conn == 0 || e.peer == st.reg.peer))
  }

  /** Over any step of any run, an address leaves the list only for those reasons, and a live row keeps
      its owner unless its own connection drops or its own peer takes the address back. */
  lemma RowsLeaveOnly(s: State, st: Step, e: Registration)
    requires Ok(s.rows) && e in s.rows
    ensures !Listing(Next(s, st).rows, e) ==> MayLeave(s, st, e)
    ensures !Owns(Next(s, st).rows, e) ==> MayLeave(s, st, e) || MayLoseOwner(st, e)
  {
    hide Filter, First, Ok, Count;
    match st {
      case Add(reg, conn, now, most) => AddLeaves(s, st, e);
      case Touch(conn, now) =>
        var k :| 0 <= k < |s.rows| && s.rows[k] == e;
        var fs := Touched(s.rows, conn, now);
        assert fs[k] in fs && SameKey(fs[k], e) && fs[k].conn == e.conn;
      case SetPlayers(conn, n) => ChangedListing(s.rows, HasConn(conn), (x: Registration) => x.(players := n), e);
      case Orphan(conn) => ChangedListing(s.rows, HasConn(conn), (x: Registration) => x.(conn := 0), e);
      case Remove(conn) => FilterIs(s.rows, NotConn(conn));
      case SweepEnd => if s.sweep.Probed? { SweepLeaves(s, e); }
      case _ =>
    }
  }

  lemma AddLeaves(s: State, st: Step, e: Registration)
    requires Ok(s.rows) && e in s.rows && st.Add?
    ensures !Listing(Next(s, st).rows, e) ==> MayLeave(s, st, e)
    ensures !Owns(Next(s, st).rows, e) ==> MayLeave(s, st, e) || MayLoseOwner(st, e)
  {
    AddDecides(s.rows, st.reg, st.conn, st.now, st.maxPerPeer);
    AddFrame(s.rows, st.reg, st.conn, st.now, st.maxPerPeer, e);
    var o := Added(s.rows, st.reg, st.conn, st.now, st.maxPerPeer);
    hide Filter, First, Ok, Count, Added;
    if o.result == Listed {
      AddLists(s.rows, st.reg, st.conn, st.now, st.maxPerPeer);
      var x :| x in o.rows && x == st.reg.(conn := st.conn, lastSeen := st.now, players := x.players);
    }
  }

  lemma SweepLeaves(s: State, e: Registration)
    requires Ok(s.rows) && e in s.rows && s.sweep.Probed?
    ensures !Owns(Next(s, SweepEnd).rows, e) ==> MayLeave(s, SweepEnd, e)
    ensures Owns(Next(s, SweepEnd).rows, e) ==> Listing(Next(s, SweepEnd).rows, e)
  {
    SweepDrops(s, e);
    hide Next, Ok;
    var x := if Renewing(s.sweep, KeyOf(e)) then e.(lastSeen := s.sweep.now) else e;
    assert x in Next(s, SweepEnd).rows ==> SameKey(x, e) && x.conn == e.conn;
  }

  /** A sweep under way will drop this address: its first phase saw it stale, and its probe failed. */
  predicate Condemned(s: Sweep, k: Key) { s.Probed? && !s.probe(k) && exists x :: x in s.seen && KeyOf(x) == k && Stale(x, s.now) }

  /** A sweep under way will make this address fresh: its first phase saw it stale, and its probe worked. */
  predicate Renewing(s: Sweep, k: Key) { s.Probed? && s.probe(k) && exists x :: x in s.seen && KeyOf(x) == k && Stale(x, s.now) }

  lemma ChangedRow(es: seq<Registration>, test: Test, f: Registration -> Registration, e: Registration)
    requires Ok(es) && e in es && forall a, b :: a in es && b in es && test(a) && test(b) ==> a == b
    ensures (if test(e) then f(e) else e) in FirstChanged(es, test, f)
  {
    var i := First(es, test);
    var k :| 0 <= k < |es| && es[k] == e;
    if i < |es| {
      var fs := es[i := f(es[i])];
      assert k == i || fs[k] == e;
      assert fs[i] == f(es[i]);
    }
  }

  lemma {:induction false} RefreshedRow(es: seq<Registration>, ks: seq<Key>, now: int, e: Registration)
    requires Ok(es) && e in es
    ensures (if KeyOf(e) in ks then e.(lastSeen := now) else e) in Refreshed(es, ks, now)
  {
    if ks != [] {
      var init, k := ks[..|ks| - 1], ks[|ks| - 1];
      RefreshedRow(es, init, now, e);
      RefreshKeeps(es, init, now);
      var fs := Refreshed(es, init, now);
      RowsDiffer(fs);
      hide Ok, Refreshed, First;
      assert forall x :: x in ks <==> x in init || x == k by { assert ks == init + [k]; }
      ChangedRow(fs, AtKey(k), (x: Registration) => x.(lastSeen := now), if KeyOf(e) in init then e.(lastSeen := now) else e);
      RefreshedStep(es, ks, now);
    }
  }

  lemma RefreshedStep(es: seq<Registration>, ks: seq<Key>, now: int)
    requires ks != []
    ensures Refreshed(es, ks, now) ==
      FirstChanged(Refreshed(es, ks[..|ks| - 1], now), AtKey(ks[|ks| - 1]), (e: Registration) => e.(lastSeen := now))
  {
  }

  /** A sweep that ends drops exactly the rows of condemned addresses, however fresh a row is by then;
      one at an address that answered is fresh as of the sweep, and any other is as it was. */
  lemma SweepDrops(s: State, e: Registration)
    requires Ok(s.rows) && e in s.rows && s.sweep.Probed?
    ensures var rows := Next(s, SweepEnd).rows;
      && (Listing(rows, e) <==> !Condemned(s.sweep, KeyOf(e)))
      && (!Condemned(s.sweep, KeyOf(e)) ==> (if Renewing(s.sweep, KeyOf(e)) then e.(lastSeen := s.sweep.now) else e) in rows)
  {
    var stale := StaleKeys(s.sweep.seen, s.sweep.now);
    var ks := Answered(stale, s.sweep.probe, false);
    var renewed := Refreshed(s.rows, Answered(stale, s.sweep.probe, true), s.sweep.now);
    var x := if Renewing(s.sweep, KeyOf(e)) then e.(lastSeen := s.sweep.now) else e;
    RefreshedRow(s.rows, Answered(stale, s.sweep.probe, true), s.sweep.now, e);
    hide Filter, Refreshed, Answered, StaleKeys, Ok;
    FilterIs(renewed, Outside(ks));
    AnsweredIs(stale, s.sweep.probe, false, KeyOf(e));
    AnsweredIs(stale, s.sweep.probe, true, KeyOf(e));
    StaleIs(s.sweep.seen, s.sweep.now, KeyOf(e));
    if !Condemned(s.sweep, KeyOf(e)) { assert x in Next(s, SweepEnd).rows && SameKey(x, e); }
  }

  lemma {:induction false} RefreshedAt(es: seq<Registration>, ks: seq<Key>, now: int)
    ensures var fs := Refreshed(es, ks, now);
      |fs| == |es| && forall i :: 0 <= i < |es| ==> fs[i] == es[i].(lastSeen := fs[i].lastSeen)
  {
    if ks != [] { RefreshedAt(es, ks[..|ks| - 1], now); }
  }

  lemma {:induction false} ConnsIs(es: seq<Registration>, c: nat)
    ensures c in Conns(es) <==> exists e :: e in es && e.conn == c
  {
    if es != [] {
      assert es == es[..|es| - 1] + [es[|es| - 1]];
      ConnsIs(es[..|es| - 1], c);
    }
  }

  /** The connections a sweep's second phase names: those of the rows it drops. */
  function Gone(s: State): seq<nat>
    requires s.sweep.Probed?
  {
    var stale := StaleKeys(s.sweep.seen, s.sweep.now);
    var renewed := Refreshed(s.rows, Answered(stale, s.sweep.probe, true), s.sweep.now);
    Conns(Filter(renewed, Not(Outside(Answered(stale, s.sweep.probe, false)))))
  }

  /** The connections named for closing are exactly those of the rows at condemned addresses. */
  lemma SweepNames(s: State, c: nat)
    requires s.sweep.Probed?
    ensures c in Gone(s) <==> exists e :: e in s.rows && e.conn == c && Condemned(s.sweep, KeyOf(e))
  {
    var stale := StaleKeys(s.sweep.seen, s.sweep.now);
    var ks := Answered(stale, s.sweep.probe, false);
    var renewed := Refreshed(s.rows, Answered(stale, s.sweep.probe, true), s.sweep.now);
    hide Filter, Refreshed, Answered, StaleKeys, Conns, Condemned;
    var dropped := Filter(renewed, Not(Outside(ks)));
    ConnsIs(dropped, c);
    FilterIs(renewed, Not(Outside(ks)));
    RefreshedAt(s.rows, Answered(stale, s.sweep.probe, true), s.sweep.now);
    forall e: Registration
      ensures KeyOf(e) in ks <==> Condemned(s.sweep, KeyOf(e))
    {
      CondemnedIs(s.sweep, KeyOf(e));
    }
    hide KeyOf, Not, Outside;
    OwnerAt(s.rows, renewed, ks, c);
    OwnerAt(renewed, s.rows, ks, c);
  }

  lemma OwnerAt(es: seq<Registration>, fs: seq<Registration>, ks: seq<Key>, c: nat)
    requires |es| == |fs| && forall i :: 0 <= i < |es| ==> KeyOf(es[i]) == KeyOf(fs[i]) && es[i].conn == fs[i].conn
    ensures (exists e :: e in es && e.conn == c && KeyOf(e) in ks) ==> exists e :: e in fs && e.conn == c && KeyOf(e) in ks
  {
    if e :| e in es && e.conn == c && KeyOf(e) in ks {
      var k :| 0 <= k < |es| && es[k] == e;
      assert fs[k] in fs && KeyOf(fs[k]) in ks;
    }
  }

  lemma CondemnedIs(s: Sweep, k: Key)
    requires s.Probed?
    ensures k in Answered(StaleKeys(s.seen, s.now), s.probe, false) <==> Condemned(s, k)
  {
    AnsweredIs(StaleKeys(s.seen, s.now), s.probe, false, k);
    StaleIs(s.seen, s.now, k);
  }

  /** A connection that closes takes its own rows off the list and no others. */
  lemma CloseTakes(s: State, conn: nat, e: Registration)
    ensures e in Next(s, Remove(conn)).rows <==> e in s.rows && e.conn != conn
  {
    FilterIs(s.rows, NotConn(conn));
  }

  /** A connection that drops leaves its row listed, owned by nobody. */
  lemma DropLeaves(s: State, conn: nat, e: Registration)
    requires Ok(s.rows) && e in s.rows && e.conn == conn != 0
    ensures e.(conn := 0) in Next(s, Orphan(conn)).rows
  {
    RowsDiffer(s.rows);
    hide Ok, First;
    ChangedRow(s.rows, HasConn(conn), (x: Registration) => x.(conn := 0), e);
  }

  // --- a server that is heard from in time -----------------------------------------------------------

  /** No sweep under way has seen this address stale. */
  ghost predicate Unseen(s: Sweep, k: Key) {
    s != Idle ==> forall x :: x in s.seen && KeyOf(x) == k ==> !Stale(x, s.now)
  }

  /** A step that may come while this row's server is up: its connection is not closed, dropped or
      registered anew, its own peer does not register the address on another connection, and a sweep that
      starts has heard from it within the time allowed. */
  predicate Attended(st: Step, e: Registration) {
    match st
    case Add(reg, conn, _, _) => conn != e.conn && (SameKey(reg, e) ==> reg.peer != e.peer)
    case Orphan(conn) => conn != e.conn
    case Remove(conn) => conn != e.conn
    case SweepStart(now) => now - e.lastSeen <= 45
    case _ => true
  }

  /** What a step makes of the row: its own heartbeats and player counts are taken in. */
  function Updated(st: Step, e: Registration): Registration {
    if st.Touch? && st.conn == e.conn then e.(lastSeen := st.now)
    else if st.SetPlayers? && st.conn == e.conn then e.(players := st.players)
    else e
  }

  lemma StepAttended(s: State, st: Step, e: Registration)
    requires Ok(s.rows) && e in s.rows && e.conn != 0 && Unseen(s.sweep, KeyOf(e)) && Attended(st, e)
    ensures Updated(st, e) in Next(s, st).rows && Unseen(Next(s, st).sweep, KeyOf(e))
  {
    RowsDiffer(s.rows);
    match st {
      case Add(reg, conn, now, most) =>
        AddFrame(s.rows, reg, conn, now, most, e);
        AddDecides(s.rows, reg, conn, now, most);
      case Touch(conn, now) =>
        var k :| 0 <= k < |s.rows| && s.rows[k] == e;
        assert Touched(s.rows, conn, now)[k] == Updated(st, e);
      case SetPlayers(conn, n) =>
        hide Ok, First;
        if conn == e.conn { ChangedRow(s.rows, HasConn(conn), (x: Registration) => x.(players := n), e); }
        else { ChangedListing(s.rows, HasConn(conn), (x: Registration) => x.(players := n), e); }
      case Orphan(conn) =>
        hide Ok, First;
        ChangedListing(s.rows, HasConn(conn), (x: Registration) => x.(conn := 0), e);
      case Remove(conn) => CloseTakes(s, conn, e);
      case SweepEnd => if s.sweep.Probed? { SweepDrops(s, e); }
      case _ =>
    }
  }

  /** Every step is one the server is up for, its row by then taken into account. */
  predicate AllAttended(steps: seq<Step>, e: Registration)
    decreases |steps|
  {
    steps == [] || (Attended(steps[0], e) && AllAttended(steps[1..], Updated(steps[0], e)))
  }

  function AllUpdates(steps: seq<Step>, e: Registration): Registration
    decreases |steps|
  {
    if steps == [] then e else AllUpdates(steps[1..], Updated(steps[0], e))
  }

  /** A listed server that is heard from in time is never lost: over every run in which it stays up, and
      whatever other servers, sweeps and probes do in between, its row stays listed, just as its own
      heartbeats and player counts have made it. */
  lemma {:induction false} HeardStays(s: State, steps: seq<Step>, e: Registration)
    requires Ok(s.rows) && e in s.rows && e.conn != 0 && Unseen(s.sweep, KeyOf(e)) && AllAttended(steps, e)
    ensures AllUpdates(steps, e) in Run(s, steps).rows
    decreases |steps|
  {
    hide Next, Ok, Unseen;
    if steps != [] {
      NextKeeps(s, steps[0]);
      StepAttended(s, steps[0], e);
      HeardStays(Next(s, steps[0]), steps[1..], Updated(steps[0], e));
    }
  }

  /** A server that registers again at a stale address while its probe is failing is listed fresh, and
      dropped all the same. */
  lemma FreshDropped(rows: seq<Registration>, e: Registration, reg: Registration, start: int, conn: nat, now: int, most: nat, probe: Probe)
    requires Ok(rows) && e in rows && Stale(e, start) && SameKey(reg, e) && !probe(KeyOf(e))
    requires Added(rows, reg, conn, now, most).result == Listed
    ensures var s := Next(Next(Next(State(rows, Idle), SweepStart(start)), Add(reg, conn, now, most)), SweepProbe(probe));
      && (exists x :: x in s.rows && SameKey(x, e) && x.conn == conn && x.lastSeen == now)
      && !Listing(Next(s, SweepEnd).rows, e)
  {
    hide Added, Ok;
    AddLists(rows, reg, conn, now, most);
    AddKeeps(rows, reg, conn, now, most);
    var s := Next(Next(Next(State(rows, Idle), SweepStart(start)), Add(reg, conn, now, most)), SweepProbe(probe));
    var x :| x in s.rows && x == reg.(conn := conn, lastSeen := now, players := x.players);
    assert KeyOf(x) == KeyOf(e) && Condemned(s.sweep, KeyOf(x));
    SweepDrops(s, x);
    hide Next;
    assert forall y :: SameKey(y, e) <==> SameKey(y, x);
  }

  /** Reloading a list into an empty registry keeps rows unique exactly when the part that fits has
      distinct addresses; the file is not checked for that. */
  lemma LoadOk(regs: seq<Registration>, now: int)
    ensures Ok(Loaded([], regs, now)) <==>
      forall i, j :: 0 <= i < j < |regs| && j < MAX_REGISTRATIONS ==> !SameKey(regs[i], regs[j])
  {
    LoadedIs([], regs, now);
    var fs := Loaded([], regs, now);
    if Ok(fs) {
      forall i, j | 0 <= i < j < |regs| && j < MAX_REGISTRATIONS
        ensures !SameKey(regs[i], regs[j])
      {
        assert Apart(fs[i], fs[j]);
      }
    }
  }

  lemma {:induction false} LoadedIs(es: seq<Registration>, regs: seq<Registration>, now: int)
    requires |es| <= MAX_REGISTRATIONS
    ensures var fs := Loaded(es, regs, now);
      && |fs| == (if |es| + |regs| < MAX_REGISTRATIONS then |es| + |regs| else MAX_REGISTRATIONS)
      && (forall i :: 0 <= i < |es| ==> fs[i] == es[i])
      && (forall i :: |es| <= i < |fs| ==> fs[i] == regs[i - |es|].(conn := 0, lastSeen := now - HEARTBEAT_TTL - 1))
    decreases |regs|
  {
    if regs != [] && |es| < MAX_REGISTRATIONS {
      LoadedIs(es + [regs[0].(conn := 0, lastSeen := now - HEARTBEAT_TTL - 1)], regs[1..], now);
    }
  }

  // --- the registry itself ------------------------------------------------------------------------

  lemma FirstIs(es: seq<Registration>, test: Test, k: nat)
    requires k <= |es| && (k < |es| ==> test(es[k])) && forall i :: 0 <= i < k ==> !test(es[i])
    ensures k == First(es, test)
  {
  }

  function Not(test: Test): Test { (e: Registration) => !test(e) }

  lemma FilterStep(es: seq<Registration>, i: nat, keep: Test)
    requires i < |es|
    ensures var fs := Filter(es[..i], keep);
      && Filter(es[..i + 1], keep) == (if keep(es[i]) then fs + [es[i]] else fs)
      && Conns(fs + [es[i]]) == Conns(fs) + [es[i].conn]
  {
    assert es[..i + 1][..i] == es[..i];
    var fs := Filter(es[..i], keep);
    assert (fs + [es[i]])[..|fs|] == fs && fs + [] == fs;
  }

  class Registry {
    var rows: seq<Registration>

    constructor ()
      ensures rows == []
    {
      rows := [];
    }

    method Find(test: Test) returns (k: nat)
      ensures k == First(rows, test)
    {
      k := 0;
      while k < |rows| && !test(rows[k])
        invariant k <= |rows| && forall i :: 0 <= i < k ==> !test(rows[i])
      {
        k := k + 1;
      }
      FirstIs(rows, test, k);
    }

    method CountIf(test: Test) returns (n: nat)
      ensures n == Count(rows, test)
    {
      n := 0;
      for i := 0 to |rows|
        invariant n == Count(rows[..i], test)
      {
        assert rows[..i + 1][..i] == rows[..i];
        if test(rows[i]) { n := n + 1; }
      }
      assert rows[..|rows|] == rows;
    }

    method Erase(keep: Test) returns (gone: seq<nat>)
      modifies this
      ensures rows == Filter(old(rows), keep)
      ensures gone == Conns(Filter(old(rows), Not(keep)))
    {
      var kept := [];
      gone := [];
      for i := 0 to |rows|
        invariant rows == old(rows) && kept == Filter(rows[..i], keep)
        invariant gone == Conns(Filter(rows[..i], Not(keep)))
      {
        FilterStep(rows, i, keep);
        FilterStep(rows, i, Not(keep));
        if keep(rows[i]) {
          kept := kept + [rows[i]];
        } else {
          gone := gone + [rows[i].conn];
        }
      }
      assert rows[..|rows|] == rows;
      rows := kept;
    }

    /** Add or replace a row; the connection it displaced, if any, is for the caller to close. */
    method Add(reg: Registration, conn: nat, now: int, maxPerPeer: nat) returns (r: AddResult, displaced: nat)
      requires Ok(rows)
      modifies this
      ensures Ok(rows) && Outcome(rows, r, displaced) == Added(old(rows), reg, conn, now, maxPerPeer)
    {
      AddKeeps(rows, reg, conn, now, maxPerPeer);
      hide Filter, Count, First, Ok;
      var u := reg.(conn := conn, lastSeen := now);
      var hit := Find(HasKey(reg));
      if hit < |rows| {
        var h := rows[hit];
        if h.conn != 0 && h.conn != conn && h.peer != reg.peer { return Taken, 0; }
        displaced := if h.conn != conn then h.conn else 0;
        rows := rows[hit := u.(players := h.players)];
        var _ := Erase(NotLeft(reg, conn));
        return Listed, displaced;
      }
      var mine := Find(OwnedBy(conn));
      if mine < |rows| {
        rows := rows[mine := u.(players := rows[mine].players)];
        return Listed, 0;
      }
      if maxPerPeer != 0 && reg.peer != "" {
        var n := CountIf(FromPeer(reg.peer));
        if n >= maxPerPeer { return PeerLimit, 0; }
      }
      if |rows| >= MAX_REGISTRATIONS { return Full, 0; }
      rows := rows + [u];
      return Listed, 0;
    }

    method Touch(conn: nat, now: int)
      requires Ok(rows)
      modifies this
      ensures Ok(rows) && rows == Touched(old(rows), conn, now)
    {
      TouchKeeps(rows, conn, now);
      for i := 0 to |rows|
        invariant |rows| == |old(rows)|
        invariant forall k :: 0 <= k < i ==> rows[k] == Touched(old(rows), conn, now)[k]
        invariant forall k :: i <= k < |rows| ==> rows[k] == old(rows)[k]
      {
        if rows[i].conn == conn { rows := rows[i := rows[i].(lastSeen := now)]; }
      }
      assert rows == Touched(old(rows), conn, now);
    }

    /** Change the first row that passes, if there is one. */
    method ChangeFirst(test: Test, f: Registration -> Registration) returns (found: bool)
      requires Ok(rows) && forall e :: SameKey(f(e), e) && (f(e).conn == e.conn || f(e).conn == 0)
      modifies this
      ensures Ok(rows) && rows == FirstChanged(old(rows), test, f)
      ensures found <==> exists e :: e in old(rows) && test(e)
    {
      FirstChangedOk(rows, test, f);
      var i := Find(test);
      if i == |rows| { return false; }
      rows := rows[i := f(rows[i])];
      return true;
    }

    method SetPlayers(conn: nat, players: int)
      requires Ok(rows)
      modifies this
      ensures Ok(rows) && rows == Counted(old(rows), conn, players)
    {
      var _ := ChangeFirst(HasConn(conn), (e: Registration) => e.(players := players));
    }

    method Orphan(conn: nat) returns (owned: bool)
      requires Ok(rows)
      modifies this
      ensures Ok(rows) && rows == Orphaned(old(rows), conn)
      ensures owned <==> exists e :: e in old(rows) && e.conn == conn
    {
      owned := ChangeFirst(HasConn(conn), (e: Registration) => e.(conn := 0));
    }

    method Remove(conn: nat)
      requires Ok(rows)
      modifies this
      ensures Ok(rows) && rows == Removed(old(rows), conn)
    {
      FilterRows(rows, NotConn(conn));
      var _ := Erase(NotConn(conn));
    }

    /** First phase of a sweep. */
    method FindStale(now: int) returns (ks: seq<Key>)
      ensures ks == StaleKeys(rows, now)
    {
      ks := [];
      for i := 0 to |rows|
        invariant ks == StaleKeys(rows[..i], now)
      {
        assert rows[..i + 1][..i] == rows[..i];
        if now - rows[i].lastSeen > HEARTBEAT_TTL { ks := ks + [KeyOf(rows[i])]; }
      }
      assert rows[..|rows|] == rows;
    }

    /** Between the phases the registry is not touched. */
    static method Sort(ks: seq<Key>, probe: Probe) returns (refresh: seq<Key>, drop: seq<Key>)
      ensures refresh == Answered(ks, probe, true) && drop == Answered(ks, probe, false)
    {
      refresh, drop := [], [];
      for i := 0 to |ks|
        invariant refresh == Answered(ks[..i], probe, true) && drop == Answered(ks[..i], probe, false)
      {
        assert ks[..i + 1][..i] == ks[..i];
        if probe(ks[i]) { refresh := refresh + [ks[i]]; } else { drop := drop + [ks[i]]; }
      }
      assert ks[..|ks|] == ks;
    }

    /** Second phase: the connections of the rows dropped are for the caller to close. */
    method Apply(now: int, refresh: seq<Key>, drop: seq<Key>) returns (gone: seq<nat>)
      requires Ok(rows)
      modifies this
      ensures Ok(rows) && rows == Dropped(Refreshed(old(rows), refresh, now), drop)
      ensures gone == Conns(Filter(Refreshed(old(rows), refresh, now), Not(Outside(drop))))
    {
      hide Filter, Ok, First;
      for i := 0 to |refresh|
        invariant Ok(rows) && rows == Refreshed(old(rows), refresh[..i], now)
      {
        assert refresh[..i + 1][..i] == refresh[..i];
        var _ := ChangeFirst(AtKey(refresh[i]), (e: Registration) => e.(lastSeen := now));
      }
      assert refresh[..|refresh|] == refresh;
      FilterRows(rows, Outside(drop));
      gone := Erase(Outside(drop));
    }

    method LoadStale(regs: seq<Registration>, now: int)
      modifies this
      ensures rows == Loaded(old(rows), regs, now)
    {
      var i := 0;
      while i < |regs| && |rows| < MAX_REGISTRATIONS
        invariant i <= |regs| && Loaded(rows, regs[i..], now) == Loaded(old(rows), regs, now)
      {
        assert regs[i..][1..] == regs[i + 1..];
        rows := rows + [regs[i].(conn := 0, lastSeen := now - HEARTBEAT_TTL - 1)];
        i := i + 1;
      }
    }
  }
}
