/**
 Player names: which ones are allowed, the name a second player of the same name is given, and the
 roster of connected players.
 */
module Usernames {
  import opened Decimal
  import opened Voxels

  const USERNAME_MAX := 20
  const RESERVED := "server"

  /** The suffix counter's type holds no more than this. */
  const COUNTER_END := 0x1_0000_0000

  datatype Verdict = Allowed | Empty | TooLong | BadChar | Reserved

  predicate GoodChar(c: char) { ' ' <= c <= '~' && c != ':' && c != '[' && c != ']' }

  function Lower(c: char): char { if 'A' <= c <= 'Z' then (c as int + 32) as char else c }

  function Lowered(s: string): (r: string)
    ensures |r| == |s| && forall i :: 0 <= i < |s| ==> r[i] == Lower(s[i])
  {
    seq(|s|, i requires 0 <= i < |s| => Lower(s[i]))
  }

  function Validate(name: string): Verdict {
    if name == "" then Empty
    else if |name| > USERNAME_MAX then TooLong
    else if name[0] == ' ' || name[|name| - 1] == ' ' then BadChar
    else if exists i :: 0 <= i < |name| && !GoodChar(name[i]) then BadChar
    else if Lowered(name) == RESERVED then Reserved
    else Allowed
  }

  method ValidateUsername(name: string) returns (v: Verdict)
    ensures v == Validate(name)
  {
    if name == "" { return Empty; }
    if |name| > USERNAME_MAX { return TooLong; }
    if name[0] == ' ' || name[|name| - 1] == ' ' { return BadChar; }
    var lower := "";
    for i := 0 to |name|
      invariant forall j :: 0 <= j < i ==> GoodChar(name[j])
      invariant lower == Lowered(name)[..i]
    {
      if !GoodChar(name[i]) { return BadChar; }
      lower := lower + [Lower(name[i])];
    }
    return if lower == RESERVED then Reserved else Allowed;
  }

  // --- suffixed names -----------------------------------------------------------------------------

  /** A string without the spaces at its end. */
  function Trimmed(s: string): (r: string)
    ensures r <= s && (r != "" ==> r[|r| - 1] != ' ') && forall i :: |r| <= i < |s| ==> s[i] == ' '
    ensures s != "" && s[0] != ' ' ==> r != ""
  {
    if s != "" && s[|s| - 1] == ' ' then Trimmed(s[..|s| - 1]) else s
  }

  function Suffix(n: nat): string { "-" + Show(n) }

  function Cut(s: string, n: nat): (r: string)
    ensures r <= s
  {
    if |s| <= n then s else s[..n]
  }

  /** The n-th name tried in place of one that is taken. */
  function Candidate(wanted: string, n: nat): string
    requires |Suffix(n)| <= USERNAME_MAX
  {
    Trimmed(Cut(wanted, USERNAME_MAX - |Suffix(n)|)) + Suffix(n)
  }

  /** It keeps as much of the wanted name as leaves room for a dash and the number, all but spaces at
      the cut. */
  lemma CandidateKeeps(wanted: string, n: nat)
    requires |Suffix(n)| <= USERNAME_MAX
    ensures var c := Candidate(wanted, n); var k := |c| - |Show(n)| - 1;
      && |c| <= USERNAME_MAX && 0 <= k <= |wanted| && c == wanted[..k] + "-" + Show(n)
      && (k > 0 ==> wanted[k - 1] != ' ')
      && forall i :: k <= i < |wanted| && i < USERNAME_MAX - 1 - |Show(n)| ==> wanted[i] == ' '
  {
    hide Show;
    var cut := Cut(wanted, USERNAME_MAX - |Suffix(n)|);
    var base := Trimmed(cut);
    hide Trimmed;
    assert base == wanted[..|base|];
    assert forall i :: 0 <= i < |cut| ==> cut[i] == wanted[i];
  }

  function Power10(k: nat): nat { if k == 0 then 1 else 10 * Power10(k - 1) }

  lemma {:induction false} ShowShort(n: nat, k: nat)
    requires k > 0 && n < Power10(k)
    ensures |Show(n)| <= k
  {
    if n >= 10 { ShowShort(n / 10, k - 1); }
  }

  /** Every suffix the counter can make leaves room for some of the name. */
  lemma SuffixFits(n: nat)
    requires n < COUNTER_END
    ensures |Suffix(n)| <= 11
  {
    assert Power10(10) == 10 * Power10(9) && Power10(9) == 10 * Power10(8) && Power10(8) == 10 * Power10(7);
    assert Power10(7) == 10 * Power10(6) && Power10(6) == 10 * Power10(5) && Power10(5) == 100000;
    ShowShort(n, 10);
  }

  lemma {:induction false} NoDash(n: nat)
    ensures forall i :: 0 <= i < |Show(n)| ==> Show(n)[i] != '-'
  {
    assert forall i :: 0 <= i < |Show(n)| ==> Show(n)[i] in Show(n);
  }

  /** Different numbers give different names: the digits after the last dash are the number. */
  lemma CandidatesDiffer(wanted: string, m: nat, n: nat)
    requires |Suffix(m)| <= USERNAME_MAX && |Suffix(n)| <= USERNAME_MAX && Candidate(wanted, m) == Candidate(wanted, n)
    ensures m == n
  {
    var c := Candidate(wanted, m);
    NoDash(m);
    NoDash(n);
    var x, y := |c| - |Show(m)| - 1, |c| - |Show(n)| - 1;
    hide Show, Trimmed, Cut;
    DashSplits(c, x, Show(m));
    DashSplits(c, y, Show(n));
    NotLonger(c[..x], Show(m), c[..y], Show(n));
    NotLonger(c[..y], Show(n), c[..x], Show(m));
    assert x == y;
    ShowInjective(m, n);
  }

  lemma DashSplits(c: string, x: int, t: string)
    requires 0 <= x && x + 1 + |t| == |c| && c[x] == '-' && c[x + 1..] == t
    ensures c == c[..x] + "-" + t
  {
  }

  /** What follows the last dash of a string is no longer than what has no dash at its end. */
  lemma NotLonger(x: string, s: string, y: string, t: string)
    requires x + "-" + s == y + "-" + t && forall i :: 0 <= i < |t| ==> t[i] != '-'
    ensures |s| >= |t|
  {
    AfterDash(y, t);
    assert (x + "-" + s)[|x|] == '-';
  }

  lemma AfterDash(y: string, t: string)
    requires forall i :: 0 <= i < |t| ==> t[i] != '-'
    ensures forall i :: |y| < i < |y| + 1 + |t| ==> (y + "-" + t)[i] != '-'
  {
  }

  /** A candidate for an allowed name is an allowed name. */
  lemma CandidateAllowed(wanted: string, n: nat)
    requires Validate(wanted) == Allowed && n < COUNTER_END
    ensures |Suffix(n)| <= USERNAME_MAX && Validate(Candidate(wanted, n)) == Allowed
  {
    SuffixFits(n);
    var base := Trimmed(Cut(wanted, USERNAME_MAX - |Suffix(n)|));
    var c := Candidate(wanted, n);
    assert base != "" && c[0] == wanted[0];
    assert Show(n)[|Show(n)| - 1] in Show(n);
    assert c[|c| - 1] == Show(n)[|Show(n)| - 1];
    forall i | 0 <= i < |c|
      ensures GoodChar(c[i])
    {
      if i < |base| { assert c[i] == wanted[i]; }
      if i > |base| { assert c[i] == Show(n)[i - |base| - 1] && c[i] in Show(n); }
    }
    assert c[|base|] == '-';
    assert Lowered(c)[|base|] == '-';
    assert forall i :: 0 <= i < |RESERVED| ==> RESERVED[i] != '-';
  }

  ghost predicate Tries(wanted: string, n: nat, c: string) {
    exists k: nat :: k < n && IsCandidate(wanted, k, c)
  }

  predicate IsCandidate(wanted: string, k: nat, c: string) { |Suffix(k)| <= USERNAME_MAX && c == Candidate(wanted, k) }

  lemma TriesStep(wanted: string, n: nat, c: string)
    requires 0 < n
    ensures Tries(wanted, n, c) <==> Tries(wanted, n - 1, c) || IsCandidate(wanted, n - 1, c)
  {
    hide IsCandidate;
  }

  lemma TriesIs(wanted: string, n: nat, c: string)
    ensures Tries(wanted, n, c) <==> exists k: nat :: k < n && IsCandidate(wanted, k, c)
  {
  }

  /** The first n names, as many as there are numbers. */
  lemma {:induction false} Tried(wanted: string, n: nat) returns (s: set<string>)
    requires n <= COUNTER_END
    ensures |s| == n && forall c :: c in s <==> Tries(wanted, n, c)
  {
    s := {};
    if n > 0 {
      SuffixFits(n - 1);
      s := Tried(wanted, n - 1);
      var last := Candidate(wanted, n - 1);
      forall c
        ensures Tries(wanted, n, c) <==> Tries(wanted, n - 1, c) || c == last
      {
        TriesStep(wanted, n, c);
      }
      hide Candidate, Suffix, Tries;
      if last in s {
        TriesIs(wanted, n - 1, last);
        var k: nat :| k < n - 1 && IsCandidate(wanted, k, last);
        CandidatesDiffer(wanted, n - 1, k);
        assert false;
      }
      s := s + {last};
    }
  }

  lemma SubsetSize<T>(a: set<T>, b: set<T>)
    requires a <= b
    ensures |a| <= |b|
  {
    if a != {} {
      var x :| x in a;
      SubsetSize(a - {x}, b - {x});
    }
  }

  /** The counter starts at 2, and wraps round to 0 and 1 at its end. */
  function Turn(n: nat): int { if n >= 2 then n - 2 else n + COUNTER_END - 2 }

  predicate Free(wanted: string, taken: set<string>, n: nat) { |Suffix(n)| <= USERNAME_MAX && Candidate(wanted, n) !in taken }

  /** n is the suffix a taken name gets: the first one the counter comes to whose name is free, the lowest
      from 2 on if there is one. */
  ghost predicate FirstFree(wanted: string, taken: set<string>, n: nat) {
    n < COUNTER_END && Free(wanted, taken, n) && forall k: nat :: k < COUNTER_END && Turn(k) < Turn(n) ==> !Free(wanted, taken, k)
  }

  /** Some suffix of the counter is free. */
  ghost predicate AnyFree(wanted: string, taken: set<string>) { exists n: nat :: n < COUNTER_END && Free(wanted, taken, n) }

  /** Fewer names than the counter has numbers leave one free. */
  lemma FewLeaveFree(wanted: string, taken: set<string>)
    requires |taken| < COUNTER_END
    ensures AnyFree(wanted, taken)
  {
    hide Suffix, Candidate;
    var s := Tried(wanted, COUNTER_END);
    if !AnyFree(wanted, taken) {
      forall c | c in s
        ensures c in taken
      {
        TriesIs(wanted, COUNTER_END, c);
        var k: nat :| k < COUNTER_END && IsCandidate(wanted, k, c);
        assert !Free(wanted, taken, k);
      }
      SubsetSize(s, taken);
    }
  }

  /** The first free suffix is the lowest one from 2 on that is free, when there is one. */
  lemma FirstIsLowest(wanted: string, taken: set<string>, n: nat)
    requires FirstFree(wanted, taken, n)
    ensures n >= 2 ==> forall k: nat :: 2 <= k < n ==> !Free(wanted, taken, k)
    ensures n < 2 ==> forall k: nat :: 2 <= k < COUNTER_END ==> !Free(wanted, taken, k)
  {
    hide Free;
    assert forall k: nat :: 2 <= k < COUNTER_END && (n < 2 || k < n) ==> Turn(k) < Turn(n);
  }

  method MakeCandidate(wanted: string, n: nat) returns (c: string)
    requires |Suffix(n)| <= USERNAME_MAX
    ensures c == Candidate(wanted, n)
  {
    var suffix := Suffix(n);
    var base := Cut(wanted, USERNAME_MAX - |suffix|);
    ghost var cut := base;
    while base != "" && base[|base| - 1] == ' '
      invariant Trimmed(base) == Trimmed(cut)
      decreases |base|
    {
      base := base[..|base| - 1];
    }
    c := base + suffix;
  }

  /** The name a join under this one is given. */
  ghost predicate Assigned(wanted: string, taken: set<string>, name: string) {
    if wanted !in taken then name == wanted
    else exists n :: FirstFree(wanted, taken, n) && |Suffix(n)| <= USERNAME_MAX && name == Candidate(wanted, n)
  }

  /** The name itself when it is free, else its first free suffix: always an allowed name that is not
      taken. The search ends for every roster that leaves one of the counter's numbers free. */
  method NextFree(wanted: string, taken: set<string>) returns (name: string)
    requires Validate(wanted) == Allowed && (wanted in taken ==> AnyFree(wanted, taken))
    ensures name !in taken && Validate(name) == Allowed && |name| <= USERNAME_MAX && Assigned(wanted, taken, name)
  {
    ValidIsShort(wanted);
    hide Validate, Suffix, Candidate;
    if wanted !in taken { return wanted; }
    ghost var goal: nat :| goal < COUNTER_END && Free(wanted, taken, goal);
    var n := 2;
    while true
      invariant n < COUNTER_END && Turn(n) <= Turn(goal)
      invariant forall k: nat :: k < COUNTER_END && Turn(k) < Turn(n) ==> !Free(wanted, taken, k)
      decreases Turn(goal) - Turn(n)
    {
      CandidateAllowed(wanted, n);
      var candidate := MakeCandidate(wanted, n);
      if candidate !in taken {
        ValidIsShort(candidate);
        assert FirstFree(wanted, taken, n);
        return candidate;
      }
      n := if n + 1 == COUNTER_END then 0 else n + 1;
    }
  }

  lemma ValidIsShort(name: string)
    ensures Validate(name) == Allowed ==> |name| <= USERNAME_MAX
  {
  }

  // --- the roster -----------------------------------------------------------------------------------

  datatype DupAction = Evict | Suffixed

  /** What a join under a name already connected does. */
  function DupName(sameAddress: bool, oldSilent: real, staleAfter: real): DupAction {
    if sameAddress && staleAfter > 0.0 && oldSilent >= staleAfter then Evict else Suffixed
  }

  datatype Player = Player(name: string, ip: string)

  /** A socket is a non-negative 32-bit integer. */
  type Socket = s: nat | s < 0x8000_0000

  type Roster = map<Socket, Player>

  function Names(r: Roster): set<string> { set s | s in r :: r[s].name }

  /** Every name in the roster is allowed and no two players have the same one. */
  ghost predicate RosterOk(r: Roster) {
    && (forall s :: s in r ==> Validate(r[s].name) == Allowed)
    && forall s, t :: s in r && t in r && s != t ==> r[s].name != r[t].name
  }

  lemma NamesFew(r: Roster)
    ensures |Names(r)| <= |r|
  {
    if r != map[] {
      var s :| s in r;
      var q := r - {s};
      NamesFew(q);
      assert q.Keys == r.Keys - {s};
      forall x | x in Names(r)
        ensures x in Names(q) + {r[s].name}
      {
        var t :| t in r && r[t].name == x;
        if t != s { assert t in q && q[t].name == x; }
      }
      SubsetSize(Names(r), Names(q) + {r[s].name});
    }
  }

  /** A player under a name nobody else has, in place of whatever the socket had. */
  lemma JoinOk(r: Roster, sock: Socket, name: string, ip: string)
    requires RosterOk(r) && Validate(name) == Allowed && name !in Names(r)
    ensures RosterOk(r[sock := Player(name, ip)])
  {
    hide Validate;
    assert forall s :: s in r ==> r[s].name in Names(r);
  }

  lemma LeaveOk(r: Roster, gone: set<Socket>)
    requires RosterOk(r)
    ensures RosterOk(r - gone) && |r - gone| <= |r| && Names(r - gone) <= Names(r)
  {
    hide Validate;
    SubsetSize((r - gone).Keys, r.Keys);
  }

  lemma NamesStep(r: Roster, left: set<Socket>, s: Socket)
    requires left <= r.Keys && s in left
    ensures Names(r - (left - {s})) == Names(r - left) + {r[s].name}
  {
    var a, b := r - (left - {s}), r - left;
    forall x | x in Names(a)
      ensures x in Names(b) + {r[s].name}
    {
      var t :| t in a && a[t].name == x;
      if t != s { assert t in b; }
    }
    forall x | x in Names(b) + {r[s].name}
      ensures x in Names(a)
    {
      if x == r[s].name {
        assert s in a;
      } else {
        var t :| t in b && b[t].name == x;
        assert t in a;
      }
    }
  }

  /** Taking out the one session of a name takes out the name. */
  lemma NamesWithout(r: Roster, s: Socket)
    requires RosterOk(r) && s in r
    ensures Names(r - {s}) == Names(r) - {r[s].name}
  {
    hide Validate;
    NamesStep(r, {s}, s);
    assert r - ({s} - {s}) == r;
    assert r[s].name !in Names(r - {s});
  }

  lemma NoNames()
    ensures Names(map[]) == {}
  {
  }

  lemma NotNamed(r: Roster, name: string)
    ensures name !in Names(r) ==> forall s :: s in r ==> r[s].name != name
  {
    assert forall s :: s in r ==> r[s].name in Names(r);
  }

  lemma {:induction false} BelowFew(s: set<nat>, n: nat)
    requires forall x :: x in s ==> x < n
    ensures |s| <= n
  {
    if n > 0 {
      BelowFew(s - {n - 1}, n - 1);
    } else {
      assert s == {};
    }
  }

  /** There are fewer sockets than the suffix counter has numbers. */
  lemma RosterFew(r: Roster)
    ensures |r| < COUNTER_END
  {
    var keys: set<nat> := set s | s in r;
    assert keys == r.Keys;
    BelowFew(keys, 0x8000_0000);
  }

  // --- every run --------------------------------------------------------------------------------------

  datatype Event =
    | JoinAs(sock: Socket, wanted: string, ip: string, silent: Socket -> real, staleAfter: real)
    | Leave(sock: Socket)

  /** The silent sessions of the same player. */
  function Evicted(r: Roster, wanted: string, ip: string, silent: Socket -> real, staleAfter: real): set<Socket> {
    set s | s in r && r[s] == Player(wanted, ip) && DupName(true, silent(s), staleAfter) == Evict
  }

  /** What one event may make of the roster. */
  ghost predicate Step(r: Roster, e: Event, t: Roster) {
    match e
    case JoinAs(sock, wanted, ip, silent, staleAfter) =>
      if Validate(wanted) != Allowed then t == r
      else
        var left := r - Evicted(r, wanted, ip, silent, staleAfter);
        exists name :: Assigned(wanted, Names(left), name) && t == left[sock := Player(name, ip)]
    case Leave(sock) => t == r - {sock}
  }

  /** The event ends what this session was called: it leaves, it joins anew, or it is the silent session
      of the player who joins. */
  predicate Ends(r: Roster, e: Event, s: Socket) {
    match e
    case JoinAs(sock, wanted, ip, silent, staleAfter) =>
      Validate(wanted) == Allowed && (sock == s || s in Evicted(r, wanted, ip, silent, staleAfter))
    case Leave(sock) => sock == s
  }

  /** Rosters from the empty one on, one event apart. */
  ghost predicate IsRun(rs: seq<Roster>, es: seq<Event>) {
    |rs| == |es| + 1 && rs[0] == map[] && forall i :: 0 <= i < |es| ==> Step(rs[i], es[i], rs[i + 1])
  }

  lemma AssignedOk(wanted: string, taken: set<string>, name: string)
    requires Validate(wanted) == Allowed && Assigned(wanted, taken, name)
    ensures Validate(name) == Allowed && name !in taken
  {
    hide Validate, Candidate, Suffix;
    if wanted in taken {
      var n :| FirstFree(wanted, taken, n) && |Suffix(n)| <= USERNAME_MAX && name == Candidate(wanted, n);
      CandidateAllowed(wanted, n);
    }
  }

  lemma StepOk(r: Roster, e: Event, t: Roster)
    requires RosterOk(r) && Step(r, e, t)
    ensures RosterOk(t)
  {
    hide Validate, RosterOk, Names, Assigned;
    match e {
      case JoinAs(sock, wanted, ip, silent, staleAfter) =>
        if Validate(wanted) == Allowed {
          var gone := Evicted(r, wanted, ip, silent, staleAfter);
          var name :| Assigned(wanted, Names(r - gone), name) && t == (r - gone)[sock := Player(name, ip)];
          LeaveOk(r, gone);
          AssignedOk(wanted, Names(r - gone), name);
          JoinOk(r - gone, sock, name, ip);
        }
      case Leave(sock) => LeaveOk(r, {sock});
    }
  }

  lemma StepKeeps(r: Roster, e: Event, t: Roster, s: Socket)
    requires Step(r, e, t) && s in r && !Ends(r, e, s)
    ensures s in t && t[s] == r[s]
  {
    hide Validate, Assigned, Names;
  }

  /** Dead sessions of a player give way to the player's join, and no other does: the name is theirs
      again exactly when every session that had it was from the same address and silent for long enough;
      otherwise they are given its first free suffix. */
  lemma JoinNames(r: Roster, e: Event, t: Roster)
    requires RosterOk(r) && e.JoinAs? && Validate(e.wanted) == Allowed && Step(r, e, t)
    ensures e.sock in t && t[e.sock].ip == e.ip
    ensures t[e.sock].name == e.wanted <==> forall s :: s in r && r[s].name == e.wanted ==> GaveWay(r, e, s)
    ensures forall s :: s in r && s != e.sock ==> (s in t <==> !(r[s].name == e.wanted && GaveWay(r, e, s)))
    ensures t[e.sock].name != e.wanted ==>
      exists n: nat :: FirstFree(e.wanted, Names(r), n) && |Suffix(n)| <= USERNAME_MAX && t[e.sock].name == Candidate(e.wanted, n)
  {
    hide Validate, Candidate, Suffix, FirstFree;
    var gone := Evicted(r, e.wanted, e.ip, e.silent, e.staleAfter);
    var name :| Assigned(e.wanted, Names(r - gone), name) && t == (r - gone)[e.sock := Player(name, e.ip)];
    AssignedOk(e.wanted, Names(r - gone), name);
    if e.wanted in Names(r - gone) {
      var s :| s in r - gone && r[s].name == e.wanted;
      NoneGone(r, e, s);
      assert r - gone == r;
    } else {
      forall s | s in r && r[s].name == e.wanted
        ensures GaveWay(r, e, s)
      {
        if s !in gone { StillNamed(r, gone, s); }
      }
    }
  }

  lemma StillNamed(r: Roster, gone: set<Socket>, s: Socket)
    requires s in r && s !in gone
    ensures r[s].name in Names(r - gone)
  {
    assert s in r - gone;
  }

  /** A session that keeps the name is the only one that has it. */
  lemma NoneGone(r: Roster, e: Event, s: Socket)
    requires RosterOk(r) && e.JoinAs? && s in r && r[s].name == e.wanted
    requires s !in Evicted(r, e.wanted, e.ip, e.silent, e.staleAfter)
    ensures Evicted(r, e.wanted, e.ip, e.silent, e.staleAfter) == {}
  {
    hide Validate;
  }

  /** This session is from the address that joins, and silent for as long as it takes. */
  predicate GaveWay(r: Roster, e: Event, s: Socket)
    requires e.JoinAs? && s in r
  {
    r[s].ip == e.ip && e.staleAfter > 0.0 && e.silent(s) >= e.staleAfter
  }

  /** Over every run of joins, evictions and departures the names in the roster are allowed and no two
      sessions have the same one, and a session keeps its name until an event ends it. */
  lemma {:induction false} RosterRuns(rs: seq<Roster>, es: seq<Event>, i: nat, j: nat, s: Socket)
    requires IsRun(rs, es) && i <= j <= |es|
    ensures RosterOk(rs[j])
    ensures s in rs[i] && (forall k :: i <= k < j ==> !Ends(rs[k], es[k], s)) ==> s in rs[j] && rs[j][s] == rs[i][s]
    decreases j
  {
    hide RosterOk, Step, Ends;
    if j == 0 {
      EmptyOk();
    } else {
      RosterRuns(rs, es, if i < j then i else j - 1, j - 1, s);
      StepOk(rs[j - 1], es[j - 1], rs[j]);
      if i < j && s in rs[j - 1] && !Ends(rs[j - 1], es[j - 1], s) { StepKeeps(rs[j - 1], es[j - 1], rs[j], s); }
    }
  }

  lemma EmptyOk()
    ensures RosterOk(map[])
  {
  }

  class Clients {
    var roster: Roster

    constructor ()
      ensures roster == map[] && RosterOk(roster)
    {
      roster := map[];
    }

    /** The names in use, and the session that has the wanted one. */
    method Taken(wanted: string) returns (taken: set<string>, dup: Option<Socket>)
      requires RosterOk(roster)
      ensures taken == Names(roster)
      ensures dup.Some? ==> dup.value in roster && roster[dup.value].name == wanted
      ensures dup.None? ==> wanted !in taken
    {
      hide Names, RosterOk;
      taken, dup := {}, None;
      var left := roster.Keys;
      assert roster - roster.Keys == map[];
      assert Names(map[]) == {} by { NoNames(); }
      while left != {}
        invariant left <= roster.Keys
        invariant taken == Names(roster - left)
        invariant dup.Some? ==> dup.value in roster && roster[dup.value].name == wanted
        invariant dup.None? ==> wanted !in taken
        decreases |left|
      {
        var s :| s in left;
        NamesStep(roster, left, s);
        taken := taken + {roster[s].name};
        if roster[s].name == wanted { dup := Some(s); }
        left := left - {s};
      }
      assert roster - {} == roster;
    }

    /** A stale session of the same player, taken out of the roster; the names left in use. */
    method EvictStale(wanted: string, ip: string, silent: Socket -> real, staleAfter: real)
      returns (taken: set<string>, evicted: set<Socket>)
      requires RosterOk(roster)
      modifies this
      ensures RosterOk(roster) && roster == old(roster) - evicted && taken == Names(roster) && |roster| <= |old(roster)|
      ensures evicted == Evicted(old(roster), wanted, ip, silent, staleAfter)
    {
      hide Names, Validate;
      var dup;
      taken, dup := Taken(wanted);
      evicted := {};
      assert roster - {} == roster;
      if dup.Some? {
        if DupName(roster[dup.value].ip == ip, silent(dup.value), staleAfter) == Evict {
          evicted := {dup.value};
          LeaveOk(roster, evicted);
          NamesWithout(roster, dup.value);
          roster := roster - {dup.value};
          taken := taken - {wanted};
        }
      } else {
        NotNamed(roster, wanted);
      }
    }

    /** A join: an allowed name may take over its own dead session, else it gets the next free name. */
    method Join(sock: Socket, wanted: string, ip: string, silent: Socket -> real, staleAfter: real)
      returns (verdict: Verdict, name: string, evicted: set<Socket>)
      requires RosterOk(roster)
      modifies this
      ensures RosterOk(roster) && verdict == Validate(wanted)
      ensures Step(old(roster), JoinAs(sock, wanted, ip, silent, staleAfter), roster)
      ensures verdict != Allowed ==> evicted == {}
      ensures verdict == Allowed ==> evicted == Evicted(old(roster), wanted, ip, silent, staleAfter)
      ensures verdict == Allowed ==>
        roster == (old(roster) - evicted)[sock := Player(name, ip)] && Assigned(wanted, Names(old(roster) - evicted), name)
    {
      hide Names, Validate, RosterOk, Assigned, Evicted, AnyFree;
      evicted, name := {}, "";
      verdict := ValidateUsername(wanted);
      if verdict != Allowed { return; }
      var taken;
      taken, evicted := EvictStale(wanted, ip, silent, staleAfter);
      NamesFew(roster);
      RosterFew(roster);
      FewLeaveFree(wanted, taken);
      name := NextFree(wanted, taken);
      JoinOk(roster, sock, name, ip);
      roster := roster[sock := Player(name, ip)];
    }

    /** A client gone, for whatever reason. */
    method Remove(sock: Socket)
      requires RosterOk(roster)
      modifies this
      ensures RosterOk(roster) && Step(old(roster), Leave(sock), roster)
    {
      LeaveOk(roster, {sock});
      roster := roster - {sock};
    }
  }
}
