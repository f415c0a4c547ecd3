/**
 A burn and the signs of the world it runs in: its writes go through the one door every edit goes
 through, so a block it empties loses its signs, and no other does.
 */
module BurnSigns {
  import opened BlockRules
  import opened Burn
  import opened BurnChain
  import opened BurnSafety
  import opened BurnSteps
  import opened SignRuns
  import opened SignStore
  import opened Voxels

  /** The writes of a burn as the board sees them. */
  function Doors(ws: seq<Write>): (es: seq<Event>)
    ensures |es| == |ws| && forall i :: 0 <= i < |ws| ==> es[i] == Store(ws[i].pos, ws[i].kind, ws[i].color)
  {
    seq(|ws|, i requires 0 <= i < |ws| => Store(ws[i].pos, ws[i].kind, ws[i].color))
  }

  /** Some of these writes empties p in a store that takes the write. */
  ghost predicate Empties(env: Env, cells: Cells, ws: seq<Write>, p: Pos) {
    exists i :: 0 <= i < |ws| && EmptiesAt(env, cells, ws, i, p)
  }

  predicate EmptiesAt(env: Env, cells: Cells, ws: seq<Write>, i: nat, p: Pos)
    requires i < |ws|
  {
    ws[i].pos == p && ws[i].kind == AIR && InWorld(p) && Accepts(env, Written(env, cells, ws[..i]), p)
  }

  lemma {:induction false} AfterSnoc(s: State, es: seq<Event>, e: Event)
    ensures After(s, es + [e]) == Next(After(s, es), e)
    decreases |es|
  {
    hide Next;
    if es == [] {
      assert [] + [e] == [e];
    } else {
      assert (es + [e])[1..] == es[1..] + [e];
      AfterSnoc(Next(s, es[0]), es[1..], e);
    }
  }

  /** One write of a burn through the door. */
  lemma OneDoor(env: Env, s: State, w: Write)
    requires Sound(s) && env.live && env.cap == s.cap
    ensures var t := Next(s, Store(w.pos, w.kind, w.color));
      && Sound(t) && t.cap == s.cap && t.cells == Write1(env, s.cells, w)
      && forall q :: q in t.signs <==> q in s.signs && !(q.At() == w.pos && w.kind == AIR && InWorld(w.pos) && Accepts(env, s.cells, w.pos))
  {
    hide Sound, Kept, Dropped, Key, Unkey, InWorld;
    NextSound(s, Store(w.pos, w.kind, w.color));
    assert Takes(s, w.pos) <==> InWorld(w.pos) && Accepts(env, s.cells, w.pos);
    if Takes(s, w.pos) && w.kind == AIR {
      AirTakesSigns(s, w.pos, w.color);
      KeptIs(s.signs, OnBlock(w.pos));
    }
  }

  lemma {:induction false} ManyDoors(env: Env, s: State, ws: seq<Write>)
    requires Sound(s) && env.live && env.cap == s.cap
    ensures var t := After(s, Doors(ws));
      && Sound(t) && t.cap == s.cap && t.cells == Written(env, s.cells, ws)
      && forall q :: q in t.signs <==> q in s.signs && !Empties(env, s.cells, ws, q.At())
    decreases |ws|
  {
    hide Sound, Next, Write1, Accepts, InWorld, Empties, EmptiesAt;
    if ws == [] {
      NothingEmptied(env, s.cells);
    } else {
      var n := |ws| - 1;
      var front, w := ws[..n], ws[n];
      ManyDoors(env, s, front);
      assert Doors(ws) == Doors(front) + [Store(w.pos, w.kind, w.color)];
      AfterSnoc(s, Doors(front), Store(w.pos, w.kind, w.color));
      OneDoor(env, After(s, Doors(front)), w);
      LastEmpties(env, s.cells, ws);
    }
  }

  lemma NothingEmptied(env: Env, cells: Cells)
    ensures forall p :: !Empties(env, cells, [], p)
  {
  }

  lemma LastEmpties(env: Env, cells: Cells, ws: seq<Write>)
    requires ws != []
    ensures var n := |ws| - 1;
      forall p :: Empties(env, cells, ws, p) <==>
        || Empties(env, cells, ws[..n], p)
        || (p == ws[n].pos && ws[n].kind == AIR && InWorld(ws[n].pos) && Accepts(env, Written(env, cells, ws[..n]), ws[n].pos))
  {
    hide Written, Accepts, InWorld, Empties;
    forall p
      ensures Empties(env, cells, ws, p) <==> Empties(env, cells, ws[..|ws| - 1], p) || EmptiesAt(env, cells, ws, |ws| - 1, p)
    {
      EmptiesSnoc(env, cells, ws, p);
    }
  }

  lemma EmptiesSnoc(env: Env, cells: Cells, ws: seq<Write>, p: Pos)
    requires ws != []
    ensures var n := |ws| - 1;
      Empties(env, cells, ws, p) <==> Empties(env, cells, ws[..n], p) || EmptiesAt(env, cells, ws, n, p)
  {
    hide Written, Accepts, InWorld;
    var n := |ws| - 1;
    forall i | 0 <= i < n
      ensures EmptiesAt(env, cells, ws, i, p) <==> EmptiesAt(env, cells, ws[..n], i, p)
    {
      assert ws[..n][..i] == ws[..i];
    }
  }

  /** A burn on the server: the world comes out as the burn leaves it, the board stays sound, and exactly
      the signs on blocks the burn emptied are gone. A sign on a protected block, or out of burn reach,
      stays. */
  lemma BurnTakesSigns(env: Env, root: Pos, prot: Protection, s: State, maxVisits: nat)
    requires Sound(s) && env.live && env.cap == s.cap
    ensures var t := SimBurn(env, root, prot, s.cells, maxVisits);
      var b := After(s, Doors(t.sets));
      && b.cells == t.cells && Sound(b)
      && (forall q :: q in b.signs <==> q in s.signs && !Empties(env, s.cells, t.sets, q.At()))
      && (forall q :: q in s.signs && (prot(q.At()) || !Near(q.At(), root, BurnReach(env.radius))) ==> q in b.signs)
  {
    hide Sound, SimBurn, Next, Near, BurnReach, Accepts, InWorld, Written;
    var t := SimBurn(env, root, prot, s.cells, maxVisits);
    BurnSafe(env, root, prot, s.cells, maxVisits);
    ManyDoors(env, s, t.sets);
    forall q | q in s.signs && (prot(q.At()) || !Near(q.At(), root, BurnReach(env.radius)))
      ensures !Empties(env, s.cells, t.sets, q.At())
    {
      assert forall w :: w in t.sets ==> w.pos != q.At();
      assert forall i :: 0 <= i < |t.sets| ==> t.sets[i] in t.sets;
    }
  }
}
