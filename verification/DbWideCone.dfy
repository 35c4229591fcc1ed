/** Two moves of an object that has a descendant with two parents inside the cone.  In the first the check of the number
    of values fails; in the second it holds, and two values are exchanged. */
module DbWideCone {
  import opened DbGraph
  import opened DbLinks
  import opened DbLayout
  import opened DbSlots
  import opened DbJoin
  import opened DbChparent
  import opened DbCone
  import opened DbHybrid

  // ---- lists of small graphs ----

  lemma {:induction false} AncOfNone(db: Db, rk: Ranks, o: int)
    requires Ranked(db, rk) && o in db && db[o].parents == []
    ensures Anc(db, rk, o) == [o]
  {
    assert RankedAt(db, rk, o);
  }

  lemma {:induction false} AncOfOne(db: Db, rk: Ranks, o: int, p: int)
    requires Ranked(db, rk) && o in db && p in db && db[o].parents == [p]
    ensures Anc(db, rk, o) == AddAll([o], Anc(db, rk, p))
  {
    AncFromParents(db, rk, o);
    assert [p][1..] == [];
    assert Joint(db, rk, [o], [p]) == Joint(db, rk, AddAll([o], Anc(db, rk, p)), []);
  }

  lemma {:induction false} AncOfTwo(db: Db, rk: Ranks, o: int, p: int, q: int)
    requires Ranked(db, rk) && o in db && p in db && q in db && db[o].parents == [p, q]
    ensures Anc(db, rk, o) == AddAll(AddAll([o], Anc(db, rk, p)), Anc(db, rk, q))
  {
    AncFromParents(db, rk, o);
    var s := AddAll([o], Anc(db, rk, p));
    assert [p, q][1..] == [q] && [q][1..] == [];
    assert Joint(db, rk, [o], [p, q]) == Joint(db, rk, s, [q]);
    assert Joint(db, rk, s, [q]) == Joint(db, rk, AddAll(s, Anc(db, rk, q)), []);
  }

  lemma {:induction false} AncOfThree(db: Db, rk: Ranks, o: int, p: int, q: int, r: int)
    requires Ranked(db, rk) && o in db && p in db && q in db && r in db && db[o].parents == [p, q, r]
    ensures Anc(db, rk, o) == AddAll(AddAll(AddAll([o], Anc(db, rk, p)), Anc(db, rk, q)), Anc(db, rk, r))
  {
    hide Anc, AddAll;
    AncFromParents(db, rk, o);
    var s := AddAll([o], Anc(db, rk, p));
    var t := AddAll(s, Anc(db, rk, q));
    assert [p, q, r][1..] == [q, r] && [q, r][1..] == [r] && [r][1..] == [];
    assert Joint(db, rk, [o], [p, q, r]) == Joint(db, rk, s, [q, r]);
    assert Joint(db, rk, s, [q, r]) == Joint(db, rk, t, [r]);
    assert Joint(db, rk, t, [r]) == Joint(db, rk, AddAll(t, Anc(db, rk, r)), []);
  }

  /** setadd, one by one. */
  lemma AddThree(s: seq<int>, a: int, b: int, c: int)
    ensures AddAll(s, [a]) == SetAdd(s, a)
    ensures AddAll(s, [a, b]) == SetAdd(SetAdd(s, a), b)
    ensures AddAll(s, [a, b, c]) == SetAdd(SetAdd(SetAdd(s, a), b), c)
  {
    assert [a][1..] == [] && [b][1..] == [] && [c][1..] == [];
    assert [a, b][1..] == [b] && [b, c][1..] == [c] && [a, b, c][1..] == [b, c];
    assert AddAll(SetAdd(s, a), [b]) == AddAll(SetAdd(SetAdd(s, a), b), []);
    var t := SetAdd(SetAdd(s, a), b);
    assert AddAll(t, [c]) == AddAll(SetAdd(t, c), []);
    assert AddAll(SetAdd(s, a), [b, c]) == AddAll(t, [c]);
  }

  lemma MovedToOne(db: Db, x: int, p: int)
    requires x in db && p in db && p != x && Linked(db) && db[x].parents == []
    ensures Moved(db, x, [p]) == db[p := db[p].(children := SetAdd(db[p].children, x))][x := db[x].(parents := [p])]
  {
    assert [p][1..] == [];
    var d := db[p := db[p].(children := SetAdd(db[p].children, x))];
    assert Attach(db, [p], x) == Attach(d, [], x);
  }

  lemma MovedToNone(db: Db, x: int, p: int)
    requires x in db && p in db && p != x && Linked(db) && db[x].parents == [p]
    ensures Moved(db, x, []) == db[p := db[p].(children := SetRemove(db[p].children, x))][x := db[x].(parents := [])]
  {
    assert [p][1..] == [];
    var d := db[p := db[p].(children := SetRemove(db[p].children, x))];
    assert Detach(db, [p], x) == Detach(d, [], x);
  }

  // ---- the check fails ----

  /** 4 is a child of 2 and of 3, which are children of 1, which is a child of nobody or of 0. */
  function Diamond(under: bool): Db {
    map[0 := Obj([], if under then [1] else [], []), 1 := Obj(if under then [0] else [], [2, 3], []),
      2 := Obj([1], [4], []),
        3 := Obj([1], [4], []), 4 := Obj([2, 3], [], [])]
  }

  function Levels(): Ranks {
    map[0 := 0, 1 := 1, 2 := 2, 3 := 2, 4 := 3]
  }

  lemma DiamondLinked(under: bool)
    ensures Linked(Diamond(under))
  {
    var db := Diamond(under);
    forall o, c | o in db ensures c in db[o].children <==> c in db && o in db[c].parents {
      DiamondLinkedAt(under, o, c);
    }
    forall o | o in db ensures NoDup(db[o].children) && forall i ::
        0 <= i < |db[o].parents| ==> db[o].parents[i] in db {
    }
  }

  lemma DiamondLinkedAt(under: bool, o: int, c: int)
    requires o in Diamond(under)
    ensures var db := Diamond(under); c in db[o].children <==> c in db && o in db[c].parents
  {
    if c == 0 || c == 1 {
    } else if c == 2 || c == 3 {
    } else if c == 4 {
    }
  }

  lemma DiamondRanked(under: bool)
    ensures Ranked(Diamond(under), Levels()) && Linked(Diamond(under))
  {
    DiamondLinked(under);
    forall o | o in Diamond(under) ensures RankedAt(Diamond(under), Levels(), o) {
    }
  }

  lemma DiamondReach(under: bool)
    ensures Ranked(Diamond(under), Levels())
    ensures Reaches(Diamond(under), Levels(), 2, 1) && Reaches(Diamond(under), Levels(), 3, 1)
    ensures Reaches(Diamond(under), Levels(), 4, 1) && !Reaches(Diamond(under), Levels(), 0, 1)
  {
    hide Reaches, Ranked;
    var db, rk := Diamond(under), Levels();
    DiamondRanked(under);
    SelfReaches(db, rk, 1);
    InsideVia(db, rk, 2, 1, 1);
    InsideVia(db, rk, 3, 1, 1);
    InsideVia(db, rk, 4, 2, 1);
    Orphan(db, rk, 0, 1);
  }

  lemma SelfReaches(db: Db, rk: Ranks, o: int)
    requires Ranked(db, rk) && o in db
    ensures Reaches(db, rk, o, o)
  {
  }

  lemma Orphan(db: Db, rk: Ranks, o: int, x: int)
    requires Ranked(db, rk) && o in db && db[o].parents == [] && o != x
    ensures !Reaches(db, rk, o, x)
  {
  }

  lemma OnlyParent(db: Db, rk: Ranks, o: int, p: int, x: int)
    requires Ranked(db, rk) && o in db && p in db && db[o].parents == [p] && o != x && !Reaches(db, rk, p, x)
    ensures !Reaches(db, rk, o, x)
  {
  }

  ghost function DiamondMove(): Move {
    Move(Diamond(false), Levels(), Diamond(true), Levels(), 1)
  }

  lemma DiamondMoves()
    ensures MoveOk(DiamondMove()) && Wide(DiamondMove(), 4)
  {
    hide Reaches, Ranked, Linked;
    DiamondRanked(false);
    DiamondRanked(true);
    DiamondReach(false);
    var m := DiamondMove();
    assert m.db0[4].parents[0] == 2 && m.db0[4].parents[1] == 3;
    assert Inside(m.db0, m.rk0, m.db0[4].parents[0], 1) && Inside(m.db0, m.rk0, m.db0[4].parents[1], 1);
  }

  lemma NotBefore()
    ensures Ranked(Diamond(false), Levels()) && !Reaches(Diamond(false), Levels(), 4, 0)
  {
    hide Ranked;
    DiamondRanked(false);
    var db, rk := Diamond(false), Levels();
    Orphan(db, rk, 1, 0);
    OnlyParent(db, rk, 2, 1, 0);
    OnlyParent(db, rk, 3, 1, 0);
    assert db[4].parents == [2, 3];
  }

  lemma Afterwards()
    ensures Ranked(Diamond(true), Levels()) && Reaches(Diamond(true), Levels(), 4, 0)
  {
    hide Ranked, Reaches;
    DiamondRanked(true);
    var db, rk := Diamond(true), Levels();
    SelfReaches(db, rk, 0);
    InsideVia(db, rk, 1, 0, 0);
    InsideVia(db, rk, 2, 1, 0);
    InsideVia(db, rk, 4, 2, 0);
  }

  lemma DiamondMoved()
    ensures MakesMove(DiamondMove(), [0])
  {
    hide Linked, Moved;
    DiamondLinked(false);
    MovedToOne(Diamond(false), 1, 0);
    assert SetAdd([], 1) == [1];
  }

  /** 1 is given the parent 0, which defines a property: 4 has two parents inside the cone and gains a source, so the
      move does not get through. */
  lemma DiamondFails(defs: Defs)
    requires Len(defs, 0) > 0
    ensures MoveOk(DiamondMove()) && MakesMove(DiamondMove(), [0]) && !Keeps(DiamondMove(), defs)
  {
    DiamondMoved();
    hide Anc, Reaches, Ranked, Linked, Wide, MoveOk;
    DiamondMoves();
    var m := DiamondMove();
    NotBefore();
    Afterwards();
    Lists(m, 4) by { assert 4 in m.db0; }
    assert 0 in Now(m, 4) && 0 !in Was(m, 4);
    assert !SameSources(m, defs, 4);
  }

  // ---- the check holds and values are exchanged ----

  /** 4 is a child of 1, 3 and 0; 3 is a child of 1 and 2; 1 is a child of 0 or of nobody. */
  function Ladder(under: bool): Db {
    map[0 := Obj([], if under then [1, 4] else [4], []), 1 := Obj(if under then [0] else [], [3, 4], []),
      2 := Obj([], [3], []),
        3 := Obj([1, 2], [4], []), 4 := Obj([1, 3, 0], [], [])]
  }

  function Rungs(): Ranks {
    map[0 := 0, 2 := 0, 1 := 1, 3 := 2, 4 := 3]
  }

  /** 0 and 2 define a property each. */
  const HOME: Defs := map[0 := ["zero"], 1 := [], 2 := ["two"], 3 := [], 4 := []]

  lemma LadderRanked(under: bool)
    ensures Ranked(Ladder(under), Rungs()) && Linked(Ladder(under))
  {
    LadderLinked(under);
    forall o | o in Ladder(under) ensures RankedAt(Ladder(under), Rungs(), o) {
    }
  }

  lemma LadderLinked(under: bool)
    ensures Linked(Ladder(under))
  {
    var db := Ladder(under);
    forall o, c | o in db ensures c in db[o].children <==> c in db && o in db[c].parents {
      LadderLinkedAt(under, o, c);
    }
    forall o | o in db ensures NoDup(db[o].children) && forall i ::
        0 <= i < |db[o].parents| ==> db[o].parents[i] in db {
    }
  }

  lemma LadderLinkedAt(under: bool, o: int, c: int)
    requires o in Ladder(under)
    ensures var db := Ladder(under); c in db[o].children <==> c in db && o in db[c].parents
  {
    if c == 0 || c == 1 {
    } else if c == 2 || c == 3 {
    } else if c == 4 {
    }
  }

  ghost function LadderMove(): Move {
    Move(Ladder(true), Rungs(), Ladder(false), Rungs(), 1)
  }

  lemma LadderMoves()
    ensures MoveOk(LadderMove())
  {
    hide Ranked, Linked, Reaches;
    LadderRanked(true);
    LadderRanked(false);
    var m := LadderMove();
    assert m.db1[m.x].parents == [];
  }

  lemma ShortJoins()
    ensures AddAll([1], [0]) == [1, 0] && AddAll(AddAll([3], [1, 0]), [2]) == [3, 1, 0, 2]
        && AddAll(AddAll([3], [1]), [2]) == [3, 1, 2]
  {
    hide AddAll;
    AddThree([1], 0, 0, 0);
    AddThree([3], 1, 0, 0);
    assert SetAdd([3], 1) == [3, 1] && SetAdd([3, 1], 0) == [3, 1, 0];
    AddThree([3, 1, 0], 2, 0, 0);
    AddThree([3, 1], 2, 0, 0);
    assert SetAdd([3, 1, 0], 2) == [3, 1, 0, 2] && SetAdd([3, 1], 2) == [3, 1, 2];
  }

  lemma FirstLists(under: bool)
    ensures Ranked(Ladder(under), Rungs()) && Anc(Ladder(under), Rungs(), 0) == [0]
    ensures Anc(Ladder(under), Rungs(), 1) == if under then [1, 0] else [1]
    ensures Anc(Ladder(under), Rungs(), 3) == if under then [3, 1, 0, 2] else [3, 1, 2]
  {
    hide Anc, Ranked, AddAll;
    var db, rk := Ladder(under), Rungs();
    LadderRanked(under);
    AncOfNone(db, rk, 0);
    AncOfNone(db, rk, 2);
    ShortJoins();
    if under {
      AncOfOne(db, rk, 1, 0);
    } else {
      AncOfNone(db, rk, 1);
    }
    AncOfTwo(db, rk, 3, 1, 2);
  }

  /** Joins of the lists above. */
  lemma Joins()
    ensures AddAll(AddAll(AddAll([4], [1, 0]), [3, 1, 0, 2]), [0]) == [4, 1, 0, 3, 2]
    ensures AddAll(AddAll(AddAll([4], [1]), [3, 1, 2]), [0]) == [4, 1, 3, 2, 0]
    ensures AddAll(AddAll(AddAll([4], [1, 0]), [3, 1, 2]), [0]) == [4, 1, 0, 3, 2]
    ensures AddAll(AddAll(AddAll([4], [1]), [3, 1, 0, 2]), [0]) == [4, 1, 3, 0, 2]
  {
    hide AddAll;
    AddThree([4], 1, 0, 0);
    assert SetAdd([4], 1) == [4, 1] && SetAdd([4, 1], 0) == [4, 1, 0];
    JoinsA();
    JoinsB();
  }

  lemma JoinsA()
    ensures AddAll(AddAll([4, 1, 0], [3, 1, 0, 2]), [0]) == [4, 1, 0, 3, 2]
    ensures AddAll(AddAll([4, 1, 0], [3, 1, 2]), [0]) == [4, 1, 0, 3, 2]
  {
    hide AddAll;
    var s := [4, 1, 0];
    assert SetAdd(s, 3) == [4, 1, 0, 3] && SetAdd([4, 1, 0, 3], 2) == [4, 1, 0, 3, 2];
    var t := [4, 1, 0, 3];
    assert t[1] == 1 && t[2] == 0;
    assert SetAdd(t, 1) == t && SetAdd(t, 0) == t;
    AddThree(s, 3, 1, 0);
    AddThree(s, 3, 1, 2);
    AddPlus(s, [3, 1, 0], [2]);
    assert [3, 1, 0] + [2] == [3, 1, 0, 2];
    AddThree(t, 2, 0, 0);
    var u := [4, 1, 0, 3, 2];
    assert u[2] == 0;
    AddThree(u, 0, 0, 0);
  }

  lemma JoinsB()
    ensures AddAll(AddAll([4, 1], [3, 1, 2]), [0]) == [4, 1, 3, 2, 0]
    ensures AddAll(AddAll([4, 1], [3, 1, 0, 2]), [0]) == [4, 1, 3, 0, 2]
  {
    hide AddAll;
    var s := [4, 1];
    var t := [4, 1, 3];
    assert SetAdd(s, 3) == t && t[1] == 1 && SetAdd(t, 1) == t;
    assert SetAdd(t, 2) == [4, 1, 3, 2] && SetAdd([4, 1, 3, 2], 0) == [4, 1, 3, 2, 0];
    assert SetAdd(t, 0) == [4, 1, 3, 0] && SetAdd([4, 1, 3, 0], 2) == [4, 1, 3, 0, 2];
    AddThree(s, 3, 1, 2);
    AddThree(s, 3, 1, 0);
    AddPlus(s, [3, 1, 0], [2]);
    assert [3, 1, 0] + [2] == [3, 1, 0, 2];
    AddThree([4, 1, 3, 0], 2, 0, 0);
    AddThree([4, 1, 3, 2], 0, 0, 0);
    var u := [4, 1, 3, 0, 2];
    assert u[3] == 0;
    AddThree(u, 0, 0, 0);
  }

  /** 4 inherits from 0 and 2 before and after, but not in the same order. */
  lemma LadderLists()
    ensures MoveOk(LadderMove())
    ensures Was(LadderMove(), 4) == [4, 1, 0, 3, 2] && Now(LadderMove(), 4) == [4, 1, 3, 2, 0]
  {
    hide Anc, Ranked, AddAll, Joint;
    LadderMoves();
    FirstLists(true);
    FirstLists(false);
    Joins();
    AncOfThree(Ladder(true), Rungs(), 4, 1, 3, 0);
    AncOfThree(Ladder(false), Rungs(), 4, 1, 3, 0);
  }

  lemma OlderOfThree(m: Move, c: int, p: int, q: int, r: int, me: int, was: seq<int>)
    requires MoveOk(m) && c in m.db0 && c != m.x && m.db0[c].parents == [p, q, r] && AllIn(m, [p, q, r])
    ensures var of := (o: int) requires o in m.db0 => if o == me then was else Now(m, o);
            p in m.db0 && q in m.db0 && r in m.db0
              && ListFor(m, c, me, was) == AddAll(AddAll(AddAll([c], of(p)), of(q)), of(r))
  {
    hide Anc, AddAll, MoveOk;
    var ids := [p, q, r];
    assert ids[0] == p && ids[1] == q && ids[2] == r;
    assert ids[1..] == [q, r] && [q, r][1..] == [r] && [r][1..] == [];
    AllInTail(m, ids);
    AllInTail(m, [q, r]);
    AllInTail(m, [r]);
    var l1 := if p == me then was else Now(m, p);
    var l2 := if q == me then was else Now(m, q);
    var l3 := if r == me then was else Now(m, r);
    assert Older(m, [c], ids, me, was) == Older(m, AddAll([c], l1), [q, r], me, was);
    assert Older(m, AddAll([c], l1), [q, r], me, was) == Older(m, AddAll(AddAll([c], l1), l2), [r], me, was);
    assert Older(m, AddAll(AddAll([c], l1), l2), [r], me, was)
        == Older(m, AddAll(AddAll(AddAll([c], l1), l2), l3), [], me, was);
  }

  /** The lists with which 4 is visited, first from 3 and then from 1. */
  lemma LadderVisits()
    ensures MoveOk(LadderMove()) && AllIn(LadderMove(), LadderMove().db0[4].parents)
    ensures ListFor(LadderMove(), 4, 3, Was(LadderMove(), 3)) == [4, 1, 3, 0, 2]
    ensures ListFor(LadderMove(), 4, 1, Was(LadderMove(), 1)) == [4, 1, 0, 3, 2]
  {
    hide Anc, Ranked, AddAll, Older, ListFor;
    LadderMoves();
    FirstLists(true);
    FirstLists(false);
    Joins();
    var m := LadderMove();
    OlderOfThree(m, 4, 1, 3, 0, 3, Was(m, 3));
    OlderOfThree(m, 4, 1, 3, 0, 1, Was(m, 1));
  }

  lemma HomeDefiners()
    ensures Definers(HOME, [4, 1, 0, 3, 2]) == [0, 2] && Definers(HOME, [4, 1, 3, 0, 2]) == [0, 2]
        && Definers(HOME, [4, 1, 3, 2, 0]) == [2, 0]
  {
    hide Definers;
    DefinersOne(HOME, 0);
    DefinersOne(HOME, 1);
    DefinersOne(HOME, 2);
    DefinersOne(HOME, 3);
    DefinersOne(HOME, 4);
    FiveDefiners(4, 1, 0, 3, 2);
    FiveDefiners(4, 1, 3, 0, 2);
    FiveDefiners(4, 1, 3, 2, 0);
    assert [0] + [2] == [0, 2] && [2] + [0] == [2, 0];
  }

  lemma FiveDefiners(a: int, b: int, c: int, d: int, e: int)
    ensures Definers(HOME, [a, b, c, d, e])
            == Definers(HOME, [a]) + Definers(HOME, [b]) + Definers(HOME, [c]) + Definers(HOME, [d])
              + Definers(HOME, [e])
  {
    hide Definers;
    assert [a] + [b] + [c] + [d] + [e] == [a, b, c, d, e];
    DefinersPlus(HOME, [a] + [b] + [c] + [d], [e]);
    DefinersPlus(HOME, [a] + [b] + [c], [d]);
    DefinersPlus(HOME, [a] + [b], [c]);
    DefinersPlus(HOME, [a], [b]);
  }

  lemma LadderMoved()
    ensures MakesMove(LadderMove(), [])
  {
    hide Linked, Moved;
    LadderLinked(true);
    MovedToNone(Ladder(true), 1, 0);
    assert SetRemove([1, 4], 1) == [4];
  }

  /** Only 4 has two parents inside the cone. */
  lemma OnlyFour(c: int)
    requires MoveOk(LadderMove()) && Wide(LadderMove(), c)
    ensures c == 4
  {
    hide Ranked, Linked, Reaches;
    var m := LadderMove();
    Orphan(m.db0, m.rk0, 0, 1);
    Orphan(m.db0, m.rk0, 2, 1);
    assert !Inside(m.db0, m.rk0, 0, 1) && !Inside(m.db0, m.rk0, 2, 1);
    assert m.db0[3].parents == [1, 2];
  }

  lemma FourKeeps()
    ensures MoveOk(LadderMove()) && SameSources(LadderMove(), HOME, 4)
  {
    hide Anc, Ranked, MoveOk;
    LadderLists();
    var a, b := [4, 1, 0, 3, 2], [4, 1, 3, 2, 0];
    assert a[2] == 0 && a[4] == 2 && b[3] == 2 && b[4] == 0;
    forall o | Len(HOME, o) > 0 ensures o in a && o in b {
      assert o == 0 || o == 2;
    }
  }

  /** 1 moves from 0 to nobody. 4 has two parents inside the cone and keeps its sources, so every check holds; from 3
      it is visited with the right list, and from 1 with one that names its sources in the old order, although its
      values lie in the new one. */
  lemma LadderReorders()
    ensures var m := LadderMove();
            && MakesMove(m, []) && MoveOk(m) && AllIn(m, m.db0[4].parents) && Keeps(m, HOME) && !SameOrder(m, HOME, 4)
            && Definers(HOME, ListFor(m, 4, 3, Was(m, 3))) == Definers(HOME, Was(m, 4))
            && Definers(HOME, ListFor(m, 4, 1, Was(m, 1))) != Definers(HOME, Now(m, 4))
  {
    hide Anc, Ranked, AddAll, Older, ListFor, Definers, MoveOk, SameSources, Reaches, OneInside;
    LadderMoved();
    LadderLists();
    LadderVisits();
    HomeDefiners();
    FourKeeps();
    var m := LadderMove();
    forall c | Wide(m, c) ensures SameSources(m, HOME, c) {
      OnlyFour(c);
    }
    assert [0, 2][0] != [2, 0][0];
  }

  /** Whatever the two values are, the last visit gives 0's to 2 and 2's to 0. */
  lemma ValuesExchanged(two: Pval, zero: Pval, after: seq<Pval>)
    requires MoveOk(LadderMove()) && AllIn(LadderMove(), LadderMove().db0[4].parents)
    requires Relaid(HOME, ListFor(LadderMove(), 4, 1, Was(LadderMove(), 1)), Now(LadderMove(), 4), [two, zero], after)
    ensures after == [zero, two]
  {
    hide Anc, Ranked, AddAll, Older, ListFor, Definers, MoveOk, Total, Offset;
    LadderLists();
    LadderVisits();
    var was, now := [4, 1, 0, 3, 2], [4, 1, 3, 2, 0];
    HomeDefiners();
    assert was[2] == 0 && was[4] == 2 && now[3] == 2 && now[4] == 0;
    TwoLayout(was, 0, 2);
    TwoLayout(now, 2, 0);
    assert RelaidSlot(HOME, was, now, [two, zero], after, 0, 0);
    assert RelaidSlot(HOME, was, now, [two, zero], after, 2, 0);
  }

  lemma TwoLayout(s: seq<int>, a: int, b: int)
    requires Definers(HOME, s) == [a, b] && a != b && (a == 0 || a == 2) && (b == 0 || b == 2)
    ensures Total(HOME, s) == 2 && Offset(HOME, s, a) == 0 && Offset(HOME, s, b) == 1
  {
    TotalOfDefiners(HOME, s);
    OffsetOfDefiners(HOME, s, a);
    OffsetOfDefiners(HOME, s, b);
    assert Len(HOME, a) == 1 && Len(HOME, b) == 1;
    assert [a, b][1..] == [b] && [b][1..] == [];
    assert Total(HOME, [b]) == 1 && Offset(HOME, [b], b) == 0;
  }

  // ---- order changes and nothing is lost ----

  /** 3 is a child of 1 and 2; 2 is a child of 1 and 0; 1 is a child of nobody or of 0. */
  function Fork(under: bool): Db {
    map[0 := Obj([], if under then [2, 1] else [2], []), 1 := Obj(if under then [0] else [], [2, 3], []),
      2 := Obj([1, 0], [3], []),
        3 := Obj([1, 2], [], [])]
  }

  function Tines(): Ranks {
    map[0 := 0, 1 := 1, 2 := 2, 3 := 3]
  }

  /** 0, 1 and 2 define a property each. */
  const THREE: Defs := map[0 := ["zero"], 1 := ["one"], 2 := ["two"], 3 := []]

  lemma ForkRanked(under: bool)
    ensures Ranked(Fork(under), Tines()) && Linked(Fork(under))
  {
    var db := Fork(under);
    forall o, c | o in db ensures c in db[o].children <==> c in db && o in db[c].parents {
      ForkLinkedAt(under, o, c);
    }
    forall o | o in db ensures NoDup(db[o].children) && forall i ::
        0 <= i < |db[o].parents| ==> db[o].parents[i] in db {
    }
    forall o | o in db ensures RankedAt(db, Tines(), o) {
    }
  }

  lemma ForkLinkedAt(under: bool, o: int, c: int)
    requires o in Fork(under)
    ensures var db := Fork(under); c in db[o].children <==> c in db && o in db[c].parents
  {
    if c == 0 || c == 1 {
    } else if c == 2 || c == 3 {
    }
  }

  ghost function ForkMove(): Move {
    Move(Fork(false), Tines(), Fork(true), Tines(), 1)
  }

  lemma ForkMoved()
    ensures MakesMove(ForkMove(), [0])
  {
    hide Linked, Moved, Ranked;
    ForkRanked(false);
    MovedToOne(Fork(false), 1, 0);
    assert SetAdd([2], 1) == [2, 1];
  }

  lemma ForkMoves()
    ensures MoveOk(ForkMove()) && Wide(ForkMove(), 3)
  {
    hide Ranked, Linked, Reaches;
    ForkRanked(false);
    ForkRanked(true);
    var m := ForkMove();
    Orphan(m.db0, m.rk0, 0, 1);
    SelfReaches(m.db0, m.rk0, 1);
    InsideVia(m.db0, m.rk0, 2, 1, 1);
    InsideVia(m.db0, m.rk0, 3, 1, 1);
    assert m.db0[3].parents[0] == 1 && m.db0[3].parents[1] == 2;
    assert Inside(m.db0, m.rk0, m.db0[3].parents[0], 1) && Inside(m.db0, m.rk0, m.db0[3].parents[1], 1);
  }

  lemma ForkJoins()
    ensures AddAll([1], [0]) == [1, 0] && AddAll(AddAll([2], [1]), [0]) == [2, 1, 0]
        && AddAll(AddAll([2], [1, 0]), [0]) == [2, 1, 0]
    ensures AddAll(AddAll([3], [1]), [2, 1, 0]) == [3, 1, 2, 0]
        && AddAll(AddAll([3], [1, 0]), [2, 1, 0]) == [3, 1, 0, 2]
  {
    hide AddAll;
    AddThree([1], 0, 0, 0);
    AddThree([2], 1, 0, 0);
    assert SetAdd([2], 1) == [2, 1] && SetAdd([2, 1], 0) == [2, 1, 0];
    AddThree([2, 1], 0, 0, 0);
    var a := [2, 1, 0];
    assert a[2] == 0;
    AddThree(a, 0, 0, 0);
    ForkJoinsMore();
  }

  lemma ForkJoinsMore()
    ensures AddAll(AddAll([3], [1]), [2, 1, 0]) == [3, 1, 2, 0]
        && AddAll(AddAll([3], [1, 0]), [2, 1, 0]) == [3, 1, 0, 2]
  {
    hide AddAll;
    AddThree([3], 1, 0, 0);
    assert SetAdd([3], 1) == [3, 1] && SetAdd([3, 1], 0) == [3, 1, 0];
    AddThree([3, 1], 2, 1, 0);
    AddThree([3, 1, 0], 2, 1, 0);
    var a, b := [3, 1, 2], [3, 1, 0, 2];
    assert a[1] == 1 && b[1] == 1 && b[2] == 0;
    assert SetAdd([3, 1], 2) == a && SetAdd(a, 1) == a && SetAdd(a, 0) == [3, 1, 2, 0];
    assert SetAdd([3, 1, 0], 2) == b && SetAdd(b, 1) == b && SetAdd(b, 0) == b;
  }

  lemma ForkLists(under: bool)
    ensures Ranked(Fork(under), Tines()) && Anc(Fork(under), Tines(), 1) == if under then [1, 0] else [1]
    ensures Anc(Fork(under), Tines(), 2) == [2, 1, 0] && Anc(Fork(under), Tines(), 3) == if under then [3, 1, 0, 2]
        else [3, 1, 2, 0]
  {
    hide Anc, Ranked, AddAll;
    var db, rk := Fork(under), Tines();
    ForkRanked(under);
    ForkJoins();
    AncOfNone(db, rk, 0);
    if under {
      AncOfOne(db, rk, 1, 0);
    } else {
      AncOfNone(db, rk, 1);
    }
    AncOfTwo(db, rk, 2, 1, 0);
    AncOfTwo(db, rk, 3, 1, 2);
  }

  lemma OlderOfTwo(m: Move, c: int, p: int, q: int, me: int, was: seq<int>)
    requires MoveOk(m) && c in m.db0 && c != m.x && m.db0[c].parents == [p, q] && AllIn(m, [p, q])
    ensures p in m.db0 && q in m.db0
    ensures ListFor(m, c, me, was)
        == AddAll(AddAll([c], if p == me then was else Now(m, p)), if q == me then was else Now(m, q))
  {
    hide Anc, AddAll, MoveOk;
    var ids := [p, q];
    assert ids[0] == p && ids[1] == q && ids[1..] == [q] && [q][1..] == [];
    AllInTail(m, ids);
    AllInTail(m, [q]);
    var l1 := if p == me then was else Now(m, p);
    var l2 := if q == me then was else Now(m, q);
    assert Older(m, [c], ids, me, was) == Older(m, AddAll([c], l1), [q], me, was);
    assert Older(m, AddAll([c], l1), [q], me, was) == Older(m, AddAll(AddAll([c], l1), l2), [], me, was);
  }

  lemma ForkLists3()
    ensures var m := ForkMove();
            && MoveOk(m) && Was(m, 3) == [3, 1, 2, 0] && Now(m, 3) == [3, 1, 0, 2]
            && Was(m, 1) == [1] && Now(m, 1) == [1, 0] && Was(m, 2) == [2, 1, 0] && Now(m, 2) == [2, 1, 0]
  {
    hide Anc, Ranked, AddAll;
    ForkMoves();
    ForkLists(false);
    ForkLists(true);
  }

  lemma ForkVisits()
    ensures var m := ForkMove();
            && MoveOk(m) && AllIn(m, m.db0[3].parents)
            && ListFor(m, 3, 2, Was(m, 2)) == [3, 1, 0, 2] && ListFor(m, 3, 1, Was(m, 1)) == [3, 1, 2, 0]
  {
    hide Anc, Ranked, AddAll, Older, ListFor, MoveOk, Was, Now;
    ForkLists3();
    ForkJoins();
    var m := ForkMove();
    assert m.db0[3].parents == [1, 2];
    OlderOfTwo(m, 3, 1, 2, 2, Was(m, 2));
    OlderOfTwo(m, 3, 1, 2, 1, Was(m, 1));
  }

  lemma ThreeDefiners()
    ensures Definers(THREE, [3, 1, 2, 0]) == [1, 2, 0] && Definers(THREE, [3, 1, 0, 2]) == [1, 0, 2]
  {
    hide Definers;
    DefinersOne(THREE, 0);
    DefinersOne(THREE, 1);
    DefinersOne(THREE, 2);
    DefinersOne(THREE, 3);
    FourDefiners(3, 1, 2, 0);
    FourDefiners(3, 1, 0, 2);
    assert [] + [1] + [2] + [0] == [1, 2, 0] && [] + [1] + [0] + [2] == [1, 0, 2];
  }

  lemma FourDefiners(a: int, b: int, c: int, d: int)
    ensures Definers(THREE, [a, b, c, d])
            == Definers(THREE, [a]) + Definers(THREE, [b]) + Definers(THREE, [c]) + Definers(THREE, [d])
  {
    hide Definers;
    assert [a] + [b] + [c] + [d] == [a, b, c, d];
    DefinersPlus(THREE, [a] + [b] + [c], [d]);
    DefinersPlus(THREE, [a] + [b], [c]);
    DefinersPlus(THREE, [a], [b]);
  }

  lemma ThreeLayout(s: seq<int>, a: int, b: int, c: int)
    requires Definers(THREE, s) == [a, b, c] && a != b && a != c && b != c
    requires Len(THREE, a) == 1 && Len(THREE, b) == 1 && Len(THREE, c) == 1
    ensures Total(THREE, s) == 3 && Offset(THREE, s, a) == 0 && Offset(THREE, s, b) == 1 && Offset(THREE, s, c) == 2
  {
    hide Len, Definers;
    TotalOfDefiners(THREE, s);
    OffsetOfDefiners(THREE, s, a);
    OffsetOfDefiners(THREE, s, b);
    OffsetOfDefiners(THREE, s, c);
    assert [a, b, c][1..] == [b, c] && [b, c][1..] == [c] && [c][1..] == [];
    assert Total(THREE, [c]) == 1 && Offset(THREE, [c], c) == 0;
    assert Total(THREE, [b, c]) == 2 && Offset(THREE, [b, c], c) == 1 && Offset(THREE, [b, c], b) == 0;
  }

  /** One visit with the lists of the fork. */
  lemma ForkRelays(was: seq<int>, one: Pval, second: Pval, third: Pval, after: seq<Pval>)
    requires was == [3, 1, 2, 0] || was == [3, 1, 0, 2]
    requires Relaid(THREE, was, [3, 1, 0, 2], [one, second, third], after)
    ensures after == if was == [3, 1, 2, 0] then [one, third, second] else [one, second, third]
  {
    hide Definers, Total, Offset;
    var now := [3, 1, 0, 2];
    ThreeDefiners();
    assert was[1] == 1 && ((was[2] == 2 && was[3] == 0) || (was[2] == 0 && was[3] == 2)) && now[1] == 1 && now[2] == 0
        && now[3] == 2;
    if was == now { ThreeLayout(was, 1, 0, 2); } else { ThreeLayout(was, 1, 2, 0); }
    ThreeLayout(now, 1, 0, 2);
    assert RelaidSlot(THREE, was, now, [one, second, third], after, 0, 0);
    assert RelaidSlot(THREE, was, now, [one, second, third], after, 1, 0);
    assert RelaidSlot(THREE, was, now, [one, second, third], after, 2, 0);
  }

  /** 1 is given the parent 0. 3 has two parents inside the cone and inherits in another order; visited from 2 its
      values stay where they are, though 0 and 2 change places in the list, and visited from 1 they change places too:
      in the end each is where it belongs. */
  lemma ForkCancels(one: Pval, two: Pval, zero: Pval, between: seq<Pval>, after: seq<Pval>)
    requires MoveOk(ForkMove()) && AllIn(ForkMove(), ForkMove().db0[3].parents)
    requires Relaid(THREE, ListFor(ForkMove(), 3, 2, Was(ForkMove(), 2)), Now(ForkMove(), 3), [one, two, zero], between)
    requires Relaid(THREE, ListFor(ForkMove(), 3, 1, Was(ForkMove(), 1)), Now(ForkMove(), 3), between, after)
    ensures MakesMove(ForkMove(), [0]) && !Calm(ForkMove(), THREE)
    ensures Relaid(THREE, Was(ForkMove(), 3), Now(ForkMove(), 3), [one, two, zero], after)
  {
    hide Anc, Ranked, AddAll, Older, ListFor, Definers, MoveOk, Total, Offset, Wide;
    ForkMoved();
    ForkMoves();
    ForkLists3();
    ForkVisits();
    ThreeDefiners();
    var m := ForkMove();
    assert [1, 2, 0][1] != [1, 0, 2][1];
    assert !SameOrder(m, THREE, 3);
    ForkRelays([3, 1, 0, 2], one, two, zero, between);
    assert between == [one, two, zero];
    ForkRelays([3, 1, 2, 0], one, two, zero, after);
  }
}
