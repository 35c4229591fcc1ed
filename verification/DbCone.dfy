/** The objects below one that is given other parents: their ancestor lists before and after, and the lists that are put
    together from some of both. */
module DbCone {
  import opened DbGraph
  import opened DbLinks
  import opened DbLayout
  import opened DbSlots
  import opened DbJoin
  import opened DbChparent

  /** The graph before and after x was given other parents. */
  datatype Move = Move(db0: Db, rk0: Ranks, db1: Db, rk1: Ranks, x: int)

  ghost predicate MoveOk(m: Move) {
    && Ranked(m.db0, m.rk0) && Ranked(m.db1, m.rk1) && Linked(m.db0) && Linked(m.db1) && SameParents(m.db0, m.db1, m.x)
    && m.x in m.db0 && forall p :: p in m.db1[m.x].parents ==> !Inside(m.db0, m.rk0, p, m.x)
  }

  /** The second graph is what db_change_parents makes of the first. */
  ghost predicate MakesMove(m: Move, ps: seq<int>) {
    m.x in m.db0 && Linked(m.db0) && (forall i :: 0 <= i < |ps| ==> ps[i] in m.db0) && m.db1 == Moved(m.db0, m.x, ps)
  }

  ghost predicate In(m: Move, o: int)
    requires MoveOk(m)
  {
    Inside(m.db0, m.rk0, o, m.x)
  }

  ghost function Was(m: Move, o: int): seq<int>
    requires MoveOk(m) && o in m.db0
  {
    Anc(m.db0, m.rk0, o)
  }

  ghost function Now(m: Move, o: int): seq<int>
    requires MoveOk(m) && o in m.db0
  {
    Anc(m.db1, m.rk1, o)
  }

  /** A strict descendant with more than one parent inside the cone. */
  ghost predicate Wide(m: Move, c: int)
    requires MoveOk(m)
  {
    In(m, c) && c != m.x && !OneInside(m.db0, m.rk0, c, m.x)
  }

  /** It inherits properties from the same objects before and after. */
  ghost predicate SameSources(m: Move, defs: Defs, c: int)
    requires MoveOk(m) && c in m.db0
  {
    forall a :: Len(defs, a) > 0 ==> (a in Was(m, c) <==> a in Now(m, c))
  }

  /** And in the same order. */
  ghost predicate SameOrder(m: Move, defs: Defs, c: int)
    requires MoveOk(m) && c in m.db0
  {
    Definers(defs, Was(m, c)) == Definers(defs, Now(m, c))
  }

  ghost predicate Keeps(m: Move, defs: Defs)
    requires MoveOk(m)
  {
    forall c :: Wide(m, c) ==> SameSources(m, defs, c)
  }

  ghost predicate Calm(m: Move, defs: Defs)
    requires MoveOk(m)
  {
    forall c :: Wide(m, c) ==> SameOrder(m, defs, c)
  }

  lemma OrderIsSources(m: Move, defs: Defs, c: int)
    requires MoveOk(m) && c in m.db0 && SameOrder(m, defs, c)
    ensures SameSources(m, defs, c)
  {
    SameDefiners(defs, Was(m, c), Now(m, c));
  }

  lemma CalmKeeps(m: Move, defs: Defs)
    requires MoveOk(m) && Calm(m, defs)
    ensures Keeps(m, defs)
  {
    forall c | Wide(m, c) ensures SameSources(m, defs, c) {
      OrderIsSources(m, defs, c);
    }
  }

  /** If every descendant has one parent inside the cone there is nothing to keep. */
  lemma NarrowIsCalm(m: Move, defs: Defs)
    requires MoveOk(m) && forall o :: In(m, o) && o != m.x ==> OneInside(m.db0, m.rk0, o, m.x)
    ensures Calm(m, defs)
  {
  }

  // ---- ancestors as sets ----

  lemma Lists(m: Move, o: int)
    requires MoveOk(m) && o in m.db0
    ensures o in m.db1 && m.db0.Keys == m.db1.Keys
    ensures NoDup(Was(m, o)) && NoDup(Now(m, o)) && o in Was(m, o) && o in Now(m, o)
    ensures forall y :: y in Was(m, o) <==> y in m.db0 && Reaches(m.db0, m.rk0, o, y)
    ensures forall y :: y in Now(m, o) <==> y in m.db1 && Reaches(m.db1, m.rk1, o, y)
  {
    AncNoDup(m.db0, m.rk0, o);
    AncNoDup(m.db1, m.rk1, o);
    assert Reaches(m.db0, m.rk0, o, o) && Reaches(m.db1, m.rk1, o, o);
  }

  lemma SameOutside(m: Move, o: int)
    requires MoveOk(m) && o in m.db0 && !In(m, o)
    ensures Was(m, o) == Now(m, o)
  {
    AncOutside(m.db0, m.rk0, m.db1, m.rk1, o, m.x);
  }

  /** Other than x, objects keep their parents. */
  lemma Parents(m: Move, c: int)
    requires MoveOk(m) && c in m.db0 && c != m.x
    ensures c in m.db1 && m.db1[c].parents == m.db0[c].parents
    ensures forall p :: p in m.db0[c].parents ==> p in m.db0 && p in m.db1
  {
    forall p | p in m.db0[c].parents ensures p in m.db0 && p in m.db1 {
      var i :| 0 <= i < |m.db0[c].parents| && m.db0[c].parents[i] == p;
    }
  }

  lemma Up(m: Move, c: int, p: int, y: int)
    requires MoveOk(m) && c in m.db0 && c != m.x && p in m.db0[c].parents && p in m.db0
    ensures y in Was(m, p) ==> y in Was(m, c)
    ensures y in Now(m, p) ==> y in Now(m, c)
  {
    hide Anc;
    Lists(m, p);
    Lists(m, c);
    Parents(m, c);
    if y in Was(m, p) {
      InsideVia(m.db0, m.rk0, c, p, y);
    }
    if y in Now(m, p) {
      InsideVia(m.db1, m.rk1, c, p, y);
    }
  }

  lemma ViaOld(m: Move, c: int, y: int) returns (p: int)
    requires MoveOk(m) && c in m.db0 && y in Was(m, c) && y != c
    ensures p in m.db0 && p in m.db0[c].parents && y in Was(m, p)
  {
    hide Anc;
    Lists(m, c);
    p := Towards(m.db0, m.rk0, c, y);
    Lists(m, p);
  }

  lemma ViaNew(m: Move, c: int, y: int) returns (p: int)
    requires MoveOk(m) && c in m.db0 && y in Now(m, c) && y != c
    ensures p in m.db0 && p in m.db1[c].parents && y in Now(m, p)
  {
    hide Anc;
    Lists(m, c);
    p := Towards(m.db1, m.rk1, c, y);
    Lists(m, p);
  }

  lemma TopIn(m: Move, q: int, y: int)
    requires MoveOk(m) && In(m, q)
    ensures In(m, m.x) && q in m.db0
    ensures y in Was(m, m.x) ==> y in Was(m, q)
    ensures y in Now(m, m.x) ==> y in Now(m, q)
  {
    hide Anc;
    Lists(m, q);
    Lists(m, m.x);
    if y in Was(m, m.x) {
      ReachTrans(m.db0, m.rk0, q, m.x, y);
    }
    if y in Now(m, m.x) {
      ConeSame(m.db0, m.rk0, m.db1, m.rk1, q, m.x);
      ReachTrans(m.db1, m.rk1, q, m.x, y);
    }
  }

  /** An ancestor that is lost was one of x's. */
  lemma {:induction false} LostByTop(m: Move, q: int, y: int)
    requires MoveOk(m) && In(m, q) && y in Was(m, q)
    ensures y in Now(m, q) || y in Was(m, m.x)
    decreases if q in m.rk0 then m.rk0[q] else 0
  {
    hide Anc, Ranked, Linked, SameParents, Reaches;
    Lists(m, q);
    if q != m.x && y != q {
      var p := ViaOld(m, q, y);
      ParentBelow(m.db0, m.rk0, q, p);
      if In(m, p) {
        LostByTop(m, p, y);
      } else {
        SameOutside(m, p);
      }
      Up(m, q, p, y);
    }
  }

  /** One that is gained is one of x's. */
  lemma {:induction false} GainedByTop(m: Move, q: int, y: int)
    requires MoveOk(m) && In(m, q) && y in Now(m, q)
    ensures y in Was(m, q) || y in Now(m, m.x)
    decreases if q in m.rk0 then m.rk0[q] else 0
  {
    hide Anc, Ranked, Linked, SameParents, Reaches;
    Lists(m, q);
    if q != m.x && y != q {
      var p := ViaNew(m, q, y);
      Parents(m, q);
      ParentBelow(m.db0, m.rk0, q, p);
      if In(m, p) {
        GainedByTop(m, p, y);
      } else {
        SameOutside(m, p);
      }
      Up(m, q, p, y);
    }
  }

  // ---- what does not change above does not change below ----

  /** A parent inside the cone inherits from the same objects: so does the child. */
  lemma SourcesDown(m: Move, defs: Defs, c: int, p: int)
    requires MoveOk(m) && In(m, c) && c != m.x && p in m.db0 && p in m.db0[c].parents && In(m, p)
        && SameSources(m, defs, p)
    ensures SameSources(m, defs, c)
  {
    hide Anc, Ranked, Linked, SameParents, Reaches;
    forall a | Len(defs, a) > 0 ensures a in Was(m, c) <==> a in Now(m, c) {
      if a in Was(m, c) {
        LostByTop(m, c, a);
        TopIn(m, p, a);
        Up(m, c, p, a);
      }
      if a in Now(m, c) {
        GainedByTop(m, c, a);
        TopIn(m, p, a);
        Up(m, c, p, a);
      }
    }
  }
}
