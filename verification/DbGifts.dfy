/** What an object is given for the properties it did not inherit before: the value is clear, owner and permissions are
    those of the first parent that inherits the property. */
module DbGifts {
  import opened DbGraph
  import opened DbLinks
  import opened DbLayout
  import opened DbSlots
  import opened DbJoin
  import opened DbChparent
  import opened DbCone
  import opened DbHybrid

  type Vals = map<int, seq<Pval>>

  /** The first of these parents that has a among its ancestors. */
  ghost function Giver(db: Db, rk: Ranks, ids: seq<int>, a: int): int
    requires Ranked(db, rk)
  {
    if ids == [] then 0 else if ids[0] in db && a in Anc(db, rk, ids[0]) then ids[0] else Giver(db, rk, ids[1..], a)
  }

  lemma {:induction false} GiverIs(db: Db, rk: Ranks, ids: seq<int>, a: int, k: nat)
    requires Ranked(db, rk) && k < |ids| && ids[k] in db && a in Anc(db, rk, ids[k])
    requires forall i :: 0 <= i < k ==> ids[i] in db && a !in Anc(db, rk, ids[i])
    ensures Giver(db, rk, ids, a) == ids[k]
    decreases k
  {
    hide Anc;
    if k > 0 {
      assert ids[0] in db && a !in Anc(db, rk, ids[0]);
      GiverIs(db, rk, ids[1..], a, k - 1);
    }
  }

  /** p gives v as the j-th property of a to an object of this owner. */
  ghost predicate Gives(db: Db, rk: Ranks, defs: Defs, vals: Vals, p: int, a: int, j: nat, owner: int, v: Pval)
    requires Ranked(db, rk)
  {
    p in db && p in vals && a in Anc(db, rk, p) && j < Len(defs, a) && |vals[p]| == Total(defs, Anc(db, rk, p))
    && v == Inherited(Slot(defs, Anc(db, rk, p), vals[p], a, j), owner)
  }

  /** The values by this list are given by the first parents wherever the old list does not have them. */
  ghost predicate Given(db: Db, rk: Ranks, defs: Defs, vals: Vals, owner: int, me: int, was: seq<int>, list: seq<int>,
      after: seq<Pval>)
    requires Ranked(db, rk) && me in db
  {
    |after| == Total(defs, list)
    && forall a, j: nat :: a in list && a !in was && j < Len(defs, a) ==>
         Gives(db, rk, defs, vals, Giver(db, rk, db[me].parents, a), a, j, owner, Slot(defs, list, after, a, j))
  }

  lemma GivenNone(db: Db, rk: Ranks, defs: Defs, vals: Vals, owner: int, me: int, was: seq<int>)
    requires Ranked(db, rk) && me in db
    ensures Given(db, rk, defs, vals, owner, me, was, [], [])
  {
  }

  lemma {:induction false} GivenMore(db: Db, rk: Ranks, defs: Defs, vals: Vals, owner: int, me: int, was: seq<int>,
      list: seq<int>, a: int, after: seq<Pval>, part: seq<Pval>)
    requires Ranked(db, rk) && me in db && Given(db, rk, defs, vals, owner, me, was, list, after) && a !in list
        && |part| == Len(defs, a)
    requires a !in was ==> forall j: nat ::
        j < |part| ==> Gives(db, rk, defs, vals, Giver(db, rk, db[me].parents, a), a, j, owner, part[j])
    ensures Given(db, rk, defs, vals, owner, me, was, list + [a], after + part)
  {
    hide Gives, Giver, Ranked;
    TotalPlus(defs, list, [a]);
    assert [a][1..] == [];
    assert list + [a] + [] == list + [a];
    OffsetPlus(defs, list, a, []);
    forall b, j: nat | b in list + [a] && b !in was && j < Len(defs, b)
      ensures Gives(db, rk, defs, vals, Giver(db, rk, db[me].parents, b), b, j, owner,
          Slot(defs, list + [a], after + part, b, j))
    {
      if b in list {
        OffsetPrefix(defs, list, [a], b);
        OffsetFits(defs, list, b);
        assert Slot(defs, list + [a], after + part, b, j) == Slot(defs, list, after, b, j);
      } else {
        assert Slot(defs, list + [a], after + part, b, j) == part[j];
      }
    }
  }

  // ---- over a change of parents ----

  ghost predicate GivenAt(m: Move, defs: Defs, owners: map<int, int>, vals: Vals, o: int)
    requires MoveOk(m)
  {
    o in m.db0 && o in m.db1 && o in owners && o in vals
      && Given(m.db1, m.rk1, defs, vals, owners[o], o, Was(m, o), Now(m, o), vals[o])
  }

  /** Its givers will not change any more. */
  ghost predicate Settled(m: Move, defs: Defs, fixed: set<int>, o: int)
    requires MoveOk(m)
  {
    o in m.db0 && o in m.db1
    && forall a :: a in Now(m, o) && a !in Was(m, o) && Len(defs, a) > 0 ==>
         var p := Giver(m.db1, m.rk1, m.db1[o].parents, a); p in fixed || !In(m, p)
  }

  /** The fixed ones have been given what is new to them. */
  ghost predicate Gifts(m: Move, defs: Defs, owners: map<int, int>, vals: Vals, fixed: set<int>)
    requires MoveOk(m)
  {
    Calm(m, defs) ==> forall o :: o in fixed ==> GivenAt(m, defs, owners, vals, o) && Settled(m, defs, fixed, o)
  }

  /** In the end: everything inside the cone has been given what is new to it. */
  ghost predicate AllGiven(m: Move, defs: Defs, owners: map<int, int>, vals: Vals)
    requires MoveOk(m)
  {
    forall o :: In(m, o) ==> GivenAt(m, defs, owners, vals, o)
  }

  lemma NoGifts(m: Move, defs: Defs, owners: map<int, int>, vals: Vals)
    requires MoveOk(m)
    ensures Gifts(m, defs, owners, vals, {})
  {
  }

  lemma {:induction false} GiverThere(db: Db, rk: Ranks, ids: seq<int>, a: int)
    requires Ranked(db, rk) && exists k :: 0 <= k < |ids| && ids[k] in db && a in Anc(db, rk, ids[k])
    ensures Giver(db, rk, ids, a) in ids && Giver(db, rk, ids, a) in db && a in Anc(db, rk, Giver(db, rk, ids, a))
    decreases |ids|
  {
    hide Anc, Ranked;
    if !(ids[0] in db && a in Anc(db, rk, ids[0])) {
      var k :| 0 <= k < |ids| && ids[k] in db && a in Anc(db, rk, ids[k]);
      assert ids[1..][k - 1] == ids[k];
      GiverThere(db, rk, ids[1..], a);
    }
  }

  /** An ancestor other than the object itself comes from a parent. */
  lemma GiverOf(m: Move, o: int, a: int)
    requires MoveOk(m) && o in m.db0 && a in Now(m, o) && a != o
    ensures o in m.db1
    ensures var p := Giver(m.db1, m.rk1, m.db1[o].parents, a);
        p in m.db1[o].parents && p in m.db0 && p in m.db1 && p != o && a in Now(m, p)
  {
    hide Anc, Giver, Reaches;
    Lists(m, o);
    var p := ViaNew(m, o, a);
    var ids := m.db1[o].parents;
    var k :| 0 <= k < |ids| && ids[k] == p;
    GiverThere(m.db1, m.rk1, ids, a);
    ParentBelow(m.db1, m.rk1, o, Giver(m.db1, m.rk1, ids, a));
  }

  /** Values of others than the givers may change. */
  lemma GivenStays(m: Move, defs: Defs, owners: map<int, int>, vals1: Vals, vals: Vals, o: int, me: int)
    requires MoveOk(m) && GivenAt(m, defs, owners, vals1, o) && o != me && vals.Keys == vals1.Keys
    requires forall x :: x in vals && x != me ==> vals[x] == vals1[x]
    requires forall a :: a in Now(m, o) && a !in Was(m, o) && Len(defs, a) > 0
                         ==> Giver(m.db1, m.rk1, m.db1[o].parents, a) != me
    ensures GivenAt(m, defs, owners, vals, o)
  {
    hide Anc, Giver, Ranked, Linked, SameParents, Inside, Total, Offset;
    forall a, j: nat | a in Now(m, o) && a !in Was(m, o) && j < Len(defs, a)
      ensures Gives(m.db1, m.rk1, defs, vals, Giver(m.db1, m.rk1, m.db1[o].parents, a), a, j, owners[o],
          Slot(defs, Now(m, o), vals[o], a, j))
    {
      var p := Giver(m.db1, m.rk1, m.db1[o].parents, a);
      assert Gives(m.db1, m.rk1, defs, vals1, p, a, j, owners[o], Slot(defs, Now(m, o), vals1[o], a, j));
    }
  }

  /** The list with which an object is visited leaves out what the old list leaves out. */
  lemma GivenHere(m: Move, defs: Defs, owners: map<int, int>, vals1: Vals, vals: Vals, me: int, was: seq<int>)
    requires Visitable(m, defs, me, was) && Calm(m, defs) && me in m.db1 && me in owners && me in vals
        && vals.Keys == vals1.Keys
    requires forall x :: x in vals && x != me ==> vals[x] == vals1[x]
    requires Given(m.db1, m.rk1, defs, vals1, owners[me], me, was, Now(m, me), vals[me])
    ensures GivenAt(m, defs, owners, vals, me)
  {
    hide Anc, Giver, Ranked, Linked, SameParents, Inside, Total, Offset, Definers, Keeps, Calm, Wide;
    SameDefiners(defs, was, Was(m, me));
    Lists(m, me);
    forall a, j: nat | a in Now(m, me) && a !in Was(m, me) && j < Len(defs, a)
      ensures Gives(m.db1, m.rk1, defs, vals, Giver(m.db1, m.rk1, m.db1[me].parents, a), a, j, owners[me],
                    Slot(defs, Now(m, me), vals[me], a, j))
    {
      GiverOf(m, me, a);
      var p := Giver(m.db1, m.rk1, m.db1[me].parents, a);
      assert Gives(m.db1, m.rk1, defs, vals1, p, a, j, owners[me], Slot(defs, Now(m, me), vals[me], a, j));
    }
  }

  lemma SettledHere(m: Move, defs: Defs, fixed: set<int>, me: int, was: seq<int>)
    requires Visitable(m, defs, me, was) && Calm(m, defs) && me in m.db1
    requires forall p :: p in m.db1[me].parents
                         ==> p in m.db0 && (p in fixed || !In(m, p) || forall y :: y in Now(m, p) ==> y in was)
    ensures Settled(m, defs, fixed, me)
  {
    hide Anc, Giver, Ranked, Linked, SameParents, Inside, Definers, Keeps, Calm, Wide;
    SameDefiners(defs, was, Was(m, me));
    Lists(m, me);
    forall a | a in Now(m, me) && a !in Was(m, me) && Len(defs, a) > 0
      ensures var p := Giver(m.db1, m.rk1, m.db1[me].parents, a); p in fixed || !In(m, p)
    {
      GiverOf(m, me, a);
    }
  }

  /** One more object has been visited for the first time. */
  lemma GiftsMore(m: Move, defs: Defs, owners: map<int, int>, vals1: Vals, vals: Vals, fixed: set<int>, me: int,
      was: seq<int>)
    requires Visitable(m, defs, me, was) && Gifts(m, defs, owners, vals1, fixed) && me !in fixed && me in m.db1
        && me in owners && me in vals
    requires vals.Keys == vals1.Keys && forall x :: x in vals && x != me ==> vals[x] == vals1[x]
    requires Given(m.db1, m.rk1, defs, vals1, owners[me], me, was, Now(m, me), vals[me])
    requires forall p :: p in m.db1[me].parents
                         ==> p in m.db0 && (p in fixed || !In(m, p) || forall y :: y in Now(m, p) ==> y in was)
    ensures Gifts(m, defs, owners, vals, fixed + {me})
  {
    hide Visitable, MoveOk, Giver, Given, Inside, Calm, Definers, Anc;
    VisitedIn(m, defs, me, was);
    if Calm(m, defs) {
      GivenHere(m, defs, owners, vals1, vals, me, was);
      SettledHere(m, defs, fixed, me, was);
      forall o | o in fixed + {me} ensures GivenAt(m, defs, owners, vals, o) && Settled(m, defs, fixed + {me}, o) {
        if o in fixed {
          assert GivenAt(m, defs, owners, vals1, o) && Settled(m, defs, fixed, o);
          GivenStays(m, defs, owners, vals1, vals, o, me);
        }
      }
    }
  }

  lemma VisitedIn(m: Move, defs: Defs, me: int, was: seq<int>)
    requires Visitable(m, defs, me, was)
    ensures MoveOk(m) && In(m, me)
  {
  }

  lemma GiftsEnd(m: Move, defs: Defs, owners: map<int, int>, vals: Vals, fixed: set<int>)
    requires MoveOk(m) && Gifts(m, defs, owners, vals, fixed) && Calm(m, defs) && forall o :: o in fixed <==> In(m, o)
    ensures AllGiven(m, defs, owners, vals)
  {
  }
}
