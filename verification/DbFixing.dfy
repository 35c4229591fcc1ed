/** The course of dbpriv_fix_properties_after_chparent: which objects have been laid out anew, what its check of the
    number of values finds out, and what comes up more than once. */
module DbFixing {
  import opened DbGraph
  import opened DbLinks
  import opened DbAncestors
  import opened DbDescendants
  import opened DbLayout
  import opened DbSlots
  import opened DbJoin
  import opened DbChparent
  import opened DbCone
  import opened DbHybrid
  import opened DbGifts

  /** Every object has as many values as its ancestors define properties. */
  ghost predicate LaidOut(db: Db, rk: Ranks, defs: Defs, vals: Vals)
    requires Ranked(db, rk)
  {
    && defs.Keys == db.Keys && vals.Keys == db.Keys
    && forall o :: o in db ==> LaidOutAt(db, rk, defs, vals, o)
  }

  ghost predicate LaidOutAt(db: Db, rk: Ranks, defs: Defs, vals: Vals, o: int)
    requires Ranked(db, rk) && o in db && o in vals
  {
    |vals[o]| == Total(defs, Anc(db, rk, o))
  }

  ghost predicate RelaidAt(m: Move, defs: Defs, vals0: Vals, vals: Vals, o: int)
    requires MoveOk(m)
  {
    o in m.db0 && o in vals0 && o in vals && Relaid(defs, Was(m, o), Now(m, o), vals0[o], vals[o])
  }

  /** The fixed ones have as many values as they should, and if order is kept the right ones; the others are as
      they were. */
  ghost predicate Fixing(m: Move, defs: Defs, vals0: Vals, vals: Vals, fixed: set<int>) {
    && MoveOk(m) && LaidOut(m.db0, m.rk0, defs, vals0) && vals.Keys == m.db0.Keys
    && (forall o :: o in fixed ==> FixedAt(m, defs, vals0, vals, o))
    && (forall o :: o in m.db0 && o !in fixed ==> vals[o] == vals0[o])
  }

  ghost predicate FixedAt(m: Move, defs: Defs, vals0: Vals, vals: Vals, o: int)
    requires MoveOk(m)
  {
    In(m, o) && o in vals && |vals[o]| == Total(defs, Now(m, o))
      && (Calm(m, defs) ==> RelaidAt(m, defs, vals0, vals, o))
  }

  lemma NothingFixed(m: Move, defs: Defs, vals: Vals)
    requires MoveOk(m) && LaidOut(m.db0, m.rk0, defs, vals)
    ensures Fixing(m, defs, vals, vals, {})
  {
  }

  // ---- what the check finds ----

  ghost predicate NoGain(m: Move, defs: Defs, c: int)
    requires MoveOk(m) && c in m.db0
  {
    forall a :: a in Now(m, c) && Len(defs, a) > 0 ==> a in Was(m, c)
  }

  ghost predicate NoLoss(m: Move, defs: Defs, c: int)
    requires MoveOk(m) && c in m.db0
  {
    forall a :: a in Was(m, c) && Len(defs, a) > 0 ==> a in Now(m, c)
  }

  /** The first time, the values are still those of the old list. */
  lemma FirstCheck(m: Move, defs: Defs, vals0: Vals, vals: Vals, fixed: set<int>, me: int, was: seq<int>)
    requires Fixing(m, defs, vals0, vals, fixed) && Visitable(m, defs, me, was) && me !in fixed
    ensures Keeps(m, defs) ==> |vals[me]| == Total(defs, was)
    ensures |vals[me]| == Total(defs, was) && Wide(m, me) ==> NoGain(m, defs, me)
  {
    hide Anc, Total, Definers, Reaches, Keeps, Calm, Wide;
    assert LaidOutAt(m.db0, m.rk0, defs, vals0, me);
    Lists(m, me);
    TotalsCompare(defs, Was(m, me), was);
    if Keeps(m, defs) {
      TotalsCompare(defs, was, Was(m, me));
    }
  }

  /** Later they are those of the new list. */
  lemma LaterCheck(m: Move, defs: Defs, vals0: Vals, vals: Vals, fixed: set<int>, me: int, was: seq<int>)
    requires Fixing(m, defs, vals0, vals, fixed) && Visitable(m, defs, me, was) && me in fixed && Unmoved(m, defs, me)
    ensures Keeps(m, defs) ==> |vals[me]| == Total(defs, was)
    ensures |vals[me]| == Total(defs, was) && Wide(m, me) ==> NoLoss(m, defs, me)
  {
    hide Anc, Total, Definers, Reaches, Keeps, Calm, Wide, SameOrder;
    assert FixedAt(m, defs, vals0, vals, me);
    Lists(m, me);
    if Keeps(m, defs) {
      TotalsCompare(defs, was, Now(m, me));
      TotalsCompare(defs, Now(m, me), was);
    }
    if Wide(m, me) {
      TotalsCompare(defs, Now(m, me), was);
    }
  }

  /** What has been found out: seen are the children that have been visited, each with the parent it was visited
      from. */
  ghost predicate Evidence(m: Move, defs: Defs, fixed: set<int>, seen: set<(int, int)>)
    requires MoveOk(m)
  {
    && (forall c :: c in fixed && Wide(m, c) ==> NoGain(m, defs, c))
    && (forall p, q, c :: (p, c) in seen && (q, c) in seen && p != q && Wide(m, c) ==> NoLoss(m, defs, c))
    && (forall p, c :: (p, c) in seen ==> c in fixed)
  }

  lemma NoEvidence(m: Move, defs: Defs)
    requires MoveOk(m)
    ensures Evidence(m, defs, {}, {})
  {
  }

  lemma MoreEvidence(m: Move, defs: Defs, fixed: set<int>, seen: set<(int, int)>, from: int, me: int)
    requires MoveOk(m) && Evidence(m, defs, fixed, seen)
    requires Wide(m, me) ==> if me in fixed then NoLoss(m, defs, me) else NoGain(m, defs, me)
    ensures Evidence(m, defs, fixed + {me}, seen + {(from, me)})
  {
    hide MoveOk, Reaches, OneInside, NoGain, NoLoss;
    forall p, q, c | (p, c) in seen + {(from, me)} && (q, c) in seen + {(from, me)} && p != q
        && Wide(m, c) ensures NoLoss(m, defs, c) {
      if c == me {
        assert (p, c) in seen || (q, c) in seen;
      }
    }
  }

  /** Once every child has been visited from every parent, each descendant with two parents inside has kept its
      sources. */
  lemma EvidenceKeeps(m: Move, defs: Defs, fixed: set<int>, seen: set<(int, int)>)
    requires MoveOk(m) && Evidence(m, defs, fixed, seen) && (forall o :: o in fixed <==> In(m, o))
        && AllSeen(m, m.x, seen)
    ensures Keeps(m, defs)
  {
    hide MoveOk, Reaches, OneInside, Anc, AllSeen;
    forall c | Wide(m, c) ensures SameSources(m, defs, c) {
      var p, q := TwoEdges(m, c, seen);
      assert NoGain(m, defs, c) && NoLoss(m, defs, c);
    }
  }

  lemma TwoEdges(m: Move, c: int, seen: set<(int, int)>) returns (p: int, q: int)
    requires MoveOk(m) && Wide(m, c) && AllSeen(m, m.x, seen)
    ensures p != q && (p, c) in seen && (q, c) in seen
  {
    hide Reaches, Ranked;
    var i, j :| 0 <= i < |m.db0[c].parents| && 0 <= j < |m.db0[c].parents|
        && Inside(m.db0, m.rk0, m.db0[c].parents[i], m.x)
      && Inside(m.db0, m.rk0, m.db0[c].parents[j], m.x) && m.db0[c].parents[i] != m.db0[c].parents[j];
    p, q := m.db0[c].parents[i], m.db0[c].parents[j];
    Parents(m, c);
    assert c in m.db1[p].children && c in m.db1[q].children;
  }

  /** The object and everything below it have been visited, each child from each of them. */
  ghost predicate AllSeen(m: Move, me: int, seen: set<(int, int)>)
    requires MoveOk(m)
  {
    forall p, c :: Inside(m.db0, m.rk0, p, me) && p in m.db1 && c in m.db1[p].children ==> (p, c) in seen
  }

  // ---- one object ----

  lemma VisitStart(m: Move, defs: Defs, vals0: Vals, vals: Vals, fixed: set<int>, me: int, was: seq<int>)
    requires Fixing(m, defs, vals0, vals, fixed) && Visitable(m, defs, me, was)
    ensures me in m.db0 && me in m.db1 && m.db0.Keys == m.db1.Keys && vals.Keys == m.db1.Keys && defs.Keys == m.db1.Keys
    ensures Ranked(m.db1, m.rk1) && Ranked(m.db0, m.rk0) && me in was && forall x :: x in was ==> x in defs
  {
  }

  /** Where the new values of an object are read: the parent it is visited from, or parents outside. */
  ghost predicate Readable(m: Move, fixed: set<int>, me: int, was: seq<int>)
    requires MoveOk(m) && me in m.db1
  {
    forall p :: p in m.db1[me].parents
                ==> p in m.db0 && (p in fixed || !In(m, p) || forall y :: y in Now(m, p) ==> y in was)
  }

  lemma ParentsReadable(m: Move, defs: Defs, vals0: Vals, vals: Vals, fixed: set<int>, me: int, was: seq<int>)
    requires Fixing(m, defs, vals0, vals, fixed) && me in m.db1 && Readable(m, fixed, me, was)
    ensures forall p :: p in m.db1[me].parents ==>
      p in m.db1 && p in vals && (|vals[p]| == Total(defs, Anc(m.db1, m.rk1, p)) || forall y ::
        y in Anc(m.db1, m.rk1, p) ==> y in was)
  {
    hide Anc, Total, Reaches, Calm;
    forall p | p in m.db1[me].parents
      ensures p in m.db1 && p in vals
          && (|vals[p]| == Total(defs, Now(m, p)) || forall y :: y in Now(m, p) ==> y in was)
    {
      if p in fixed {
        assert FixedAt(m, defs, vals0, vals, p);
      } else if !In(m, p) {
        assert LaidOutAt(m.db0, m.rk0, defs, vals0, p);
        SameOutside(m, p);
      }
    }
  }

  lemma FixedOne(m: Move, defs: Defs, vals0: Vals, vals1: Vals, vals: Vals, fixed: set<int>, me: int, was: seq<int>)
    requires Fixing(m, defs, vals0, vals1, fixed) && Visitable(m, defs, me, was)
        && (me in fixed ==> Unmoved(m, defs, me))
    requires vals.Keys == m.db0.Keys && forall o :: o in m.db0 && o != me ==> vals[o] == vals1[o]
    requires Relaid(defs, was, Now(m, me), vals1[me], vals[me])
    ensures Fixing(m, defs, vals0, vals, fixed + {me})
  {
    hide Anc, Keeps, Calm, Definers, Wide, Reaches;
    assert FixedAt(m, defs, vals0, vals, me) by {
      if Calm(m, defs) {
        if me in fixed {
          assert FixedAt(m, defs, vals0, vals1, me);
          SameAgain(m, defs, me, was, vals1[me], vals[me]);
        } else {
          SameRelaid(defs, was, Was(m, me), Now(m, me), vals1[me], vals[me]);
        }
      }
    }
    forall o | o in fixed + {me} ensures FixedAt(m, defs, vals0, vals, o) {
      if o != me {
        assert FixedAt(m, defs, vals0, vals1, o);
      }
    }
  }

  lemma SameAgain(m: Move, defs: Defs, me: int, was: seq<int>, before: seq<Pval>, after: seq<Pval>)
    requires Visitable(m, defs, me, was) && Calm(m, defs) && Unmoved(m, defs, me)
        && Relaid(defs, was, Now(m, me), before, after)
    ensures after == before
  {
    hide Anc, Keeps, Calm, Definers, Wide, Reaches, SameSources;
    Lists(m, me);
    RelaidAgain(defs, was, Now(m, me), before, after);
  }

  /** What is new to the object has been given to it, for the first time or again. */
  lemma GiftsOne(m: Move, defs: Defs, owners: map<int, int>, vals0: Vals, vals1: Vals, vals: Vals, fixed: set<int>,
      me: int, was: seq<int>)
    requires Fixing(m, defs, vals0, vals1, fixed) && Visitable(m, defs, me, was)
        && (me in fixed ==> Unmoved(m, defs, me))
    requires vals.Keys == m.db0.Keys && forall o :: o in m.db0 && o != me ==> vals[o] == vals1[o]
    requires Relaid(defs, was, Now(m, me), vals1[me], vals[me]) && Gifts(m, defs, owners, vals1, fixed)
        && owners.Keys == m.db0.Keys
    requires me in m.db1 && Given(m.db1, m.rk1, defs, vals1, owners[me], me, was, Now(m, me), vals[me])
        && Readable(m, fixed, me, was)
    ensures Gifts(m, defs, owners, vals, fixed + {me})
  {
    hide Anc, Keeps, Calm, Definers, Wide, Reaches, Given, Relaid, Visitable;
    if me !in fixed {
      GiftsMore(m, defs, owners, vals1, vals, fixed, me, was);
    } else if Calm(m, defs) {
      SameAgain(m, defs, me, was, vals1[me], vals[me]);
      forall o | o in vals ensures vals[o] == vals1[o] {
      }
      assert vals == vals1;
      assert fixed + {me} == fixed;
    }
  }

  // ---- the children ----

  /** What children are after the move, they were before. */
  lemma KidsOf(m: Move, me: int)
    requires MoveOk(m) && In(m, me)
    ensures me in m.db1 && NoDup(m.db1[me].children)
    ensures forall c :: c in m.db1[me].children ==> IsKid(m, me, c)
  {
    forall c | c in m.db1[me].children ensures IsKid(m, me, c) {
      assert me in m.db1[c].parents;
      assert c != m.x;
      InsideVia(m.db0, m.rk0, c, me, m.x);
    }
  }

  /** So far: what was fixed before, the object, and everything below these children. */
  ghost predicate FixedKids(m: Move, fixed: set<int>, me: int, kids: seq<int>, after: set<int>)
    requires MoveOk(m)
  {
    forall o :: o in after <==> o in fixed || o == me || BelowOne(m, o, kids)
  }

  ghost predicate BelowOne(m: Move, o: int, kids: seq<int>)
    requires MoveOk(m)
  {
    exists k :: 0 <= k < |kids| && Inside2(m, o, kids[k])
  }

  ghost predicate Inside2(m: Move, o: int, c: int)
    requires MoveOk(m)
  {
    Inside(m.db0, m.rk0, o, c)
  }

  /** What is below the object and has been fixed before inherits alike. */
  ghost predicate Revisited(m: Move, defs: Defs, fixed: set<int>, me: int)
    requires MoveOk(m)
  {
    forall o :: o in fixed && Inside(m.db0, m.rk0, o, me) ==> o in m.db0 && Unmoved(m, defs, o)
  }

  lemma NoKids(m: Move, fixed: set<int>, me: int, seen: set<(int, int)>)
    requires MoveOk(m)
    ensures FixedKids(m, fixed, me, [], fixed + {me}) && SeenKids(m, me, [], seen)
  {
  }

  ghost predicate SeenKids(m: Move, me: int, kids: seq<int>, seen: set<(int, int)>)
    requires MoveOk(m)
  {
    forall k :: 0 <= k < |kids| ==> (me, kids[k]) in seen && AllSeen(m, kids[k], seen)
  }

  lemma {:induction false} KidFacts(m: Move, defs: Defs, me: int, was: seq<int>, kids: seq<int>, i: nat,
      fixed: set<int>, after: set<int>, top: nat)
    requires Visitable(m, defs, me, was) && kids == m.db1[me].children && i < |kids|
    requires FixedKids(m, fixed, me, kids[..i], after) && Revisited(m, defs, fixed, me) && Bounded(m.db1, m.rk1, top)
    ensures var c := kids[i];
            && IsKid(m, me, c) && AllIn(m, m.db0[c].parents) && Visitable(m, defs, c, ListFor(m, c, me, was))
            && Revisited(m, defs, after, c) && Readable(m, after, c, ListFor(m, c, me, was))
            && c in m.rk1 && me in m.rk1 && Gap(top, m.rk1[c]) < Gap(top, m.rk1[me])
  {
    hide Reaches, Ranked, Linked, Visitable, Keeps, Calm, Anc, ListFor, Unmoved, SameParents;
    var c := kids[i];
    VisitableIs(m, defs, me, was);
    KidsOf(m, me);
    assert c in kids;
    ChildVisitable(m, defs, c, me, was);
    forall o | o in after && Inside(m.db0, m.rk0, o, c) ensures o in m.db0 && Unmoved(m, defs, o) {
      SeenBefore(m, defs, me, kids, i, fixed, o);
    }
    Parents(m, c);
    assert Readable(m, after, c, ListFor(m, c, me, was));
    ParentBelow(m.db1, m.rk1, c, me);
    assert m.rk1[c] <= top;
  }

  lemma VisitableIs(m: Move, defs: Defs, me: int, was: seq<int>)
    requires Visitable(m, defs, me, was)
    ensures MoveOk(m) && In(m, me)
  {
  }

  lemma {:induction false} SeenBefore(m: Move, defs: Defs, me: int, kids: seq<int>, i: nat, fixed: set<int>, o: int)
    requires MoveOk(m) && In(m, me) && kids == m.db1[me].children && i < |kids| && Revisited(m, defs, fixed, me)
    requires (o in fixed || o == me || BelowOne(m, o, kids[..i])) && Inside(m.db0, m.rk0, o, kids[i])
    ensures o in m.db0 && Unmoved(m, defs, o)
  {
    hide Reaches, Ranked, Linked, Unmoved;
    var c := kids[i];
    KidsOf(m, me);
    assert c in kids;
    DirectlyBelow(m, c, me);
    ReachTrans(m.db0, m.rk0, o, c, me);
    if o in fixed {
    } else if o == me {
      ParentBelow(m.db0, m.rk0, c, me);
      ReachesBelow(m.db0, m.rk0, me, c);
    } else {
      var k :| 0 <= k < |kids[..i]| && Inside2(m, o, kids[..i][k]);
      assert kids[k] in kids && kids[..i][k] == kids[k];
      Twice(m, defs, o, kids[k], c, me);
    }
  }

  lemma DirectlyBelow(m: Move, c: int, me: int)
    requires MoveOk(m) && c in m.db0 && me in m.db0 && me in m.db0[c].parents
    ensures Inside(m.db0, m.rk0, c, me)
  {
    assert Reaches(m.db0, m.rk0, me, me);
    InsideVia(m.db0, m.rk0, c, me, me);
  }

  lemma MoreKids(m: Move, fixed: set<int>, me: int, kids: seq<int>, i: nat, before: set<int>, after: set<int>,
      seen: set<(int, int)>, seen': set<(int, int)>)
    requires MoveOk(m) && i < |kids| && FixedKids(m, fixed, me, kids[..i], before) && SeenKids(m, me, kids[..i], seen)
    requires forall o :: o in after <==> o in before || Inside(m.db0, m.rk0, o, kids[i])
    requires seen <= seen' && (me, kids[i]) in seen' && AllSeen(m, kids[i], seen')
    ensures FixedKids(m, fixed, me, kids[..i + 1], after) && SeenKids(m, me, kids[..i + 1], seen')
  {
    hide Inside, Ranked, Linked, SameParents, AllSeen;
    forall o ensures BelowOne(m, o, kids[..i + 1]) <==> BelowOne(m, o, kids[..i]) || Inside(m.db0, m.rk0, o, kids[i]) {
      if BelowOne(m, o, kids[..i + 1]) {
        var k :| 0 <= k < |kids[..i + 1]| && Inside2(m, o, kids[..i + 1][k]);
        if k < i {
          assert kids[..i][k] == kids[k];
        }
      }
      if BelowOne(m, o, kids[..i]) {
        var k :| 0 <= k < |kids[..i]| && Inside2(m, o, kids[..i][k]);
        assert kids[..i + 1][k] == kids[k];
      }
      if Inside(m.db0, m.rk0, o, kids[i]) {
        assert kids[..i + 1][i] == kids[i];
        assert Inside2(m, o, kids[..i + 1][i]);
      }
    }
    SeenMore(m, me, kids, i, seen, seen');
  }

  lemma SeenMore(m: Move, me: int, kids: seq<int>, i: nat, seen: set<(int, int)>, seen': set<(int, int)>)
    requires MoveOk(m) && i < |kids| && SeenKids(m, me, kids[..i], seen)
    requires seen <= seen' && (me, kids[i]) in seen' && AllSeen(m, kids[i], seen')
    ensures SeenKids(m, me, kids[..i + 1], seen')
  {
    hide MoveOk, Inside;
    var few, more := kids[..i], kids[..i + 1];
    forall k | 0 <= k < |more| ensures (me, more[k]) in seen' && AllSeen(m, more[k], seen') {
      if k < i {
        assert few[k] == more[k];
        StillSeen(m, few[k], seen, seen');
      }
    }
  }

  lemma StillSeen(m: Move, me: int, seen: set<(int, int)>, seen': set<(int, int)>)
    requires MoveOk(m) && AllSeen(m, me, seen) && seen <= seen'
    ensures AllSeen(m, me, seen')
  {
  }

  /** Whatever is below the object is the object or below one of its children. */
  lemma {:induction false} LastStep(m: Move, o: int, me: int) returns (c: int)
    requires MoveOk(m) && In(m, me) && Inside(m.db0, m.rk0, o, me) && o != me
    ensures c in m.db1[me].children && Inside(m.db0, m.rk0, o, c)
    decreases if o in m.rk0 then m.rk0[o] else 0
  {
    assert RankedAt(m.db0, m.rk0, o);
    var i :| 0 <= i < |m.db0[o].parents| && m.db0[o].parents[i] in m.db0
        && Reaches(m.db0, m.rk0, m.db0[o].parents[i], me);
    var p := m.db0[o].parents[i];
    if p == me {
      c := o;
      NotX(m.db0, m.rk0, o, me, m.x);
      assert o in m.db1[me].children;
    } else {
      c := LastStep(m, p, me);
      assert Reaches(m.db0, m.rk0, o, c);
    }
  }

  lemma {:induction false} AllKids(m: Move, fixed: set<int>, me: int, kids: seq<int>, after: set<int>,
      seen: set<(int, int)>)
    requires MoveOk(m) && In(m, me) && kids == m.db1[me].children && FixedKids(m, fixed, me, kids, after)
        && SeenKids(m, me, kids, seen)
    ensures forall o :: o in after <==> o in fixed || Inside(m.db0, m.rk0, o, me)
    ensures AllSeen(m, me, seen)
  {
    hide Ranked, Linked, SameParents;
    KidsOf(m, me);
    forall o ensures o in after <==> o in fixed || Inside(m.db0, m.rk0, o, me) {
      if Inside(m.db0, m.rk0, o, me) && o != me {
        var c := LastStep(m, o, me);
        var k :| 0 <= k < |kids| && kids[k] == c;
        assert Inside2(m, o, kids[k]);
      }
      if BelowOne(m, o, kids) {
        var k :| 0 <= k < |kids| && Inside2(m, o, kids[k]);
        assert kids[k] in kids;
        DirectlyBelow(m, kids[k], me);
        ReachTrans(m.db0, m.rk0, o, kids[k], me);
      }
    }
    forall p, c | Inside(m.db0, m.rk0, p, me) && p in m.db1 && c in m.db1[p].children ensures (p, c) in seen {
      if p == me {
        var k :| 0 <= k < |kids| && kids[k] == c;
      } else {
        var d := LastStep(m, p, me);
        var k :| 0 <= k < |kids| && kids[k] == d;
        assert AllSeen(m, kids[k], seen);
      }
    }
  }

  /** In the end every object has the values of its list in the new graph. */
  lemma AllFixed(m: Move, defs: Defs, vals0: Vals, vals: Vals, fixed: set<int>)
    requires Fixing(m, defs, vals0, vals, fixed) && forall o :: o in fixed <==> In(m, o)
    ensures LaidOut(m.db1, m.rk1, defs, vals)
    ensures Calm(m, defs) ==> AllRelaid(m, defs, vals0, vals)
    ensures Untouched(m, vals0, vals)
  {
    hide Anc, Total, Inside, Calm, Ranked, Linked;
    forall o | o in m.db1 ensures LaidOutAt(m.db1, m.rk1, defs, vals, o) {
      if o in fixed {
        assert FixedAt(m, defs, vals0, vals, o);
      } else {
        assert LaidOutAt(m.db0, m.rk0, defs, vals0, o);
        SameOutside(m, o);
      }
    }
    if Calm(m, defs) {
      forall o | In(m, o) ensures RelaidAt(m, defs, vals0, vals, o) {
        assert FixedAt(m, defs, vals0, vals, o);
      }
    }
  }

  /** Everything inside the cone has the values of its new list: what was inherited before and still is keeps its
      value, and what is new is clear. */
  ghost predicate AllRelaid(m: Move, defs: Defs, vals0: Vals, vals: Vals)
    requires MoveOk(m)
  {
    forall o :: In(m, o) ==> RelaidAt(m, defs, vals0, vals, o)
  }

  ghost predicate Untouched(m: Move, vals0: Vals, vals: Vals)
    requires MoveOk(m)
  {
    forall o :: o in m.db0 && !In(m, o) ==> o in vals0 && o in vals && vals[o] == vals0[o]
  }

  // ---- the lists of a child ----

  lemma OlderStep(m: Move, older: seq<int>, newer: seq<int>, ids: seq<int>, i: nat, me: int, was: seq<int>)
    requires MoveOk(m) && i < |ids| && AllIn(m, ids[i..])
    ensures AllIn(m, ids[i + 1..]) && ids[i] in m.db0 && ids[i] in m.db1
    ensures Older(m, older, ids[i..], me, was)
        == Older(m, AddAll(older, if ids[i] == me then was else Now(m, ids[i])), ids[i + 1..], me, was)
    ensures JointNow(m, newer, ids[i..]) == JointNow(m, AddAll(newer, Now(m, ids[i])), ids[i + 1..])
  {
    hide Anc, AddAll, Joint;
    assert ids[i..][0] == ids[i] && ids[i..][1..] == ids[i + 1..];
    JointsStep(m, newer, ids[i..]);
  }

  lemma OlderEnd(m: Move, older: seq<int>, newer: seq<int>, me: int, was: seq<int>)
    requires MoveOk(m)
    ensures Older(m, older, [], me, was) == older && JointNow(m, newer, []) == newer
  {
  }

  lemma IsAnc(db: Db, rk: Ranks, o: int, list: seq<int>)
    requires Ranked(db, rk) && o in db && o in rk && Below(db, rk, db[o].parents, rk[o])
    requires list == [o] + Visit(db, rk, db[o].parents, {}, rk[o]).0
    ensures list == Anc(db, rk, o)
  {
  }

  lemma MovedBounded(db: Db, rk: Ranks, x: int, ps: seq<int>, top: nat)
    requires Ranked(db, rk) && Linked(db) && x in db && (forall i :: 0 <= i < |ps| ==> ps[i] in db)
        && Bounded(db, rk, top)
    ensures Bounded(Moved(db, x, ps), Lifted(db, rk, x, ps), top + Limit(rk, ps))
  {
    hide Moved, Reaches;
  }

  lemma MoveIsOk(m: Move, ps: seq<int>)
    requires Ranked(m.db0, m.rk0) && Ranked(m.db1, m.rk1) && Linked(m.db0) && Linked(m.db1)
        && SameParents(m.db0, m.db1, m.x)
    requires m.x in m.db0 && m.db1[m.x].parents == ps
    requires forall i :: 0 <= i < |ps| ==> ps[i] in m.db0 && !Reaches(m.db0, m.rk0, ps[i], m.x)
    ensures MoveOk(m)
  {
  }

  /** x itself comes first: its new parents are outside. */
  lemma TopFirst(m: Move, defs: Defs)
    requires MoveOk(m)
    ensures m.x in m.db1 && In(m, m.x) && Revisited(m, defs, {}, m.x) && Readable(m, {}, m.x, Was(m, m.x))
    ensures Visitable(m, defs, m.x, Was(m, m.x)) && Evidence(m, defs, {}, {})
  {
    hide Anc;
    TopVisitable(m, defs);
    NoEvidence(m, defs);
    forall p | p in m.db1[m.x].parents ensures p in m.db0 {
      var i :| 0 <= i < |m.db1[m.x].parents| && m.db1[m.x].parents[i] == p;
    }
  }
}
