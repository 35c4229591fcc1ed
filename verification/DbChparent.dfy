/** What moving an object to other parents does to the ancestor lists of everything below it. */
module DbChparent {
  import opened DbGraph
  import opened DbLinks
  import opened DbAncestors
  import opened DbLayout

  /** Only x has other parents. */
  ghost predicate SameParents(db: Db, db': Db, x: int) {
    db.Keys == db'.Keys && forall o :: o in db && o != x ==> db'[o].parents == db[o].parents
  }

  lemma MovedSame(db: Db, x: int, ps: seq<int>)
    requires x in db && Linked(db) && forall i :: 0 <= i < |ps| ==> ps[i] in db
    ensures SameParents(db, Moved(db, x, ps), x) && Moved(db, x, ps)[x].parents == ps
  {
    hide Moved;
    forall o | o in db ensures Moved(db, x, ps)[o].parents == if o == x then ps else db[o].parents {
      MovedAt(db, x, ps, o);
    }
  }

  // ---- outside the cone nothing changes ----

  lemma ConeUp(db: Db, rk: Ranks, o: int, x: int, i: nat)
    requires Ranked(db, rk) && o in db && !Reaches(db, rk, o, x) && i < |db[o].parents| && db[o].parents[i] in db
    ensures !Reaches(db, rk, db[o].parents[i], x)
  {
  }

  lemma {:induction false} VisitOutside(db: Db, rk: Ranks, db': Db, rk': Ranks, ids: seq<int>, marks: set<int>,
      bound: nat, bound': nat, x: int)
    requires Ranked(db, rk) && Ranked(db', rk') && SameParents(db, db', x) && Below(db, rk, ids, bound)
        && Below(db', rk', ids, bound')
    requires forall i :: 0 <= i < |ids| && ids[i] in db ==> !Reaches(db, rk, ids[i], x)
    ensures Visit(db, rk, ids, marks, bound) == Visit(db', rk', ids, marks, bound')
    decreases bound, |ids|
  {
    if ids != [] {
      if ids[0] !in db || ids[0] in marks {
        VisitOutside(db, rk, db', rk', ids[1..], marks, bound, bound', x);
      } else {
        var h := ids[0];
        assert RankedAt(db, rk, h);
        assert RankedAt(db', rk', h);
        assert h != x;
        forall i | 0 <= i < |db[h].parents| && db[h].parents[i] in db ensures !Reaches(db, rk, db[h].parents[i], x) {
          ConeUp(db, rk, h, x, i);
        }
        VisitOutside(db, rk, db', rk', db[h].parents, marks + {h}, rk[h], rk'[h], x);
        VisitOutside(db, rk, db', rk', ids[1..], Visit(db, rk, db[h].parents, marks + {h}, rk[h]).1, bound, bound', x);
      }
    }
  }

  lemma {:induction false} AncOutside(db: Db, rk: Ranks, db': Db, rk': Ranks, o: int, x: int)
    requires Ranked(db, rk) && Ranked(db', rk') && SameParents(db, db', x) && o in db && x in db
        && !Reaches(db, rk, o, x)
    ensures Anc(db, rk, o) == Anc(db', rk', o)
  {
    assert RankedAt(db, rk, o);
    assert RankedAt(db', rk', o);
    assert Reaches(db, rk, x, x);
    forall i | 0 <= i < |db[o].parents| && db[o].parents[i] in db ensures !Reaches(db, rk, db[o].parents[i], x) {
      ConeUp(db, rk, o, x, i);
    }
    VisitOutside(db, rk, db', rk', db[o].parents, {}, rk[o], rk'[o], x);
  }

  /** The cone itself is the same before and after. */
  lemma {:induction false} ConeSame(db: Db, rk: Ranks, db': Db, rk': Ranks, o: int, x: int)
    requires Ranked(db, rk) && Ranked(db', rk') && SameParents(db, db', x) && o in db && Reaches(db, rk, o, x)
    ensures Reaches(db', rk', o, x)
    decreases if o in rk then rk[o] else 0
  {
    assert RankedAt(db, rk, o);
    if o != x {
      var i :| 0 <= i < |db[o].parents| && db[o].parents[i] in db && Reaches(db, rk, db[o].parents[i], x);
      ConeSame(db, rk, db', rk', db[o].parents[i], x);
      assert db'[o].parents[i] in db';
    }
  }

  // ---- inside the cone ----

  ghost predicate Inside(db: Db, rk: Ranks, o: int, x: int)
    requires Ranked(db, rk)
  {
    o in db && Reaches(db, rk, o, x)
  }

  ghost predicate OneInside(db: Db, rk: Ranks, o: int, x: int)
    requires Ranked(db, rk) && o in db
  {
    forall i, j :: 0 <= i < |db[o].parents| && 0 <= j < |db[o].parents| && Inside(db, rk, db[o].parents[i], x)
                   && Inside(db, rk, db[o].parents[j], x) ==>
      db[o].parents[i] == db[o].parents[j]
  }

  /** x is below none of its own descendants. */
  lemma NotX(db: Db, rk: Ranks, c: int, me: int, x: int)
    requires Ranked(db, rk) && c in db && me in db && x in db && me in db[c].parents && Reaches(db, rk, me, x)
    ensures c != x
  {
    ReachesBelow(db, rk, me, x);
    assert RankedAt(db, rk, c);
    var i :| 0 <= i < |db[c].parents| && db[c].parents[i] == me;
  }

  lemma {:induction false} ReachTrans(db: Db, rk: Ranks, a: int, b: int, c: int)
    requires Ranked(db, rk) && a in db && b in db && c in db && Reaches(db, rk, a, b) && Reaches(db, rk, b, c)
    ensures Reaches(db, rk, a, c)
    decreases if a in rk then rk[a] else 0
  {
    assert RankedAt(db, rk, a);
    if a != b {
      var i :| 0 <= i < |db[a].parents| && db[a].parents[i] in db && Reaches(db, rk, db[a].parents[i], b);
      ReachTrans(db, rk, db[a].parents[i], b, c);
    }
  }

  lemma ParentBelow(db: Db, rk: Ranks, c: int, p: int)
    requires Ranked(db, rk) && c in db && p in db && p in db[c].parents
    ensures c in rk && p in rk && rk[p] < rk[c]
  {
    assert RankedAt(db, rk, c);
    var i :| 0 <= i < |db[c].parents| && db[c].parents[i] == p;
  }

  lemma InsideVia(db: Db, rk: Ranks, c: int, me: int, x: int)
    requires Ranked(db, rk) && c in db && me in db && me in db[c].parents && Reaches(db, rk, me, x)
    ensures Reaches(db, rk, c, x)
  {
    var i :| 0 <= i < |db[c].parents| && db[c].parents[i] == me;
  }

  /** The way up from d to an ancestor goes through one of d's parents. */
  lemma Towards(db: Db, rk: Ranks, d: int, c: int) returns (p: int)
    requires Ranked(db, rk) && d in db && d != c && Reaches(db, rk, d, c)
    ensures p in db && p in db[d].parents && Reaches(db, rk, p, c)
  {
    var i :| 0 <= i < |db[d].parents| && db[d].parents[i] in db && Reaches(db, rk, db[d].parents[i], c);
    p := db[d].parents[i];
  }
}
