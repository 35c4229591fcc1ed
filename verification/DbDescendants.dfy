/** Descendants: db_descendants is db_ancestors over children instead of parents. */
module DbDescendants {
  import opened DbGraph
  import opened DbLinks
  import opened DbAncestors

  function Reversed(db: Db): (r: Db)
    ensures r.Keys == db.Keys
  {
    map o | o in db :: Obj(db[o].children, db[o].parents, db[o].verbs)
  }

  ghost predicate Bounded(db: Db, rk: Ranks, top: nat) {
    forall o :: o in db && o in rk ==> rk[o] <= top
  }

  ghost function ReversedRanks(db: Db, rk: Ranks, top: nat): Ranks
    requires Bounded(db, rk, top)
  {
    map o | o in db && o in rk :: Gap(top, rk[o])
  }

  function Gap(a: nat, b: nat): nat {
    if a >= b then a - b else 0
  }

  lemma ReversedRanked(db: Db, rk: Ranks, top: nat)
    requires Ranked(db, rk) && Linked(db) && Bounded(db, rk, top)
    ensures Ranked(Reversed(db), ReversedRanks(db, rk, top))
  {
    var r, k := Reversed(db), ReversedRanks(db, rk, top);
    forall o | o in r ensures RankedAt(r, k, o) {
      assert RankedAt(db, rk, o);
      forall i | 0 <= i < |r[o].parents| && r[o].parents[i] in r ensures r[o].parents[i] in k
          && k[r[o].parents[i]] < k[o] {
        var c := r[o].parents[i];
        assert c in db[o].children;
        assert RankedAt(db, rk, c);
        var j :| 0 <= j < |db[c].parents| && db[c].parents[j] == o;
      }
    }
  }

  /** One more step at the far end. */
  lemma {:induction false} ReachAppend(db: Db, rk: Ranks, a: int, p: int, b: int)
    requires Ranked(db, rk) && a in db && p in db && b in db && Reaches(db, rk, a, p) && b in db[p].parents
    ensures Reaches(db, rk, a, b)
    decreases if a in rk then rk[a] else 0
  {
    assert RankedAt(db, rk, a);
    assert Reaches(db, rk, b, b);
    if a == p {
      var i :| 0 <= i < |db[p].parents| && db[p].parents[i] == b;
    } else {
      var i :| 0 <= i < |db[a].parents| && db[a].parents[i] in db && Reaches(db, rk, db[a].parents[i], p);
      ReachAppend(db, rk, db[a].parents[i], p, b);
    }
  }

  lemma {:induction false} ReachesDown(db: Db, rk: Ranks, top: nat, a: int, b: int)
    requires Ranked(db, rk) && Linked(db) && Bounded(db, rk, top) && Ranked(Reversed(db), ReversedRanks(db, rk, top))
        && a in db && b in db && Reaches(db, rk, b, a)
    ensures Reaches(Reversed(db), ReversedRanks(db, rk, top), a, b)
    decreases if b in rk then rk[b] else 0
  {
    assert RankedAt(db, rk, b);
    var r, k := Reversed(db), ReversedRanks(db, rk, top);
    if a != b {
      var i :| 0 <= i < |db[b].parents| && db[b].parents[i] in db && Reaches(db, rk, db[b].parents[i], a);
      var p := db[b].parents[i];
      ReachesDown(db, rk, top, a, p);
      assert b in db[p].children;
      ReachAppend(r, k, a, p, b);
    }
  }

  lemma {:induction false} ReachesUp(db: Db, rk: Ranks, top: nat, a: int, b: int)
    requires Ranked(db, rk) && Linked(db) && Bounded(db, rk, top) && Ranked(Reversed(db), ReversedRanks(db, rk, top))
        && a in db && b in db
    requires Reaches(Reversed(db), ReversedRanks(db, rk, top), a, b)
    ensures Reaches(db, rk, b, a)
    decreases if a in ReversedRanks(db, rk, top) then ReversedRanks(db, rk, top)[a] else 0
  {
    var r, k := Reversed(db), ReversedRanks(db, rk, top);
    assert RankedAt(r, k, a);
    if a != b {
      var i :| 0 <= i < |r[a].parents| && r[a].parents[i] in r && Reaches(r, k, r[a].parents[i], b);
      var c := r[a].parents[i];
      ReachesUp(db, rk, top, c, b);
      assert c in db[a].children;
      ReachAppend(db, rk, b, c, a);
    } else {
      assert Reaches(db, rk, b, b);
    }
  }

  /** db_descendants, without the object itself: each once. */
  method Descendants(db: Db, o: int, ghost rk: Ranks, ghost top: nat) returns (list: seq<int>)
    requires Ranked(db, rk) && Linked(db) && Bounded(db, rk, top) && o in db
    ensures NoDup(list) && forall x :: x in list <==> x in db && x != o && Reaches(db, rk, x, o)
  {
    ReversedRanked(db, rk, top);
    ghost var k := ReversedRanks(db, rk, top);
    var lister := new Lister(Reversed(db));
    list := lister.Ancestors(o, false, k);
    forall x ensures x in list <==> x in db && x != o && Reaches(db, rk, x, o) {
      if x in db && Reaches(db, rk, x, o) {
        ReachesDown(db, rk, top, o, x);
      }
      if x in db && Reaches(Reversed(db), k, o, x) {
        ReachesUp(db, rk, top, o, x);
      }
    }
  }
}
