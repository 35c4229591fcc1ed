/** Parents and children kept in step, and new ranks for a graph in which an object has moved. */
module DbLinks {
  import opened DbGraph

  predicate NoDup(s: seq<int>) {
    forall i, j :: 0 <= i < j < |s| ==> s[i] != s[j]
  }

  /** setremove: without the first occurrence. */
  function SetRemove(s: seq<int>, x: int): seq<int> {
    if s == [] then [] else if s[0] == x then s[1..] else [s[0]] + SetRemove(s[1..], x)
  }

  /** setadd: with x at the end, unless it is there. */
  function SetAdd(s: seq<int>, x: int): seq<int> {
    if x in s then s else s + [x]
  }

  lemma {:induction false} RemoveHas(s: seq<int>, x: int)
    requires NoDup(s)
    ensures NoDup(SetRemove(s, x)) && forall y :: y in SetRemove(s, x) <==> y in s && y != x
    decreases |s|
  {
    if s != [] {
      RemoveHas(s[1..], x);
      assert s[0] !in s[1..];
      forall y ensures y in SetRemove(s, x) <==> y in s && y != x {
        assert y in s <==> y == s[0] || y in s[1..];
      }
    }
  }

  lemma RemoveTwice(s: seq<int>, x: int)
    requires NoDup(s)
    ensures SetRemove(SetRemove(s, x), x) == SetRemove(s, x)
  {
    RemoveHas(s, x);
    RemoveAbsent(SetRemove(s, x), x);
  }

  lemma {:induction false} RemoveAbsent(s: seq<int>, x: int)
    requires x !in s
    ensures SetRemove(s, x) == s
    decreases |s|
  {
    if s != [] {
      RemoveAbsent(s[1..], x);
    }
  }

  lemma AddHas(s: seq<int>, x: int)
    requires NoDup(s)
    ensures NoDup(SetAdd(s, x)) && forall y :: y in SetAdd(s, x) <==> y in s || y == x
  {
  }

  /** Parents are valid, and an object is among the children of exactly its parents. */
  ghost predicate Linked(db: Db) {
    && (forall o, i :: o in db && 0 <= i < |db[o].parents| ==> db[o].parents[i] in db)
    && (forall o :: o in db ==> NoDup(db[o].children))
    && (forall o, c :: o in db ==> (c in db[o].children <==> c in db && o in db[c].parents))
  }

  /** The object is taken from, or added to, the children of each of these. */
  function Detach(db: Db, ps: seq<int>, x: int): (r: Db)
    requires forall i :: 0 <= i < |ps| ==> ps[i] in db
    ensures r.Keys == db.Keys
    decreases |ps|
  {
    if ps == [] then db else Detach(db[ps[0] := db[ps[0]].(children := SetRemove(db[ps[0]].children, x))], ps[1..], x)
  }

  function Attach(db: Db, ps: seq<int>, x: int): (r: Db)
    requires forall i :: 0 <= i < |ps| ==> ps[i] in db
    ensures r.Keys == db.Keys
    decreases |ps|
  {
    if ps == [] then db else Attach(db[ps[0] := db[ps[0]].(children := SetAdd(db[ps[0]].children, x))], ps[1..], x)
  }

  lemma {:induction false} DetachAt(db: Db, ps: seq<int>, x: int, o: int)
    requires (forall i :: 0 <= i < |ps| ==> ps[i] in db) && o in db && NoDup(db[o].children)
    ensures Detach(db, ps, x)[o] == if o in ps then db[o].(children := SetRemove(db[o].children, x)) else db[o]
    decreases |ps|
  {
    if ps != [] {
      var next := db[ps[0] := db[ps[0]].(children := SetRemove(db[ps[0]].children, x))];
      RemoveHas(db[o].children, x);
      RemoveTwice(db[o].children, x);
      DetachAt(next, ps[1..], x, o);
    }
  }

  lemma {:induction false} AttachAt(db: Db, ps: seq<int>, x: int, o: int)
    requires (forall i :: 0 <= i < |ps| ==> ps[i] in db) && o in db && NoDup(db[o].children)
    ensures Attach(db, ps, x)[o] == if o in ps then db[o].(children := SetAdd(db[o].children, x)) else db[o]
    decreases |ps|
  {
    if ps != [] {
      var next := db[ps[0] := db[ps[0]].(children := SetAdd(db[ps[0]].children, x))];
      AddHas(db[o].children, x);
      AttachAt(next, ps[1..], x, o);
    }
  }

  /** What db_change_parents makes of the graph. */
  function Moved(db: Db, x: int, ps: seq<int>): (r: Db)
    requires x in db && Linked(db) && forall i :: 0 <= i < |ps| ==> ps[i] in db
    ensures r.Keys == db.Keys
  {
    var d := Attach(Detach(db, db[x].parents, x), ps, x);
    d[x := d[x].(parents := ps)]
  }

  lemma {:induction false} MovedAt(db: Db, x: int, ps: seq<int>, o: int)
    requires x in db && Linked(db) && (forall i :: 0 <= i < |ps| ==> ps[i] in db) && o in db
    ensures var r := Moved(db, x, ps);
            && r[o].verbs == db[o].verbs && r[o].parents == (if o == x then ps else db[o].parents)
              && NoDup(r[o].children)
            && (forall c :: c in r[o].children <==> if c == x then o in ps else c in db[o].children)
  {
    var d := Detach(db, db[x].parents, x);
    DetachAt(db, db[x].parents, x, o);
    RemoveHas(db[o].children, x);
    AttachAt(d, ps, x, o);
    AddHas(d[o].children, x);
  }

  lemma {:induction false} MovedLinked(db: Db, x: int, ps: seq<int>)
    requires x in db && Linked(db) && forall i :: 0 <= i < |ps| ==> ps[i] in db
    ensures Linked(Moved(db, x, ps))
  {
    hide Moved;
    var r := Moved(db, x, ps);
    forall o | o in r
      ensures NoDup(r[o].children) && (forall i :: 0 <= i < |r[o].parents| ==> r[o].parents[i] in r)
      ensures forall c :: c in r[o].children <==> c in r && o in r[c].parents
    {
      MovedAt(db, x, ps, o);
      forall c ensures c in r[o].children <==> c in r && o in r[c].parents {
        if c in db {
          MovedAt(db, x, ps, c);
        }
      }
    }
  }

  // ---- ranks after a move ----

  /** The target is the object or one of its ancestors. */
  ghost predicate Reaches(db: Db, rk: Ranks, o: int, target: int)
    requires Ranked(db, rk) && o in db
    decreases rk[o]
  {
    assert RankedAt(db, rk, o);
    o == target || exists i ::
      0 <= i < |db[o].parents| && db[o].parents[i] in db && Reaches(db, rk, db[o].parents[i], target)
  }

  /** The object and its descendants are lifted above the new parents. */
  ghost function Lifted(db: Db, rk: Ranks, x: int, ps: seq<int>): Ranks
    requires Ranked(db, rk)
  {
    map o | o in rk :: if o in db && Reaches(db, rk, o, x) then rk[o] + Limit(rk, ps) else rk[o]
  }

  /** As long as no new parent is the object or one of its descendants, the graph stays without cycles. */
  lemma {:induction false} MovedRanked(db: Db, rk: Ranks, x: int, ps: seq<int>)
    requires Ranked(db, rk) && Linked(db) && x in db
        && forall i :: 0 <= i < |ps| ==> ps[i] in db && !Reaches(db, rk, ps[i], x)
    ensures Ranked(Moved(db, x, ps), Lifted(db, rk, x, ps))
  {
    hide Moved;
    var r, up := Moved(db, x, ps), Lifted(db, rk, x, ps);
    forall o | o in r ensures RankedAt(r, up, o) {
      MovedAt(db, x, ps, o);
      assert RankedAt(db, rk, o);
      if o != x {
        forall i | 0 <= i < |r[o].parents| && r[o].parents[i] in r ensures r[o].parents[i] in up
            && up[r[o].parents[i]] < up[o] {
          assert RankedAt(db, rk, r[o].parents[i]);
          if Reaches(db, rk, r[o].parents[i], x) {
            assert Reaches(db, rk, o, x);
          }
        }
      } else {
        forall i | 0 <= i < |ps| && ps[i] in r ensures ps[i] in up && up[ps[i]] < up[o] {
          assert RankedAt(db, rk, ps[i]);
          assert Reaches(db, rk, x, x);
        }
      }
    }
  }
}
