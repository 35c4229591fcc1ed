/** The list of ancestors, as db_ancestors makes it in two passes with a mark for every object. */
module DbAncestors {
  import opened Options
  import opened DbGraph
  import opened DbLinks

  /** The objects that a pass comes to from the list, in order, and the marks it leaves. */
  ghost function Visit(db: Db, rk: Ranks, ids: seq<int>, marks: set<int>, bound: nat): (seq<int>, set<int>)
    requires Ranked(db, rk) && Below(db, rk, ids, bound)
    decreases bound, |ids|
  {
    if ids == [] then ([], marks)
    else if ids[0] !in db || ids[0] in marks then Visit(db, rk, ids[1..], marks, bound)
    else
      assert RankedAt(db, rk, ids[0]);
      var (up, m) := Visit(db, rk, db[ids[0]].parents, marks + {ids[0]}, rk[ids[0]]);
      var (rest, n) := Visit(db, rk, ids[1..], m, bound);
      ([ids[0]] + up + rest, n)
  }

  ghost function Elements(s: seq<int>): set<int> {
    set x | x in s
  }

  /** Nothing is listed twice or listed that was marked, and what is listed is marked. */
  lemma {:induction false} VisitMarks(db: Db, rk: Ranks, ids: seq<int>, marks: set<int>, bound: nat)
    requires Ranked(db, rk) && Below(db, rk, ids, bound)
    ensures var (order, m) := Visit(db, rk, ids, marks, bound);
            && NoDup(order) && m == marks + Elements(order) && Elements(order) !! marks
            && forall x :: x in order ==> x in db && x in rk && rk[x] < bound
    decreases bound, |ids|
  {
    if ids != [] {
      if ids[0] !in db || ids[0] in marks {
        VisitMarks(db, rk, ids[1..], marks, bound);
      } else {
        var h := ids[0];
        assert RankedAt(db, rk, h);
        var (up, m) := Visit(db, rk, db[h].parents, marks + {h}, rk[h]);
        VisitMarks(db, rk, db[h].parents, marks + {h}, rk[h]);
        var (rest, n) := Visit(db, rk, ids[1..], m, bound);
        VisitMarks(db, rk, ids[1..], m, bound);
        Joined(h, up, rest, marks);
      }
    }
  }

  lemma Joined(h: int, up: seq<int>, rest: seq<int>, marks: set<int>)
    requires NoDup(up) && NoDup(rest) && h !in marks && Elements(up) !! marks + {h}
        && Elements(rest) !! marks + {h} + Elements(up)
    ensures NoDup([h] + up + rest) && Elements([h] + up + rest) == {h} + Elements(up) + Elements(rest)
  {
    var all := [h] + up + rest;
    forall i, j | 0 <= i < j < |all| ensures all[i] != all[j] {
      if i == 0 {
        if j <= |up| {
          assert all[j] == up[j - 1] && up[j - 1] in Elements(up);
        } else {
          assert all[j] == rest[j - 1 - |up|] && rest[j - 1 - |up|] in Elements(rest);
        }
      } else if i <= |up| && j > |up| {
        assert all[i] == up[i - 1] && up[i - 1] in Elements(up);
        assert all[j] == rest[j - 1 - |up|] && rest[j - 1 - |up|] in Elements(rest);
      } else if j <= |up| {
        assert all[i] == up[i - 1] && all[j] == up[j - 1];
      } else {
        assert all[i] == rest[i - 1 - |up|] && all[j] == rest[j - 1 - |up|];
      }
    }
    assert forall x :: x in all <==> x == h || x in up || x in rest;
  }

  // ---- the first match in the list is what the search without marks finds ----

  ghost function FirstIn(db: Db, name: string, order: seq<int>): Option<Hit> {
    if order == [] then None
    else if order[0] in db && OwnFrom(db[order[0]].verbs, name, 0).Some? then
      Some(Hit(order[0], OwnFrom(db[order[0]].verbs, name, 0).value))
    else FirstIn(db, name, order[1..])
  }

  lemma {:induction false} FirstPlus(db: Db, name: string, a: seq<int>, b: seq<int>)
    ensures FirstIn(db, name, a + b) == var r := FirstIn(db, name, a); if r.Some? then r else FirstIn(db, name, b)
    decreases |a|
  {
    if a == [] {
      assert a + b == b;
    } else {
      assert (a + b)[1..] == a[1..] + b;
      FirstPlus(db, name, a[1..], b);
    }
  }

  /** From nothing that is marked and ranks below the bound would the verb be found. */
  ghost predicate Fruitless(db: Db, rk: Ranks, name: string, marks: set<int>, bound: nat)
    requires Ranked(db, rk)
  {
    forall x :: x in marks && x in db && x in rk && rk[x] < bound ==> SearchObj(db, rk, name, x) == None
  }

  lemma {:induction false} FirstIsFound(db: Db, rk: Ranks, name: string, ids: seq<int>, marks: set<int>, bound: nat)
    requires Ranked(db, rk) && Below(db, rk, ids, bound) && Fruitless(db, rk, name, marks, bound)
    ensures var (order, m) := Visit(db, rk, ids, marks, bound);
            && FirstIn(db, name, order) == SearchAll(db, rk, name, ids, bound)
            && (SearchAll(db, rk, name, ids, bound) == None ==> Fruitless(db, rk, name, m, bound))
    decreases bound, |ids|
  {
    if ids != [] {
      var h := ids[0];
      if h !in db || h in marks {
        FirstIsFound(db, rk, name, ids[1..], marks, bound);
      } else {
        assert RankedAt(db, rk, h);
        var up := db[h].parents;
        var (o1, m1) := Visit(db, rk, up, marks + {h}, rk[h]);
        FirstIsFound(db, rk, name, up, marks + {h}, rk[h]);
        VisitMarks(db, rk, up, marks + {h}, rk[h]);
        var (o2, m2) := Visit(db, rk, ids[1..], m1, bound);
        FirstPlus(db, name, [h] + o1, o2);
        FirstPlus(db, name, [h], o1);
        assert [h][1..] == [];
        if SearchObj(db, rk, name, h) == None {
          forall x | x in m1 && x in db && x in rk && rk[x] < bound ensures SearchObj(db, rk, name, x) == None {
          }
          FirstIsFound(db, rk, name, ids[1..], m1, bound);
        }
      }
    }
  }

  // ---- every ancestor is listed ----

  ghost predicate AncestorVia(db: Db, rk: Ranks, ids: seq<int>, x: int)
    requires Ranked(db, rk)
  {
    exists i :: 0 <= i < |ids| && ids[i] in db && Reaches(db, rk, ids[i], x)
  }

  /** Everything that can be reached from marked objects is marked, up to the bound. */
  ghost predicate Complete(db: Db, rk: Ranks, marks: set<int>, bound: nat)
    requires Ranked(db, rk)
  {
    forall x, y :: x in marks && x in db && x in rk && rk[x] < bound && y in db && Reaches(db, rk, x, y) ==> y in marks
  }

  lemma {:induction false} VisitAll(db: Db, rk: Ranks, ids: seq<int>, marks: set<int>, bound: nat)
    requires Ranked(db, rk) && Below(db, rk, ids, bound) && Complete(db, rk, marks, bound)
    ensures var (order, m) := Visit(db, rk, ids, marks, bound);
            && Complete(db, rk, m, bound) && (forall y :: y in db && AncestorVia(db, rk, ids, y) ==> y in m)
            && (forall y :: y in order ==> AncestorVia(db, rk, ids, y))
    decreases bound, |ids|
  {
    if ids != [] {
      var h := ids[0];
      if h !in db || h in marks {
        VisitAll(db, rk, ids[1..], marks, bound);
        var m := Visit(db, rk, ids[1..], marks, bound).1;
        VisitMarks(db, rk, ids[1..], marks, bound);
        TailVia(db, rk, ids);
        forall y | y in db && AncestorVia(db, rk, ids, y) ensures y in m {
          if !AncestorVia(db, rk, ids[1..], y) {
            assert Reaches(db, rk, h, y);
          }
        }
      } else {
        assert RankedAt(db, rk, h);
        VisitHead(db, rk, ids, marks, bound);
      }
    }
  }

  lemma TailVia(db: Db, rk: Ranks, ids: seq<int>)
    requires Ranked(db, rk) && ids != []
    ensures forall y :: AncestorVia(db, rk, ids, y)
                        <==> (ids[0] in db && Reaches(db, rk, ids[0], y)) || AncestorVia(db, rk, ids[1..], y)
  {
    forall y ensures AncestorVia(db, rk, ids, y)
        <==> (ids[0] in db && Reaches(db, rk, ids[0], y)) || AncestorVia(db, rk, ids[1..], y) {
      if AncestorVia(db, rk, ids, y) {
        var i :| 0 <= i < |ids| && ids[i] in db && Reaches(db, rk, ids[i], y);
        if i > 0 {
          assert ids[1..][i - 1] == ids[i];
        }
      }
      if AncestorVia(db, rk, ids[1..], y) {
        var i :| 0 <= i < |ids[1..]| && ids[1..][i] in db && Reaches(db, rk, ids[1..][i], y);
        assert ids[i + 1] == ids[1..][i];
      }
    }
  }

  lemma {:induction false} ReachesVia(db: Db, rk: Ranks, h: int, y: int)
    requires Ranked(db, rk) && h in db
    ensures Reaches(db, rk, h, y) <==> h == y || AncestorVia(db, rk, db[h].parents, y)
  {
  }

  lemma {:induction false} ReachesBelow(db: Db, rk: Ranks, h: int, y: int)
    requires Ranked(db, rk) && h in db && y in db && Reaches(db, rk, h, y)
    ensures h in rk && y in rk && (y == h || rk[y] < rk[h])
    decreases if h in rk then rk[h] else 0
  {
    assert RankedAt(db, rk, h);
    assert RankedAt(db, rk, y);
    if h != y {
      var i :| 0 <= i < |db[h].parents| && db[h].parents[i] in db && Reaches(db, rk, db[h].parents[i], y);
      ReachesBelow(db, rk, db[h].parents[i], y);
    }
  }

  lemma {:induction false} VisitHead(db: Db, rk: Ranks, ids: seq<int>, marks: set<int>, bound: nat)
    requires Ranked(db, rk) && Below(db, rk, ids, bound) && Complete(db, rk, marks, bound)
    requires ids != [] && ids[0] in db && ids[0] !in marks && ids[0] in rk && rk[ids[0]] < bound
    ensures var (order, m) := Visit(db, rk, ids, marks, bound);
            && Complete(db, rk, m, bound) && (forall y :: y in db && AncestorVia(db, rk, ids, y) ==> y in m)
            && (forall y :: y in order ==> AncestorVia(db, rk, ids, y))
    decreases bound, |ids|, 0
  {
    var h := ids[0];
    assert RankedAt(db, rk, h);
    var up := db[h].parents;
    var (o1, m1) := Visit(db, rk, up, marks + {h}, rk[h]);
    assert Complete(db, rk, marks + {h}, rk[h]);
    VisitAll(db, rk, up, marks + {h}, rk[h]);
    VisitMarks(db, rk, up, marks + {h}, rk[h]);
    assert Complete(db, rk, m1, bound) by {
      forall x, y | x in m1 && x in db && x in rk && rk[x] < bound && y in db && Reaches(db, rk, x, y) ensures y in m1 {
        if x !in marks {
          ReachesVia(db, rk, x, y);
        }
      }
    }
    var (o2, m2) := Visit(db, rk, ids[1..], m1, bound);
    VisitAll(db, rk, ids[1..], m1, bound);
    VisitMarks(db, rk, ids[1..], m1, bound);
    TailVia(db, rk, ids);
    forall y | y in db && AncestorVia(db, rk, ids, y) ensures y in m2 {
      ReachesVia(db, rk, h, y);
    }
    forall y | y in [h] + o1 + o2 ensures AncestorVia(db, rk, ids, y) {
      ReachesVia(db, rk, h, y);
    }
  }

  // ---- the two passes ----

  class Lister {
    var objects: Db
    /** The bit array. */
    var marks: set<int>

    constructor (objects: Db)
      ensures this.objects == objects && marks == {}
    {
      this.objects, this.marks := objects, {};
    }

    /** The first pass: how many there are. */
    method Count(o: int, ghost rk: Ranks) returns (n: nat)
      requires Ranked(objects, rk) && o in objects
      modifies this`marks
      ensures o in rk && Below(objects, rk, objects[o].parents, rk[o])
      ensures var (order, m) := Visit(objects, rk, objects[o].parents, old(marks), rk[o]); n == |order| && marks == m
      decreases if o in rk then rk[o] else 0
    {
      assert RankedAt(objects, rk, o);
      var ids := objects[o].parents;
      n := 0;
      ghost var (order, m) := Visit(objects, rk, ids, marks, rk[o]);
      assert ids[0..] == ids;
      for i := 0 to |ids|
        invariant Below(objects, rk, ids[i..], rk[o])
        invariant var (rest, k) := Visit(objects, rk, ids[i..], marks, rk[o]); n + |rest| == |order| && k == m
      {
        assert ids[i..][1..] == ids[i + 1..] && ids[i..][0] == ids[i];
        BelowTail(objects, rk, ids[i..], rk[o]);
        if ids[i] in objects && ids[i] !in marks {
          marks := marks + {ids[i]};
          var k := Count(ids[i], rk);
          n := n + k + 1;
        }
      }
      assert ids[|ids|..] == [];
    }

    /** The second pass: the same objects are added to the list. */
    method Add(o: int, list: seq<int>, ghost rk: Ranks) returns (r: seq<int>)
      requires Ranked(objects, rk) && o in objects
      modifies this`marks
      ensures o in rk && Below(objects, rk, objects[o].parents, rk[o])
      ensures var (order, m) := Visit(objects, rk, objects[o].parents, old(marks), rk[o]);
          r == list + order && marks == m
      decreases if o in rk then rk[o] else 0
    {
      assert RankedAt(objects, rk, o);
      var ids := objects[o].parents;
      r := list;
      ghost var (order, m) := Visit(objects, rk, ids, marks, rk[o]);
      assert ids[0..] == ids;
      for i := 0 to |ids|
        invariant Below(objects, rk, ids[i..], rk[o])
        invariant var (rest, k) := Visit(objects, rk, ids[i..], marks, rk[o]); r + rest == list + order && k == m
      {
        assert ids[i..][1..] == ids[i + 1..] && ids[i..][0] == ids[i];
        BelowTail(objects, rk, ids[i..], rk[o]);
        if ids[i] in objects && ids[i] !in marks {
          ghost var before := r;
          marks := marks + {ids[i]};
          ghost var (up, _) := Visit(objects, rk, objects[ids[i]].parents, marks, rk[ids[i]]);
          r := Add(ids[i], r + [ids[i]], rk);
          assert before + [ids[i]] + up == before + ([ids[i]] + up);
        }
      }
      assert ids[|ids|..] == [];
    }

    /** db_ancestors: as many as were counted, each once, and the object itself first if asked for. */
    method Ancestors(o: int, full: bool, ghost rk: Ranks) returns (list: seq<int>)
      requires Ranked(objects, rk) && o in objects
      modifies this`marks
      ensures o in rk && Below(objects, rk, objects[o].parents, rk[o])
      ensures list == (if full then [o] else []) + Visit(objects, rk, objects[o].parents, {}, rk[o]).0
      ensures NoDup(list)
      ensures forall x :: x in list <==> x in objects && (if x == o then full else Reaches(objects, rk, o, x))
      ensures forall name :: full ==> FirstIn(objects, name, list) == SearchObj(objects, rk, name, o)
    {
      assert RankedAt(objects, rk, o);
      ghost var ids := objects[o].parents;
      ghost var (order, m) := Visit(objects, rk, ids, {}, rk[o]);
      marks := {};
      var n := Count(o, rk);
      n := n + if full then 1 else 0;
      list := if full then [o] else [];
      marks := {};
      list := Add(o, list, rk);
      assert |list| == n;
      VisitMarks(objects, rk, ids, {}, rk[o]);
      VisitAll(objects, rk, ids, {}, rk[o]);
      ListIs(objects, rk, o, full, order);
      forall name | full ensures FirstIn(objects, name, list) == SearchObj(objects, rk, name, o) {
        FirstIsFound(objects, rk, name, ids, {}, rk[o]);
        FirstPlus(objects, name, [o], order);
        assert [o][1..] == [];
      }
    }
  }

  lemma ListIs(db: Db, rk: Ranks, o: int, full: bool, order: seq<int>)
    requires Ranked(db, rk) && o in db && o in rk && NoDup(order)
    requires forall x :: x in order ==> x in db && x in rk && rk[x] < rk[o] && AncestorVia(db, rk, db[o].parents, x)
    requires forall x :: x in db && AncestorVia(db, rk, db[o].parents, x) ==> x in order
    ensures var list := (if full then [o] else []) + order;
            NoDup(list) && forall x :: x in list <==> x in db && (if x == o then full else Reaches(db, rk, o, x))
  {
    var list := (if full then [o] else []) + order;
    assert o !in order;
    forall x ensures x in list <==> x in db && (if x == o then full else Reaches(db, rk, o, x)) {
      ReachesVia(db, rk, o, x);
    }
  }
}
