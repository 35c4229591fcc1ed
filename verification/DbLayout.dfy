/** How property values lie: one after the other, definer by definer, in the order of the ancestor list. */
module DbLayout {
  import opened DbGraph
  import opened DbLinks
  import opened DbAncestors

  /** The ancestor list of db_ancestors, the object itself first. */
  ghost function Anc(db: Db, rk: Ranks, o: int): seq<int>
    requires Ranked(db, rk) && o in db
  {
    assert RankedAt(db, rk, o);
    [o] + Visit(db, rk, db[o].parents, {}, rk[o]).0
  }

  // ---- a child's list is put together from its parents' lists ----

  function Without(s: seq<int>, marks: set<int>): seq<int> {
    if s == [] then [] else (if s[0] in marks then [] else [s[0]]) + Without(s[1..], marks)
  }

  lemma {:induction false} WithoutPlus(a: seq<int>, b: seq<int>, marks: set<int>)
    ensures Without(a + b, marks) == Without(a, marks) + Without(b, marks)
    decreases |a|
  {
    if a == [] {
      assert a + b == b;
    } else {
      assert (a + b)[1..] == a[1..] + b;
      WithoutPlus(a[1..], b, marks);
    }
  }

  lemma {:induction false} WithoutAll(s: seq<int>, marks: set<int>)
    requires forall x :: x in s ==> x in marks
    ensures Without(s, marks) == []
    decreases |s|
  {
    if s != [] {
      var x := s[0];
      assert x in s && x in marks;
      WithoutAll(s[1..], marks);
      assert [] + Without(s[1..], marks) == [];
    }
  }

  lemma {:induction false} WithoutNone(s: seq<int>, marks: set<int>)
    requires forall x :: x in s ==> x !in marks
    ensures Without(s, marks) == s
    decreases |s|
  {
    if s != [] {
      var x := s[0];
      assert x in s && x !in marks;
      WithoutNone(s[1..], marks);
      assert [s[0]] + s[1..] == s;
    }
  }

  /** The parents of what is marked are marked. */
  ghost predicate Closed(db: Db, marks: set<int>) {
    forall x, i :: x in marks && x in db && 0 <= i < |db[x].parents| && db[x].parents[i] in db
                   ==> db[x].parents[i] in marks
  }

  lemma {:induction false} VisitInside(db: Db, rk: Ranks, ids: seq<int>, marks: set<int>, bound: nat, within: set<int>)
    requires Ranked(db, rk) && Below(db, rk, ids, bound) && Closed(db, within)
    requires forall i :: 0 <= i < |ids| && ids[i] in db ==> ids[i] in within
    ensures forall x :: x in Visit(db, rk, ids, marks, bound).0 ==> x in within
    decreases bound, |ids|
  {
    if ids != [] {
      if ids[0] !in db || ids[0] in marks {
        VisitInside(db, rk, ids[1..], marks, bound, within);
      } else {
        var h := ids[0];
        assert RankedAt(db, rk, h);
        var m := Visit(db, rk, db[h].parents, marks + {h}, rk[h]).1;
        VisitInside(db, rk, db[h].parents, marks + {h}, rk[h], within);
        VisitInside(db, rk, ids[1..], m, bound, within);
      }
    }
  }

  /** Marking a closed set beforehand only leaves its members out. */
  lemma {:induction false} VisitWithout(db: Db, rk: Ranks, ids: seq<int>, a: set<int>, m: set<int>, bound: nat)
    requires Ranked(db, rk) && Below(db, rk, ids, bound) && Closed(db, m)
    ensures Visit(db, rk, ids, a + m, bound).0 == Without(Visit(db, rk, ids, a, bound).0, m)
    ensures Visit(db, rk, ids, a + m, bound).1 == Visit(db, rk, ids, a, bound).1 + m
    decreases bound, |ids|
  {
    if ids != [] {
      var h := ids[0];
      if h !in db || h in a {
        VisitWithout(db, rk, ids[1..], a, m, bound);
      } else {
        assert RankedAt(db, rk, h);
        if h in m {
          VisitMarked(db, rk, ids, a, m, bound);
        } else {
          VisitFresh(db, rk, ids, a, m, bound);
        }
      }
    }
  }

  lemma {:induction false} VisitMarked(db: Db, rk: Ranks, ids: seq<int>, a: set<int>, m: set<int>, bound: nat)
    requires Ranked(db, rk) && Below(db, rk, ids, bound) && Closed(db, m)
    requires ids != [] && ids[0] in db && ids[0] !in a && ids[0] in m && ids[0] in rk && rk[ids[0]] < bound
    ensures Visit(db, rk, ids, a + m, bound).0 == Without(Visit(db, rk, ids, a, bound).0, m)
    ensures Visit(db, rk, ids, a + m, bound).1 == Visit(db, rk, ids, a, bound).1 + m
    decreases bound, |ids|, 0
  {
    var h := ids[0];
    assert RankedAt(db, rk, h);
    var (up, n) := Visit(db, rk, db[h].parents, a + {h}, rk[h]);
    VisitInside(db, rk, db[h].parents, a + {h}, rk[h], m);
    VisitMarks(db, rk, db[h].parents, a + {h}, rk[h]);
    VisitWithout(db, rk, ids[1..], n, m, bound);
    SameMarks(a, m, h, up, n);
    var rest := Visit(db, rk, ids[1..], n, bound).0;
    WithoutPlus([h] + up, rest, m);
    WithoutAll([h] + up, m);
  }

  lemma SameMarks(a: set<int>, m: set<int>, h: int, up: seq<int>, n: set<int>)
    requires h in m && n == a + {h} + Elements(up) && forall x :: x in up ==> x in m
    ensures n + m == a + m
  {
    forall z ensures z in n + m <==> z in a + m {
      assert z in Elements(up) ==> z in up;
    }
  }

  lemma {:induction false} VisitFresh(db: Db, rk: Ranks, ids: seq<int>, a: set<int>, m: set<int>, bound: nat)
    requires Ranked(db, rk) && Below(db, rk, ids, bound) && Closed(db, m)
    requires ids != [] && ids[0] in db && ids[0] !in a && ids[0] !in m && ids[0] in rk && rk[ids[0]] < bound
    ensures Visit(db, rk, ids, a + m, bound).0 == Without(Visit(db, rk, ids, a, bound).0, m)
    ensures Visit(db, rk, ids, a + m, bound).1 == Visit(db, rk, ids, a, bound).1 + m
    decreases bound, |ids|, 0
  {
    var h := ids[0];
    assert RankedAt(db, rk, h);
    var (up, n) := Visit(db, rk, db[h].parents, a + {h}, rk[h]);
    assert a + m + {h} == a + {h} + m;
    VisitWithout(db, rk, db[h].parents, a + {h}, m, rk[h]);
    VisitWithout(db, rk, ids[1..], n, m, bound);
    var rest := Visit(db, rk, ids[1..], n, bound).0;
    WithoutPlus([h] + up, rest, m);
    WithoutPlus([h], up, m);
    assert [h][1..] == [];
    assert Without([h], m) == [h];
  }

  /** setadd of every element of a list. */
  function AddAll(s: seq<int>, t: seq<int>): seq<int>
    decreases |t|
  {
    if t == [] then s else AddAll(SetAdd(s, t[0]), t[1..])
  }

  lemma {:induction false} AddAllIs(s: seq<int>, t: seq<int>)
    requires NoDup(t)
    ensures AddAll(s, t) == s + Without(t, Elements(s))
    decreases |t|
  {
    hide Elements;
    if t == [] {
      assert s + [] == s;
    } else {
      var rest := Without(t[1..], Elements(s));
      ElementsMore(s, t[0]);
      if t[0] in s {
        AddAllIs(s, t[1..]);
        assert [] + rest == rest;
      } else {
        AddAllIs(s + [t[0]], t[1..]);
        WithoutMore(t[1..], Elements(s), t[0]);
        assert s + [t[0]] + rest == s + ([t[0]] + rest);
      }
    }
  }

  lemma ElementsMore(s: seq<int>, x: int)
    ensures Elements(s + [x]) == Elements(s) + {x} && (x in Elements(s) <==> x in s)
  {
    forall z ensures z in Elements(s + [x]) <==> z in Elements(s) + {x} {
      assert z in s + [x] <==> z in s || z == x;
    }
  }

  lemma {:induction false} WithoutMore(t: seq<int>, marks: set<int>, x: int)
    requires x !in t
    ensures Without(t, marks + {x}) == Without(t, marks)
    decreases |t|
  {
    if t != [] {
      WithoutMore(t[1..], marks, x);
    }
  }

  /** What has been visited is closed. */
  lemma {:induction false} VisitedClosed(db: Db, rk: Ranks, ids: seq<int>, marks: set<int>, bound: nat)
    requires Ranked(db, rk) && Below(db, rk, ids, bound) && Closed(db, marks)
    ensures Closed(db, Visit(db, rk, ids, marks, bound).1)
  {
    assert Complete(db, rk, marks, bound) by { ClosedComplete(db, rk, marks, bound); }
    VisitAll(db, rk, ids, marks, bound);
    VisitMarks(db, rk, ids, marks, bound);
    var (order, m) := Visit(db, rk, ids, marks, bound);
    forall x, i | x in m && x in db && 0 <= i < |db[x].parents|
        && db[x].parents[i] in db ensures db[x].parents[i] in m {
      if x !in marks {
        var p := db[x].parents[i];
        assert x in order;
        assert RankedAt(db, rk, x);
        ReachesVia(db, rk, p, p);
        ReachesVia(db, rk, x, p);
        assert AncestorVia(db, rk, db[x].parents, p);
      }
    }
  }

  lemma {:induction false} ClosedComplete(db: Db, rk: Ranks, marks: set<int>, bound: nat)
    requires Ranked(db, rk) && Closed(db, marks)
    ensures Complete(db, rk, marks, bound)
  {
    forall x, y | x in marks && x in db && x in rk && rk[x] < bound && y in db
        && Reaches(db, rk, x, y) ensures y in marks {
      ClosedReaches(db, rk, marks, x, y);
    }
  }

  lemma {:induction false} ClosedReaches(db: Db, rk: Ranks, marks: set<int>, x: int, y: int)
    requires Ranked(db, rk) && Closed(db, marks) && x in marks && x in db && y in db && Reaches(db, rk, x, y)
    ensures y in marks
    decreases if x in rk then rk[x] else 0
  {
    assert RankedAt(db, rk, x);
    if x != y {
      var i :| 0 <= i < |db[x].parents| && db[x].parents[i] in db && Reaches(db, rk, db[x].parents[i], y);
      ClosedReaches(db, rk, marks, db[x].parents[i], y);
    }
  }

  /** Put together from the lists of the parents, in turn. */
  ghost function Joint(db: Db, rk: Ranks, s: seq<int>, ids: seq<int>): seq<int>
    requires Ranked(db, rk) && forall i :: 0 <= i < |ids| ==> ids[i] in db
    decreases |ids|
  {
    if ids == [] then s else Joint(db, rk, AddAll(s, Anc(db, rk, ids[0])), ids[1..])
  }

  lemma {:induction false} AncNoDup(db: Db, rk: Ranks, o: int)
    requires Ranked(db, rk) && o in db
    ensures NoDup(Anc(db, rk, o)) && forall x :: x in Anc(db, rk, o) <==> x in db && Reaches(db, rk, o, x)
  {
    assert RankedAt(db, rk, o);
    VisitMarks(db, rk, db[o].parents, {}, rk[o]);
    VisitAll(db, rk, db[o].parents, {}, rk[o]);
    ListIs(db, rk, o, true, Visit(db, rk, db[o].parents, {}, rk[o]).0);
    assert Reaches(db, rk, o, o);
  }

  lemma {:induction false} JointVisits(db: Db, rk: Ranks, s: seq<int>, ids: seq<int>, c: int, bound: nat,
      marks: set<int>)
    requires Ranked(db, rk) && Below(db, rk, ids, bound) && (forall i :: 0 <= i < |ids| ==> ids[i] in db)
    requires Closed(db, marks) && Elements(s) == marks + {c} && c !in marks && c in db && c in rk && rk[c] == bound
    ensures Joint(db, rk, s, ids) == s + Visit(db, rk, ids, marks, bound).0
    decreases |ids|
  {
    hide Visit, Closed, Below, Elements, Anc, AddAll, Ranked, Joint;
    JointIs(db, rk, s, ids);
    if ids == [] {
      NoVisit(db, rk, marks, bound);
      assert s + [] == s;
    } else {
      BelowHead(db, rk, ids, bound);
      var s1, m := JointStep(db, rk, s, ids[0], c, bound, marks);
      VisitCons(db, rk, ids, marks, bound);
      JointVisits(db, rk, s1, ids[1..], c, bound, m);
      var first := Visit(db, rk, [ids[0]], marks, bound).0;
      var rest := Visit(db, rk, ids[1..], m, bound).0;
      assert s + first + rest == s + (first + rest);
    }
  }

  lemma JointIs(db: Db, rk: Ranks, s: seq<int>, ids: seq<int>)
    requires Ranked(db, rk) && forall i :: 0 <= i < |ids| ==> ids[i] in db
    ensures Joint(db, rk, s, ids) == if ids == [] then s else Joint(db, rk, AddAll(s, Anc(db, rk, ids[0])), ids[1..])
  {
    hide Anc, AddAll;
  }

  lemma NoVisit(db: Db, rk: Ranks, marks: set<int>, bound: nat)
    requires Ranked(db, rk) && Below(db, rk, [], bound)
    ensures Visit(db, rk, [], marks, bound) == ([], marks)
  {
  }

  lemma BelowHead(db: Db, rk: Ranks, ids: seq<int>, bound: nat)
    requires ids != [] && Below(db, rk, ids, bound)
    ensures ids[0] in db ==> ids[0] in rk && rk[ids[0]] < bound
  {
  }

  /** One parent's list is added. */
  lemma {:induction false} JointStep(db: Db, rk: Ranks, s: seq<int>, h: int, c: int, bound: nat, marks: set<int>)
      returns (s1: seq<int>, m: set<int>)
    requires Ranked(db, rk) && h in db && h in rk && rk[h] < bound && Closed(db, marks)
    requires Elements(s) == marks + {c} && c !in marks && c in db && c in rk && rk[c] == bound
    ensures Below(db, rk, [h], bound) && s1 == AddAll(s, Anc(db, rk, h))
    ensures s1 == s + Visit(db, rk, [h], marks, bound).0 && m == Visit(db, rk, [h], marks, bound).1
    ensures Closed(db, m) && Elements(s1) == m + {c} && c !in m
  {
    hide Visit, Closed, Anc, Reaches, Ranked, AddAll;
    var a := Anc(db, rk, h);
    AncNoDup(db, rk, h);
    OneVisit(db, rk, h, marks, bound);
    m := Visit(db, rk, [h], marks, bound).1;
    VisitMarks(db, rk, [h], marks, bound);
    VisitedClosed(db, rk, [h], marks, bound);
    AddAllIs(s, a);
    NotOwnAncestor(db, rk, h, c);
    WithoutMore(a, marks, c);
    s1 := AddAll(s, a);
    var first := Visit(db, rk, [h], marks, bound).0;
    assert s1 == s + first;
    assert Elements(s1) == Elements(s) + Elements(first);
  }

  lemma NotOwnAncestor(db: Db, rk: Ranks, h: int, c: int)
    requires Ranked(db, rk) && h in db && c in db && h in rk && c in rk && rk[h] < rk[c]
    ensures c !in Anc(db, rk, h)
  {
    AncNoDup(db, rk, h);
    if Reaches(db, rk, h, c) {
      ReachesBelow(db, rk, h, c);
    }
  }

  lemma {:induction false} VisitCons(db: Db, rk: Ranks, ids: seq<int>, marks: set<int>, bound: nat)
    requires Ranked(db, rk) && Below(db, rk, ids, bound) && ids != []
    ensures Below(db, rk, [ids[0]], bound) && Below(db, rk, ids[1..], bound)
    ensures var (first, m) := Visit(db, rk, [ids[0]], marks, bound);
            var (rest, n) := Visit(db, rk, ids[1..], m, bound);
            Visit(db, rk, ids, marks, bound) == (first + rest, n)
  {
    var h := ids[0];
    assert [h][1..] == [];
    if h in db && h !in marks {
      assert RankedAt(db, rk, h);
      var (up, m) := Visit(db, rk, db[h].parents, marks + {h}, rk[h]);
      assert [h] + up + [] == [h] + up;
      assert Visit(db, rk, [h], marks, bound) == ([h] + up, m);
    } else {
      var rest := Visit(db, rk, ids[1..], marks, bound).0;
      assert [] + rest == rest;
      assert Visit(db, rk, [h], marks, bound) == ([], marks);
    }
  }

  /** A visit of one object lists its ancestors, except those marked. */
  lemma {:induction false} OneVisit(db: Db, rk: Ranks, h: int, marks: set<int>, bound: nat)
    requires Ranked(db, rk) && h in db && h in rk && rk[h] < bound && Closed(db, marks)
    ensures Below(db, rk, [h], bound) && Visit(db, rk, [h], marks, bound).0 == Without(Anc(db, rk, h), marks)
  {
    VisitWithout(db, rk, [h], {}, marks, bound);
    assert {} + marks == marks;
    assert [h][1..] == [];
    assert RankedAt(db, rk, h);
    var up := Visit(db, rk, db[h].parents, {h}, rk[h]).0;
    NotAbove(db, rk, h, rk[h]);
    assert {} + {h} == {h};
    assert [h] + up + [] == [h] + up;
    assert Visit(db, rk, [h], {}, bound).0 == [h] + up;
  }

  /** An object's own mark makes no difference to the visit of its parents. */
  lemma {:induction false} NotAbove(db: Db, rk: Ranks, h: int, bound: nat)
    requires Ranked(db, rk) && h in db && h in rk && bound == rk[h]
    ensures Below(db, rk, db[h].parents, bound)
    ensures Visit(db, rk, db[h].parents, {h}, bound).0 == Visit(db, rk, db[h].parents, {}, bound).0
  {
    assert RankedAt(db, rk, h);
    MarkAbove(db, rk, db[h].parents, {}, h, bound);
    assert {} + {h} == {h};
  }

  lemma {:induction false} MarkAbove(db: Db, rk: Ranks, ids: seq<int>, marks: set<int>, h: int, bound: nat)
    requires Ranked(db, rk) && Below(db, rk, ids, bound) && h in rk && rk[h] >= bound
    ensures Visit(db, rk, ids, marks + {h}, bound).0 == Visit(db, rk, ids, marks, bound).0
    ensures Visit(db, rk, ids, marks + {h}, bound).1 == Visit(db, rk, ids, marks, bound).1 + {h}
    decreases bound, |ids|
  {
    if ids != [] {
      var x := ids[0];
      if x !in db || x in marks {
        MarkAbove(db, rk, ids[1..], marks, h, bound);
      } else {
        assert RankedAt(db, rk, x);
        assert marks + {h} + {x} == marks + {x} + {h};
        MarkAbove(db, rk, db[x].parents, marks + {x}, h, rk[x]);
        MarkAbove(db, rk, ids[1..], Visit(db, rk, db[x].parents, marks + {x}, rk[x]).1, h, bound);
      }
    }
  }

  /** The ancestors of a child, from the lists of its parents. */
  lemma {:induction false} AncFromParents(db: Db, rk: Ranks, c: int)
    requires Ranked(db, rk) && c in db && forall i :: 0 <= i < |db[c].parents| ==> db[c].parents[i] in db
    ensures Anc(db, rk, c) == Joint(db, rk, [c], db[c].parents)
  {
    assert RankedAt(db, rk, c);
    assert Elements([c]) == {} + {c};
    JointVisits(db, rk, [c], db[c].parents, c, rk[c], {});
  }
}
