/** The list of old ancestors that is put together for a child from its parent's old list and the new lists of its other
    parents. */
module DbHybrid {
  import opened DbGraph
  import opened DbLinks
  import opened DbAncestors
  import opened DbLayout
  import opened DbSlots
  import opened DbJoin
  import opened DbChparent
  import opened DbCone

  ghost predicate AllIn(m: Move, ids: seq<int>) {
    forall i :: 0 <= i < |ids| ==> ids[i] in m.db0 && ids[i] in m.db1
  }

  lemma AllInTail(m: Move, ids: seq<int>)
    requires AllIn(m, ids) && ids != []
    ensures AllIn(m, ids[1..]) && ids[0] in m.db0 && ids[0] in m.db1
  {
  }

  /** was for the parent me, the list of the changed graph for the others. */
  ghost function Older(m: Move, s: seq<int>, ids: seq<int>, me: int, was: seq<int>): seq<int>
    requires MoveOk(m) && AllIn(m, ids)
    decreases |ids|
  {
    if ids == [] then s else Older(m, AddAll(s, if ids[0] == me then was else Now(m, ids[0])), ids[1..], me, was)
  }

  ghost function JointWas(m: Move, s: seq<int>, ids: seq<int>): seq<int>
    requires MoveOk(m) && AllIn(m, ids)
  {
    Joint(m.db0, m.rk0, s, ids)
  }

  ghost function JointNow(m: Move, s: seq<int>, ids: seq<int>): seq<int>
    requires MoveOk(m) && AllIn(m, ids)
  {
    Joint(m.db1, m.rk1, s, ids)
  }

  lemma JointsStep(m: Move, s: seq<int>, ids: seq<int>)
    requires MoveOk(m) && AllIn(m, ids) && ids != []
    ensures AllIn(m, ids[1..])
    ensures JointWas(m, s, ids) == JointWas(m, AddAll(s, Was(m, ids[0])), ids[1..])
    ensures JointNow(m, s, ids) == JointNow(m, AddAll(s, Now(m, ids[0])), ids[1..])
  {
    hide Anc, AddAll;
    AllInTail(m, ids);
  }

  /** A child's lists from those of its parents. */
  lemma ChildJoint(m: Move, c: int)
    requires MoveOk(m) && c in m.db0 && c != m.x
    ensures c in m.db1 && m.db1[c].parents == m.db0[c].parents && AllIn(m, m.db0[c].parents)
    ensures Was(m, c) == JointWas(m, [c], m.db0[c].parents) && Now(m, c) == JointNow(m, [c], m.db0[c].parents)
  {
    hide Anc, Joint;
    Parents(m, c);
    AncFromParents(m.db0, m.rk0, c);
    AncFromParents(m.db1, m.rk1, c);
  }

  // ---- every list below x is one join, with x's list in it ----

  ghost function TopWas(m: Move, defs: Defs): seq<int>
    requires MoveOk(m)
  {
    Definers(defs, Was(m, m.x))
  }

  ghost function TopNow(m: Move, defs: Defs): seq<int>
    requires MoveOk(m)
  {
    Definers(defs, Now(m, m.x))
  }

  /** w joins up to both lists of q, with x's old or new list for Old. */
  ghost predicate WordFor(m: Move, defs: Defs, q: int, w: seq<Block>)
    requires MoveOk(m)
  {
    var x, y := TopWas(m, defs), TopNow(m, defs);
    q in m.db0 && OnlyOld(w) && Run([], w, x, x) == Definers(defs, Was(m, q))
      && Run([], w, y, y) == Definers(defs, Now(m, q))
  }

  lemma LitWord(s: seq<int>, x: seq<int>)
    requires NoDup(s)
    ensures Run([], [Lit(s)], x, x) == s && OnlyOld([Lit(s)])
  {
    AddToNone(s);
    assert [Lit(s)][1..] == [];
    assert Run(s, [], x, x) == s;
  }

  lemma TopWord(m: Move, defs: Defs)
    requires MoveOk(m)
    ensures WordFor(m, defs, m.x, [Old])
  {
    hide Anc, Definers;
    var x, y := TopWas(m, defs), TopNow(m, defs);
    Lists(m, m.x);
    DefinersHas(defs, Was(m, m.x));
    DefinersHas(defs, Now(m, m.x));
    AddToNone(x);
    AddToNone(y);
    assert [Old][1..] == [];
    assert Run(x, [], x, x) == x && Run(y, [], y, y) == y;
  }

  lemma OutsideWord(m: Move, defs: Defs, q: int)
    requires MoveOk(m) && q in m.db0 && !In(m, q)
    ensures WordFor(m, defs, q, [Lit(Definers(defs, Was(m, q)))])
  {
    hide Anc, Definers, Reaches;
    Lists(m, q);
    SameOutside(m, q);
    DefinersHas(defs, Was(m, q));
    LitWord(Definers(defs, Was(m, q)), TopWas(m, defs));
    LitWord(Definers(defs, Was(m, q)), TopNow(m, defs));
  }

  /** One more word joined to a list. */
  lemma WordJoins(m: Move, defs: Defs, q: int, w: seq<Block>, s: seq<int>)
    requires MoveOk(m) && WordFor(m, defs, q, w)
    ensures var x, y := TopWas(m, defs), TopNow(m, defs);
            && Run(Definers(defs, s), w, x, x) == Definers(defs, AddAll(s, Was(m, q)))
            && Run(Definers(defs, s), w, y, y) == Definers(defs, AddAll(s, Now(m, q)))
  {
    hide Anc, Definers, AddAll, Run;
    RunFrom(Definers(defs, s), w, TopWas(m, defs), TopWas(m, defs));
    RunFrom(Definers(defs, s), w, TopNow(m, defs), TopNow(m, defs));
    DefinersAdd(defs, s, Was(m, q));
    DefinersAdd(defs, s, Now(m, q));
  }

  lemma OnlyOldPlus(v: seq<Block>, w: seq<Block>)
    requires OnlyOld(v) && OnlyOld(w)
    ensures OnlyOld(v + w)
  {
  }

  lemma {:induction false} WordsOf(m: Move, defs: Defs, ids: seq<int>, so: seq<int>, sn: seq<int>, bound: nat)
      returns (w: seq<Block>)
    requires MoveOk(m) && AllIn(m, ids) && Below(m.db0, m.rk0, ids, bound)
    ensures var x, y := TopWas(m, defs), TopNow(m, defs);
            && OnlyOld(w) && Run(Definers(defs, so), w, x, x) == Definers(defs, JointWas(m, so, ids))
            && Run(Definers(defs, sn), w, y, y) == Definers(defs, JointNow(m, sn, ids))
    decreases bound, 0, |ids|
  {
    hide Anc, Definers, AddAll, MoveOk;
    if ids == [] {
      w := [];
    } else {
      var q := ids[0];
      AllInTail(m, ids);
      BelowTail(m, ids, bound);
      var v := WordOf(m, defs, q);
      WordJoins(m, defs, q, v, so);
      WordJoins(m, defs, q, v, sn);
      JointsStep(m, so, ids);
      JointsStep(m, sn, ids);
      var u := WordsOf(m, defs, ids[1..], AddAll(so, Was(m, q)), AddAll(sn, Now(m, q)), bound);
      w := v + u;
      OnlyOldPlus(v, u);
      RunPlus(Definers(defs, so), v, u, TopWas(m, defs), TopWas(m, defs));
      RunPlus(Definers(defs, sn), v, u, TopNow(m, defs), TopNow(m, defs));
    }
  }

  lemma BelowTail(m: Move, ids: seq<int>, bound: nat)
    requires ids != [] && Below(m.db0, m.rk0, ids, bound) && ids[0] in m.db0
    ensures ids[0] in m.rk0 && m.rk0[ids[0]] < bound && Below(m.db0, m.rk0, ids[1..], bound)
  {
  }

  lemma {:induction false} WordOf(m: Move, defs: Defs, q: int) returns (w: seq<Block>)
    requires MoveOk(m) && q in m.db0
    ensures WordFor(m, defs, q, w)
    decreases if q in m.rk0 then m.rk0[q] else 0, 1, 0
  {
    hide Anc, Definers, AddAll, Run, Reaches, Joint;
    if q == m.x {
      w := [Old];
      TopWord(m, defs);
    } else if !In(m, q) {
      w := [Lit(Definers(defs, Was(m, q)))];
      OutsideWord(m, defs, q);
    } else {
      ChildJoint(m, q);
      assert RankedAt(m.db0, m.rk0, q);
      var v := WordsOf(m, defs, m.db0[q].parents, [q], [q], m.rk0[q]);
      var own := Definers(defs, [q]);
      DefinersHas(defs, [q]);
      LitWord(own, TopWas(m, defs));
      LitWord(own, TopNow(m, defs));
      w := [Lit(own)] + v;
      OnlyOldPlus([Lit(own)], v);
      RunPlus([], [Lit(own)], v, TopWas(m, defs), TopWas(m, defs));
      RunPlus([], [Lit(own)], v, TopNow(m, defs), TopNow(m, defs));
    }
  }

  // ---- the list for a child ----

  lemma {:induction false} OnlyOldSame(s: seq<int>, w: seq<Block>, x: seq<int>, y: seq<int>)
    requires OnlyOld(w)
    ensures Run(s, w, x, y) == Run(s, w, x, x)
    decreases |w|
  {
    if w != [] {
      OnlyOldSame(AddAll(s, Listed(w[0], x, x)), w[1..], x, y);
    }
  }

  /** One word for the old, the new and the mixed list. */
  lemma {:induction false} MixedWord(m: Move, defs: Defs, ids: seq<int>, me: int, was: seq<int>, so: seq<int>,
      sn: seq<int>, sh: seq<int>)
    returns (w: seq<Block>)
    requires MoveOk(m) && AllIn(m, ids) && me in m.db0 && Definers(defs, was) == Definers(defs, Was(m, me))
    ensures var x, y := TopWas(m, defs), TopNow(m, defs);
            && Run(Definers(defs, so), w, x, x) == Definers(defs, JointWas(m, so, ids))
            && Run(Definers(defs, sn), w, y, y) == Definers(defs, JointNow(m, sn, ids))
            && Run(Definers(defs, sh), w, x, y) == Definers(defs, Older(m, sh, ids, me, was))
    decreases |ids|
  {
    hide Anc, Definers, AddAll, MoveOk;
    if ids == [] {
      w := [];
    } else {
      var q := ids[0];
      AllInTail(m, ids);
      var x, y := TopWas(m, defs), TopNow(m, defs);
      var v0 := WordOf(m, defs, q);
      var v := if q == me then v0 else Retagged(v0);
      var so', sn' := AddAll(so, Was(m, q)), AddAll(sn, Now(m, q));
      var sh' := AddAll(sh, if q == me then was else Now(m, q));
      TaggedJoins(m, defs, q, me, was, v0, so, sn, sh);
      JointsStep(m, so, ids);
      JointsStep(m, sn, ids);
      var u := MixedWord(m, defs, ids[1..], me, was, so', sn', sh');
      w := v + u;
      RunPlus(Definers(defs, so), v, u, x, x);
      RunPlus(Definers(defs, sn), v, u, y, y);
      RunPlus(Definers(defs, sh), v, u, x, y);
    }
  }

  lemma TaggedJoins(m: Move, defs: Defs, q: int, me: int, was: seq<int>, v0: seq<Block>, so: seq<int>, sn: seq<int>,
      sh: seq<int>)
    requires MoveOk(m) && me in m.db0 && Definers(defs, was) == Definers(defs, Was(m, me)) && WordFor(m, defs, q, v0)
    ensures var x, y := TopWas(m, defs), TopNow(m, defs);
            var v := if q == me then v0 else Retagged(v0);
            && Run(Definers(defs, so), v, x, x) == Definers(defs, AddAll(so, Was(m, q)))
            && Run(Definers(defs, sn), v, y, y) == Definers(defs, AddAll(sn, Now(m, q)))
            && Run(Definers(defs, sh), v, x, y) == Definers(defs, AddAll(sh, if q == me then was else Now(m, q)))
  {
    hide Anc, Definers, AddAll, Run;
    var x, y := TopWas(m, defs), TopNow(m, defs);
    WordJoins(m, defs, q, v0, so);
    WordJoins(m, defs, q, v0, sn);
    WordJoins(m, defs, q, v0, sh);
    if q == me {
      OnlyOldSame(Definers(defs, sh), v0, x, y);
      DefinersAdd(defs, sh, was);
      DefinersAdd(defs, sh, Was(m, me));
    } else {
      RunRetagged(Definers(defs, so), v0, x, x);
      RunRetagged(Definers(defs, sn), v0, y, y);
      RunRetagged(Definers(defs, sh), v0, x, y);
    }
  }

  /** A child that inherits alike before and after inherits alike by every mixture. */
  lemma OlderCalm(m: Move, defs: Defs, c: int, me: int, was: seq<int>)
    requires MoveOk(m) && c in m.db0 && c != m.x && me in m.db0 && Definers(defs, was) == Definers(defs, Was(m, me))
        && SameOrder(m, defs, c)
    ensures AllIn(m, m.db0[c].parents)
    ensures Definers(defs, Older(m, [c], m.db0[c].parents, me, was)) == Definers(defs, Was(m, c))
  {
    hide Anc, Definers, AddAll, Run, Joint, Older;
    ChildJoint(m, c);
    var w := MixedWord(m, defs, m.db0[c].parents, me, was, [c], [c], [c]);
    Mixed(w, TopWas(m, defs), TopNow(m, defs), Definers(defs, [c]));
  }

  /** The other parents are outside: the list is the old one. */
  lemma {:induction false} OlderNarrow(m: Move, defs: Defs, ids: seq<int>, me: int, was: seq<int>, so: seq<int>,
      sh: seq<int>)
    requires MoveOk(m) && AllIn(m, ids) && me in m.db0 && Definers(defs, was) == Definers(defs, Was(m, me))
    requires Definers(defs, so) == Definers(defs, sh) && forall p :: p in ids && p != me ==> !In(m, p)
    ensures Definers(defs, Older(m, sh, ids, me, was)) == Definers(defs, JointWas(m, so, ids))
    decreases |ids|
  {
    hide Anc, Definers, AddAll, MoveOk, Inside, In;
    if ids != [] {
      var q := ids[0];
      assert q in ids;
      AllInTail(m, ids);
      if q != me {
        SameOutside(m, q);
      }
      var l := if q == me then was else Now(m, q);
      DefinersAdd(defs, so, Was(m, q));
      DefinersAdd(defs, sh, l);
      JointsStep(m, so, ids);
      OlderNarrow(m, defs, ids[1..], me, was, AddAll(so, Was(m, q)), AddAll(sh, l));
    }
  }

  lemma {:induction false} JointsAlike(m: Move, defs: Defs, ids: seq<int>, so: seq<int>, sn: seq<int>)
    requires MoveOk(m) && AllIn(m, ids) && Definers(defs, so) == Definers(defs, sn)
    requires forall p :: p in ids && p in m.db0 ==> SameOrder(m, defs, p)
    ensures Definers(defs, JointWas(m, so, ids)) == Definers(defs, JointNow(m, sn, ids))
    decreases |ids|
  {
    hide Anc, Definers, AddAll, MoveOk;
    if ids != [] {
      var q := ids[0];
      assert q in ids;
      AllInTail(m, ids);
      DefinersAdd(defs, so, Was(m, q));
      DefinersAdd(defs, sn, Now(m, q));
      JointsStep(m, so, ids);
      JointsStep(m, sn, ids);
      JointsAlike(m, defs, ids[1..], AddAll(so, Was(m, q)), AddAll(sn, Now(m, q)));
    }
  }

  /** Order is inherited by a child with one parent inside. */
  lemma OrderDown(m: Move, defs: Defs, c: int, p: int)
    requires MoveOk(m) && In(m, c) && c != m.x && p in m.db0 && p in m.db0[c].parents && In(m, p) && !Wide(m, c)
        && SameOrder(m, defs, p)
    ensures SameOrder(m, defs, c)
  {
    hide Anc, Definers, Joint, Reaches;
    ChildJoint(m, c);
    var ids := m.db0[c].parents;
    forall q | q in ids && q in m.db0 ensures SameOrder(m, defs, q) {
      if q != p {
        OtherOutside(m, c, p, q);
        SameOutside(m, q);
      }
    }
    JointsAlike(m, defs, ids, [c], [c]);
  }

  /** The other parents of a child with one parent inside are outside. */
  lemma OtherOutside(m: Move, c: int, p: int, q: int)
    requires MoveOk(m) && In(m, c) && c != m.x && !Wide(m, c) && p in m.db0[c].parents && q in m.db0[c].parents
        && p != q && In(m, p)
    ensures !In(m, q)
  {
    var i :| 0 <= i < |m.db0[c].parents| && m.db0[c].parents[i] == p;
    var j :| 0 <= j < |m.db0[c].parents| && m.db0[c].parents[j] == q;
  }

  // ---- the list as a set ----

  lemma {:induction false} OlderHas(m: Move, s: seq<int>, ids: seq<int>, me: int, was: seq<int>)
    requires MoveOk(m) && AllIn(m, ids)
    ensures forall y :: y in s ==> y in Older(m, s, ids, me, was)
    ensures me in ids ==> forall y :: y in was ==> y in Older(m, s, ids, me, was)
    ensures forall p, y :: p in ids && p != me && p in m.db0 && y in Now(m, p) ==> y in Older(m, s, ids, me, was)
    ensures NoDup(s) ==> NoDup(Older(m, s, ids, me, was))
    decreases |ids|
  {
    hide Anc, AddAll, MoveOk;
    if ids != [] {
      AllInTail(m, ids);
      var l := if ids[0] == me then was else Now(m, ids[0]);
      AddAllHas(s, l);
      OlderHas(m, AddAll(s, l), ids[1..], me, was);
      forall p | p in ids && p != me && p in m.db0 ensures forall y ::
          y in Now(m, p) ==> y in Older(m, s, ids, me, was) {
        if p !in ids[1..] {
          assert p == ids[0];
        }
      }
      assert me in ids ==> me == ids[0] || me in ids[1..];
    }
  }

  lemma {:induction false} OlderFrom(m: Move, s: seq<int>, ids: seq<int>, me: int, was: seq<int>, y: int)
      returns (p: int)
    requires MoveOk(m) && AllIn(m, ids) && y in Older(m, s, ids, me, was) && y !in s
    ensures p in ids && p in m.db0 && y in if p == me then was else Now(m, p)
    decreases |ids|
  {
    hide Anc, AddAll, MoveOk;
    AllInTail(m, ids);
    var l := if ids[0] == me then was else Now(m, ids[0]);
    AddAllHas(s, l);
    if y in l {
      p := ids[0];
    } else {
      p := OlderFrom(m, AddAll(s, l), ids[1..], me, was, y);
    }
  }

  /** What is known of the old list with which an object is visited. */
  ghost predicate Visitable(m: Move, defs: Defs, me: int, was: seq<int>) {
    && MoveOk(m) && In(m, me) && NoDup(was) && me in was
    && (forall y :: y in was ==> y in m.db0 && (y in Was(m, me) || y in Now(m, me)))
    && (forall y :: y in Was(m, me) ==> y in was)
    && (Wide(m, me) ==> forall y :: y in Now(m, me) ==> y in was)
    && (Keeps(m, defs) ==> forall a :: a in was && Len(defs, a) > 0 ==> a in Was(m, me))
    && (Calm(m, defs) ==> Definers(defs, was) == Definers(defs, Was(m, me)))
  }

  lemma TopVisitable(m: Move, defs: Defs)
    requires MoveOk(m)
    ensures Visitable(m, defs, m.x, Was(m, m.x))
  {
    hide Anc;
    Lists(m, m.x);
  }

  ghost predicate IsKid(m: Move, me: int, c: int)
    requires MoveOk(m)
  {
    c in m.db0 && c in m.db1 && c != m.x && me in m.db0[c].parents && me in m.db1[c].parents && In(m, c)
  }

  ghost function ListFor(m: Move, c: int, me: int, was: seq<int>): seq<int>
    requires MoveOk(m) && c in m.db0 && AllIn(m, m.db0[c].parents)
  {
    Older(m, [c], m.db0[c].parents, me, was)
  }

  lemma ListHas(m: Move, c: int, me: int, was: seq<int>)
    requires MoveOk(m) && c in m.db0 && AllIn(m, m.db0[c].parents) && me in m.db0[c].parents
    ensures var l := ListFor(m, c, me, was);
            && c in l && NoDup(l) && (forall y :: y in was ==> y in l)
            && forall p, y :: p in m.db0[c].parents && p != me && p in m.db0 && y in Now(m, p) ==> y in l
  {
    hide Anc, MoveOk, Older;
    OlderHas(m, [c], m.db0[c].parents, me, was);
  }

  /** Nothing that was inherited is missing. */
  lemma OldIsThere(m: Move, defs: Defs, c: int, me: int, was: seq<int>, y: int)
    requires Visitable(m, defs, me, was) && IsKid(m, me, c) && AllIn(m, m.db0[c].parents) && y in Was(m, c)
    ensures y in ListFor(m, c, me, was)
  {
    hide Anc, Older, Definers, Reaches, Keeps, Calm, Wide;
    ListHas(m, c, me, was);
    if y != c {
      var p := ViaOld(m, c, y);
      if p != me {
        if In(m, p) {
          LostByTop(m, p, y);
          TopIn(m, me, y);
        } else {
          SameOutside(m, p);
        }
      }
    }
  }

  lemma NothingElse(m: Move, defs: Defs, c: int, me: int, was: seq<int>, y: int)
    requires Visitable(m, defs, me, was) && IsKid(m, me, c) && AllIn(m, m.db0[c].parents) && y in ListFor(m, c, me, was)
    ensures y in m.db0 && (y in Was(m, c) || y in Now(m, c))
  {
    hide Anc, Older, Definers, Reaches, Keeps, Calm, Wide;
    Lists(m, c);
    if y != c {
      var p := OlderFrom(m, [c], m.db0[c].parents, me, was, y);
      Up(m, c, p, y);
      Lists(m, p);
    }
  }

  /** With two parents inside, everything old and new is there. */
  lemma NewIsThere(m: Move, defs: Defs, c: int, me: int, was: seq<int>, y: int)
    requires Visitable(m, defs, me, was) && IsKid(m, me, c) && AllIn(m, m.db0[c].parents) && Wide(m, c)
        && y in Now(m, c)
    ensures y in ListFor(m, c, me, was)
  {
    hide Anc, Older, Definers, Reaches, Keeps, Calm;
    ListHas(m, c, me, was);
    if y != c {
      var p := ViaNew(m, c, y);
      Parents(m, c);
      if p == me {
        GainedByTop(m, me, y);
        var q := AnotherInside(m, c, me);
        TopIn(m, q, y);
      }
    }
  }

  lemma AnotherInside(m: Move, c: int, me: int) returns (q: int)
    requires MoveOk(m) && Wide(m, c) && me in m.db0[c].parents
    ensures q in m.db0[c].parents && q != me && q in m.db0 && In(m, q)
  {
    var i, j :| 0 <= i < |m.db0[c].parents| && 0 <= j < |m.db0[c].parents|
        && Inside(m.db0, m.rk0, m.db0[c].parents[i], m.x)
      && Inside(m.db0, m.rk0, m.db0[c].parents[j], m.x) && m.db0[c].parents[i] != m.db0[c].parents[j];
    q := if m.db0[c].parents[i] != me then m.db0[c].parents[i] else m.db0[c].parents[j];
  }

  lemma KeptSources(m: Move, defs: Defs, c: int, me: int, was: seq<int>, a: int)
    requires Visitable(m, defs, me, was) && IsKid(m, me, c) && AllIn(m, m.db0[c].parents) && Keeps(m, defs)
    requires a in ListFor(m, c, me, was) && Len(defs, a) > 0
    ensures a in Was(m, c)
  {
    hide Anc, Older, Definers, Reaches, Calm;
    NothingElse(m, defs, c, me, was, a);
    if Wide(m, c) {
      assert SameSources(m, defs, c);
    } else if a != c {
      var p := OlderFrom(m, [c], m.db0[c].parents, me, was, a);
      if p != me {
        OtherOutside(m, c, me, p);
        SameOutside(m, p);
      }
      Up(m, c, p, a);
    } else {
      Lists(m, c);
    }
  }

  lemma KeptOrder(m: Move, defs: Defs, c: int, me: int, was: seq<int>)
    requires Visitable(m, defs, me, was) && IsKid(m, me, c) && AllIn(m, m.db0[c].parents) && Calm(m, defs)
    ensures Definers(defs, ListFor(m, c, me, was)) == Definers(defs, Was(m, c))
  {
    hide Anc, Older, Definers, Reaches, Keeps, Joint;
    if Wide(m, c) {
      OlderCalm(m, defs, c, me, was);
    } else {
      ChildJoint(m, c);
      forall p | p in m.db0[c].parents && p != me ensures !In(m, p) {
        OtherOutside(m, c, me, p);
      }
      OlderNarrow(m, defs, m.db0[c].parents, me, was, [c], [c]);
    }
  }

  lemma ChildVisitable(m: Move, defs: Defs, c: int, me: int, was: seq<int>)
    requires Visitable(m, defs, me, was) && IsKid(m, me, c)
    ensures AllIn(m, m.db0[c].parents) && Visitable(m, defs, c, ListFor(m, c, me, was))
    ensures forall p, y :: p in m.db0[c].parents && p != me && p in m.db0 && y in Now(m, p)
                           ==> y in ListFor(m, c, me, was)
  {
    hide Anc, Older, Definers, Reaches, Keeps, Calm, Wide, ListFor;
    ChildJoint(m, c);
    var l := ListFor(m, c, me, was);
    ListHas(m, c, me, was);
    forall y | y in l ensures y in m.db0 && (y in Was(m, c) || y in Now(m, c)) {
      NothingElse(m, defs, c, me, was, y);
    }
    forall y | y in Was(m, c) ensures y in l {
      OldIsThere(m, defs, c, me, was, y);
    }
    if Wide(m, c) {
      forall y | y in Now(m, c) ensures y in l {
        NewIsThere(m, defs, c, me, was, y);
      }
    }
    if Keeps(m, defs) {
      forall a | a in l && Len(defs, a) > 0 ensures a in Was(m, c) {
        KeptSources(m, defs, c, me, was, a);
      }
    }
    if Calm(m, defs) {
      KeptOrder(m, defs, c, me, was);
    }
  }

  // ---- objects that come up more than once ----

  ghost predicate Unmoved(m: Move, defs: Defs, o: int)
    requires MoveOk(m) && o in m.db0
  {
    (Keeps(m, defs) ==> SameSources(m, defs, o)) && (Calm(m, defs) ==> SameOrder(m, defs, o))
  }

  lemma UnmovedDown(m: Move, defs: Defs, c: int, p: int)
    requires MoveOk(m) && In(m, c) && c != m.x && p in m.db0 && p in m.db0[c].parents && In(m, p) && Unmoved(m, defs, p)
    ensures Unmoved(m, defs, c)
  {
    hide SameSources, SameOrder, Inside, MoveOk;
    if Keeps(m, defs) && !Wide(m, c) {
      SourcesDown(m, defs, c, p);
    }
    if Calm(m, defs) && !Wide(m, c) {
      OrderDown(m, defs, c, p);
    }
  }

  /** What is below two children of one object inherits alike before and after. */
  lemma {:induction false} Twice(m: Move, defs: Defs, o: int, c1: int, c2: int, me: int)
    requires MoveOk(m) && In(m, me) && IsKid(m, me, c1) && IsKid(m, me, c2) && c1 != c2
    requires Inside(m.db0, m.rk0, o, c1) && Inside(m.db0, m.rk0, o, c2)
    ensures o in m.db0 && Unmoved(m, defs, o)
    decreases if o in m.rk0 then m.rk0[o] else 0
  {
    hide Keeps, Calm, SameSources, SameOrder, Ranked, Linked, SameParents, Reaches;
    Below2(m, o, c1);
    if Wide(m, o) {
      WideUnmoved(m, defs, o);
    } else if o == c1 {
      NotThrough(m, c1, c2, me);
    } else if o == c2 {
      NotThrough(m, c2, c1, me);
    } else {
      var p := Towards(m.db0, m.rk0, o, c1);
      var q := Towards(m.db0, m.rk0, o, c2);
      ReachTrans(m.db0, m.rk0, p, c1, m.x);
      ReachTrans(m.db0, m.rk0, q, c2, m.x);
      if p != q {
        OtherOutside(m, o, p, q);
      }
      ParentBelow(m.db0, m.rk0, o, p);
      Twice(m, defs, p, c1, c2, me);
      UnmovedDown(m, defs, o, p);
    }
  }

  lemma Below2(m: Move, o: int, c: int)
    requires MoveOk(m) && In(m, c) && c != m.x && Inside(m.db0, m.rk0, o, c)
    ensures In(m, o) && o != m.x
  {
    ReachTrans(m.db0, m.rk0, o, c, m.x);
    if o == m.x {
      ReachesBelow(m.db0, m.rk0, m.x, c);
      ReachesBelow(m.db0, m.rk0, c, m.x);
    }
  }

  lemma WideUnmoved(m: Move, defs: Defs, o: int)
    requires MoveOk(m) && Wide(m, o)
    ensures Unmoved(m, defs, o)
  {
    hide SameSources, SameOrder, Inside, MoveOk;
  }

  /** A child with one parent inside is below no sister. */
  lemma NotThrough(m: Move, c1: int, c2: int, me: int)
    requires MoveOk(m) && In(m, me) && IsKid(m, me, c1) && IsKid(m, me, c2) && c1 != c2 && !Wide(m, c1)
    ensures !Inside(m.db0, m.rk0, c1, c2)
  {
    hide Ranked, Linked, SameParents, Reaches;
    if Inside(m.db0, m.rk0, c1, c2) {
      var p := Towards(m.db0, m.rk0, c1, c2);
      ReachTrans(m.db0, m.rk0, p, c2, m.x);
      ParentBelow(m.db0, m.rk0, c2, me);
      if p != me {
        OtherOutside(m, c1, me, p);
      }
      ReachesBelow(m.db0, m.rk0, me, c2);
      assert false;
    }
  }
}
