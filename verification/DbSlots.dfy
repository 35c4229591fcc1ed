/** Property values by definer and slot, and what becomes of them when the ancestor list changes. */
module DbSlots {
  import opened Options
  import opened DbLinks

  /** The names of the properties that each object defines. */
  type Defs = map<int, seq<string>>

  /** value: no value stands for clear; chown: the c flag. */
  datatype Pval = Pval(value: Option<int>, owner: int, chown: bool, perms: nat)

  function Len(defs: Defs, a: int): nat {
    if a in defs then |defs[a]| else 0
  }

  function Total(defs: Defs, anc: seq<int>): nat {
    if anc == [] then 0 else Len(defs, anc[0]) + Total(defs, anc[1..])
  }

  /** Where the properties that a defines start. */
  function Offset(defs: Defs, anc: seq<int>, a: int): nat {
    if anc == [] || anc[0] == a then 0 else Len(defs, anc[0]) + Offset(defs, anc[1..], a)
  }

  lemma {:induction false} OffsetFits(defs: Defs, anc: seq<int>, a: int)
    requires a in anc
    ensures Offset(defs, anc, a) + Len(defs, a) <= Total(defs, anc)
    decreases |anc|
  {
    if anc[0] != a {
      OffsetFits(defs, anc[1..], a);
    }
  }

  /** The j-th of the properties that a defines. */
  function Slot(defs: Defs, anc: seq<int>, vals: seq<Pval>, a: int, j: nat): Pval
    requires a in anc && j < Len(defs, a) && |vals| == Total(defs, anc)
  {
    OffsetFits(defs, anc, a);
    vals[Offset(defs, anc, a) + j]
  }

  // ---- one more, one less ----

  function InsertAt(vals: seq<Pval>, pos: nat, v: Pval): seq<Pval>
    requires pos <= |vals|
  {
    vals[..pos] + [v] + vals[pos..]
  }

  function RemoveAt(vals: seq<Pval>, pos: nat): seq<Pval>
    requires pos < |vals|
  {
    vals[..pos] + vals[pos + 1..]
  }

  lemma {:induction false} TotalMore(defs: Defs, anc: seq<int>, a: int, names: seq<string>)
    requires NoDup(anc) && a in defs
    ensures var more := defs[a := names];
            Total(more, anc) == Total(defs, anc) + if a in anc then |names| - |defs[a]| else 0
    decreases |anc|
  {
    if anc != [] {
      TotalMore(defs, anc[1..], a, names);
    }
  }

  lemma {:induction false} OffsetMore(defs: Defs, anc: seq<int>, a: int, names: seq<string>, b: int)
    requires NoDup(anc) && a in defs && a in anc && b in anc
    ensures var more := defs[a := names];
            && (Offset(defs, anc, b) <= Offset(defs, anc, a)
              || Offset(defs, anc, b) >= Offset(defs, anc, a) + |defs[a]|)
            && Offset(more, anc, b)
               == Offset(defs, anc, b) + (if Before(anc, a, b) then |names| - |defs[a]| else 0)
            && (Before(anc, a, b) ==> Offset(defs, anc, b) >= Offset(defs, anc, a) + |defs[a]|)
            && (!Before(anc, a, b) && b != a ==> Offset(defs, anc, b) + Len(defs, b) <= Offset(defs, anc, a))
    decreases |anc|
  {
    if anc[0] != a && anc[0] != b {
      OffsetMore(defs, anc[1..], a, names, b);
    } else if anc[0] == a && b != a {
      OffsetSame(defs, anc[1..], a, names, b);
    }
  }

  lemma {:induction false} OffsetSame(defs: Defs, anc: seq<int>, a: int, names: seq<string>, b: int)
    requires a in defs && a !in anc && b in anc
    ensures Offset(defs[a := names], anc, b) == Offset(defs, anc, b)
    decreases |anc|
  {
    if anc[0] != b {
      OffsetSame(defs, anc[1..], a, names, b);
    }
  }

  /** a stands before b in the list. */
  predicate Before(anc: seq<int>, a: int, b: int) {
    anc != [] && anc[0] != b && (anc[0] == a || Before(anc[1..], a, b))
  }

  /** A new slot at the end of those that a defines: every other slot keeps its value. */
  lemma InsertKeeps(defs: Defs, anc: seq<int>, vals: seq<Pval>, a: int, name: string, v: Pval, b: int, j: nat)
    requires NoDup(anc) && a in defs && a in anc && b in anc && |vals| == Total(defs, anc)
    requires j < Len(defs[a := defs[a] + [name]], b)
    ensures Offset(defs, anc, a) + |defs[a]| <= |vals|
    ensures var more, now := defs[a := defs[a] + [name]], InsertAt(vals, Offset(defs, anc, a) + |defs[a]|, v);
            && |now| == Total(more, anc)
            && Slot(more, anc, now, b, j) == if b == a && j == |defs[a]| then v else Slot(defs, anc, vals, b, j)
  {
    OffsetFits(defs, anc, a);
    OffsetFits(defs, anc, b);
    TotalMore(defs, anc, a, defs[a] + [name]);
    OffsetMore(defs, anc, a, defs[a] + [name], b);
    OffsetMore(defs, anc, a, defs[a] + [name], a);
    BeforeSelf(anc, a);
    OffsetFits(defs[a := defs[a] + [name]], anc, b);
  }

  lemma {:induction false} BeforeSelf(anc: seq<int>, a: int)
    requires a in anc
    ensures !Before(anc, a, a)
    decreases |anc|
  {
    if anc[0] != a {
      BeforeSelf(anc[1..], a);
    }
  }

  /** The i-th slot of those that a defines goes: every other slot keeps its value. */
  lemma RemoveKeeps(defs: Defs, anc: seq<int>, vals: seq<Pval>, a: int, i: nat, b: int, j: nat)
    requires NoDup(anc) && a in defs && i < |defs[a]| && a in anc && b in anc && |vals| == Total(defs, anc)
    requires j < Len(defs[a := defs[a][..i] + defs[a][i + 1..]], b)
    ensures Offset(defs, anc, a) + i < |vals|
    ensures var less, now := defs[a := defs[a][..i] + defs[a][i + 1..]], RemoveAt(vals, Offset(defs, anc, a) + i);
            && |now| == Total(less, anc)
            && Slot(less, anc, now, b, j) == Slot(defs, anc, vals, b, if b == a && j >= i then j + 1 else j)
  {
    var names := defs[a][..i] + defs[a][i + 1..];
    OffsetFits(defs, anc, a);
    OffsetFits(defs, anc, b);
    TotalMore(defs, anc, a, names);
    OffsetMore(defs, anc, a, names, b);
    OffsetMore(defs, anc, a, names, a);
    BeforeSelf(anc, a);
    OffsetFits(defs[a := names], anc, b);
  }

  // ---- another list of ancestors ----

  /** Values laid out by one list, laid out again by another: what both lists define is kept, and what only
      the new one defines is clear. */
  ghost predicate Relaid(defs: Defs, was: seq<int>, now: seq<int>, before: seq<Pval>, after: seq<Pval>) {
    && |before| == Total(defs, was) && |after| == Total(defs, now)
    && forall a, j: nat :: a in now && j < Len(defs, a) ==> RelaidSlot(defs, was, now, before, after, a, j)
  }

  ghost predicate RelaidSlot(defs: Defs, was: seq<int>, now: seq<int>, before: seq<Pval>, after: seq<Pval>, a: int,
      j: nat)
    requires a in now && j < Len(defs, a) && |before| == Total(defs, was) && |after| == Total(defs, now)
  {
    if a in was then Slot(defs, now, after, a, j) == Slot(defs, was, before, a, j)
    else Slot(defs, now, after, a, j).value == None
  }

  /** The values for one definer. */
  ghost predicate PartOk(defs: Defs, was: seq<int>, before: seq<Pval>, a: int, part: seq<Pval>)
    requires |before| == Total(defs, was)
  {
    && |part| == Len(defs, a)
    && forall j: nat :: j < |part|
                        ==> if a in was then part[j] == Slot(defs, was, before, a, j) else part[j].value == None
  }

  lemma RelaidNone(defs: Defs, was: seq<int>, before: seq<Pval>)
    requires |before| == Total(defs, was)
    ensures Relaid(defs, was, [], before, [])
  {
  }

  lemma {:induction false} RelaidMore(defs: Defs, was: seq<int>, now: seq<int>, a: int, before: seq<Pval>,
      after: seq<Pval>, part: seq<Pval>)
    requires Relaid(defs, was, now, before, after) && a !in now && PartOk(defs, was, before, a, part)
    ensures Relaid(defs, was, now + [a], before, after + part)
  {
    TotalPlus(defs, now, [a]);
    assert [a][1..] == [];
    assert now + [a] + [] == now + [a];
    OffsetPlus(defs, now, a, []);
    forall b, j: nat | b in now + [a]
        && j < Len(defs, b) ensures RelaidSlot(defs, was, now + [a], before, after + part, b, j) {
      if b in now {
        OffsetPrefix(defs, now, [a], b);
        OffsetFits(defs, now, b);
        assert RelaidSlot(defs, was, now, before, after, b, j);
      }
    }
  }

  /** Every value is some definer's. */
  lemma {:induction false} SlotOf(defs: Defs, anc: seq<int>, k: nat) returns (a: int, j: nat)
    requires NoDup(anc) && k < Total(defs, anc)
    ensures a in anc && j < Len(defs, a) && Offset(defs, anc, a) + j == k
    decreases |anc|
  {
    if k < Len(defs, anc[0]) {
      a, j := anc[0], k;
    } else {
      a, j := SlotOf(defs, anc[1..], k - Len(defs, anc[0]));
    }
  }

  /** With c the owner's, without it the giver's. */
  function Inherited(v: Pval, owner: int): Pval {
    Pval(None, if v.chown then owner else v.owner, v.chown, v.perms)
  }

  lemma {:induction false} TotalPlus(defs: Defs, a: seq<int>, b: seq<int>)
    ensures Total(defs, a + b) == Total(defs, a) + Total(defs, b)
    decreases |a|
  {
    if a == [] {
      assert a + b == b;
    } else {
      assert (a + b)[1..] == a[1..] + b;
      TotalPlus(defs, a[1..], b);
    }
  }

  lemma {:induction false} OffsetPlus(defs: Defs, a: seq<int>, x: int, b: seq<int>)
    requires x !in a
    ensures Offset(defs, a + [x] + b, x) == Total(defs, a)
    decreases |a|
  {
    if a != [] {
      assert (a + [x] + b)[1..] == a[1..] + [x] + b;
      OffsetPlus(defs, a[1..], x, b);
    }
  }

  lemma {:induction false} OffsetPrefix(defs: Defs, a: seq<int>, b: seq<int>, x: int)
    requires x in a
    ensures Offset(defs, a + b, x) == Offset(defs, a, x)
    decreases |a|
  {
    if a[0] != x {
      assert (a + b)[1..] == a[1..] + b;
      OffsetPrefix(defs, a[1..], b, x);
    }
  }
}
