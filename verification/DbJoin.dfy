/** Joining ancestor lists without repeats, and what is left of a list when only the objects that define properties
    are looked at. */
module DbJoin {
  import opened DbLinks
  import opened DbAncestors
  import opened DbLayout
  import opened DbSlots

  // ---- joining lists ----

  predicate Prefix(a: seq<int>, b: seq<int>) {
    |a| <= |b| && b[..|a|] == a
  }

  lemma PrefixTrans(a: seq<int>, b: seq<int>, c: seq<int>)
    requires Prefix(a, b) && Prefix(b, c)
    ensures Prefix(a, c)
  {
    assert c[..|a|] == c[..|b|][..|a|];
  }

  /** Two beginnings of one list. */
  lemma Comparable(a: seq<int>, b: seq<int>, c: seq<int>)
    requires Prefix(a, c) && Prefix(b, c)
    ensures |a| <= |b| ==> Prefix(a, b)
  {
    if |a| <= |b| {
      assert c[..|b|][..|a|] == c[..|a|];
    }
  }

  lemma {:induction false} AddAllHas(s: seq<int>, t: seq<int>)
    ensures Prefix(s, AddAll(s, t)) && forall x :: x in AddAll(s, t) <==> x in s || x in t
    ensures NoDup(s) ==> NoDup(AddAll(s, t))
    decreases |t|
  {
    if t == [] {
      assert s[..|s|] == s;
    } else {
      var u := SetAdd(s, t[0]);
      AddAllHas(u, t[1..]);
      assert Prefix(s, u);
      PrefixTrans(s, u, AddAll(s, t));
      assert t == [t[0]] + t[1..];
    }
  }

  lemma {:induction false} AddPlus(s: seq<int>, a: seq<int>, b: seq<int>)
    ensures AddAll(s, a + b) == AddAll(AddAll(s, a), b)
    decreases |a|
  {
    if a == [] {
      assert a + b == b;
    } else {
      assert (a + b)[1..] == a[1..] + b;
      AddPlus(SetAdd(s, a[0]), a[1..], b);
    }
  }

  lemma {:induction false} Absorb(s: seq<int>, t: seq<int>)
    requires forall x :: x in t ==> x in s
    ensures AddAll(s, t) == s
    decreases |t|
  {
    if t != [] {
      assert t[0] in t;
      Absorb(s, t[1..]);
    }
  }

  lemma {:induction false} AddAssoc(s: seq<int>, a: seq<int>, b: seq<int>)
    ensures AddAll(s, AddAll(a, b)) == AddAll(AddAll(s, a), b)
    decreases |b|
  {
    if b != [] {
      var a1 := SetAdd(a, b[0]);
      AddAssoc(s, a1, b[1..]);
      AddAllHas(s, a);
      if b[0] !in a {
        AddPlus(s, a, [b[0]]);
        assert [b[0]][1..] == [];
        assert AddAll(AddAll(s, a), [b[0]]) == AddAll(SetAdd(AddAll(s, a), b[0]), []);
      }
    }
  }

  lemma {:induction false} AddToNone(t: seq<int>)
    requires NoDup(t)
    ensures AddAll([], t) == t
  {
    AddAllIs([], t);
    WithoutNone(t, Elements([]));
    assert [] + t == t;
  }

  /** A join that is taken up in the middle. */
  lemma {:induction false} Resume(w: seq<int>, x: seq<int>, n: seq<int>)
    requires Prefix(w, n) && Prefix(n, AddAll(w, x))
    ensures AddAll(n, x) == AddAll(w, x)
    decreases |x|
  {
    if x != [] {
      var w1 := SetAdd(w, x[0]);
      AddAllHas(w1, x[1..]);
      if |w1| <= |n| {
        Comparable(w1, n, AddAll(w, x));
        assert x[0] in w1;
        Has(w1, n, x[0]);
        Resume(w1, x[1..], n);
      } else {
        assert n == w;
      }
    } else {
      assert n == w;
    }
  }

  lemma Has(a: seq<int>, b: seq<int>, x: int)
    requires Prefix(a, b) && x in a
    ensures x in b
  {
    var i :| 0 <= i < |a| && a[i] == x;
    assert b[i] == b[..|a|][i];
  }

  // ---- joins with two things in them that may be either ----

  datatype Block = Lit(list: seq<int>) | Old | New

  function Listed(b: Block, x: seq<int>, y: seq<int>): seq<int> {
    match b
    case Lit(l) => l
    case Old => x
    case New => y
  }

  /** The blocks joined to s, x for Old and y for New. */
  function Run(s: seq<int>, w: seq<Block>, x: seq<int>, y: seq<int>): seq<int>
    decreases |w|
  {
    if w == [] then s else Run(AddAll(s, Listed(w[0], x, y)), w[1..], x, y)
  }

  lemma {:induction false} RunPrefix(s: seq<int>, w: seq<Block>, x: seq<int>, y: seq<int>)
    ensures Prefix(s, Run(s, w, x, y))
    decreases |w|
  {
    if w == [] {
      assert s[..|s|] == s;
    } else {
      var u := AddAll(s, Listed(w[0], x, y));
      RunPrefix(u, w[1..], x, y);
      AddAllHas(s, Listed(w[0], x, y));
      PrefixTrans(s, u, Run(s, w, x, y));
    }
  }

  lemma {:induction false} RunPlus(s: seq<int>, v: seq<Block>, w: seq<Block>, x: seq<int>, y: seq<int>)
    ensures Run(s, v + w, x, y) == Run(Run(s, v, x, y), w, x, y)
    decreases |v|
  {
    if v == [] {
      assert v + w == w;
    } else {
      assert (v + w)[1..] == v[1..] + w;
      RunPlus(AddAll(s, Listed(v[0], x, y)), v[1..], w, x, y);
    }
  }

  lemma {:induction false} RunFrom(s: seq<int>, w: seq<Block>, x: seq<int>, y: seq<int>)
    ensures Run(s, w, x, y) == AddAll(s, Run([], w, x, y))
    decreases |w|
  {
    if w != [] {
      var b := Listed(w[0], x, y);
      var b' := AddAll([], b);
      RunFrom(AddAll(s, b), w[1..], x, y);
      RunFrom(b', w[1..], x, y);
      AddAssoc(s, b', Run([], w[1..], x, y));
      AddAssoc(s, [], b);
    }
  }

  function Retagged(w: seq<Block>): (r: seq<Block>)
    ensures |r| == |w|
  {
    if w == [] then [] else [if w[0].Old? then New else w[0]] + Retagged(w[1..])
  }

  predicate OnlyOld(w: seq<Block>) {
    forall i :: 0 <= i < |w| ==> !w[i].New?
  }

  lemma {:induction false} RunRetagged(s: seq<int>, w: seq<Block>, x: seq<int>, y: seq<int>)
    requires OnlyOld(w)
    ensures Run(s, Retagged(w), x, y) == Run(s, w, y, y)
    decreases |w|
  {
    if w != [] {
      assert Retagged(w)[1..] == Retagged(w[1..]);
      RunRetagged(AddAll(s, Listed(w[0], y, y)), w[1..], x, y);
    }
  }

  /** What one of the two adds to a join that has had the other. */
  lemma HalfStep(w0: seq<int>, x: seq<int>, y: seq<int>, w1: seq<int>, end: seq<int>)
    requires Prefix(AddAll(AddAll(w0, x), w1), end) && Prefix(AddAll(AddAll(w0, y), w1), end)
    ensures var o, n := AddAll(AddAll(w0, x), w1), AddAll(AddAll(w0, y), w1);
            AddAll(n, x) == n || AddAll(n, x) == o
  {
    hide AddAll;
    var a, b := AddAll(w0, x), AddAll(w0, y);
    var o, n := AddAll(a, w1), AddAll(b, w1);
    AddAllHas(w0, x);
    AddAllHas(w0, y);
    AddAllHas(a, w1);
    AddAllHas(b, w1);
    PrefixTrans(a, o, end);
    Comparable(a, n, end);
    Comparable(n, a, end);
    if |a| <= |n| {
      forall z | z in x ensures z in n {
        assert z in a;
        Has(a, n, z);
      }
      Absorb(n, x);
    } else {
      forall z | z in w1 ensures z in a {
        assert z in n;
        Has(n, a, z);
      }
      Absorb(a, w1);
      PrefixTrans(w0, b, n);
      Resume(w0, x, n);
    }
  }

  /** If all old and all new give the same, so does every mixture: once something has been chosen. */
  lemma {:induction false} MixedOn(w: seq<Block>, x: seq<int>, y: seq<int>, w0: seq<int>, w1: seq<int>, h: seq<int>)
    requires var o, n := AddAll(AddAll(w0, x), w1), AddAll(AddAll(w0, y), w1);
             (h == o || h == n) && Run(o, w, x, x) == Run(n, w, y, y)
    ensures Run(h, w, x, y) == Run(AddAll(AddAll(w0, x), w1), w, x, x)
    decreases |w|
  {
    var o, n := AddAll(AddAll(w0, x), w1), AddAll(AddAll(w0, y), w1);
    if w != [] {
      RunPrefix(o, w, x, x);
      RunPrefix(n, w, y, y);
      MixedStep(w[0], x, y, w0, w1, h, Run(o, w, x, x));
      var w1' := if w[0].Lit? then AddAll(w1, w[0].list) else w1;
      MixedOn(w[1..], x, y, w0, w1', AddAll(h, Listed(w[0], x, y)));
    }
  }

  lemma MixedStep(b: Block, x: seq<int>, y: seq<int>, w0: seq<int>, w1: seq<int>, h: seq<int>, end: seq<int>)
    requires var o, n := AddAll(AddAll(w0, x), w1), AddAll(AddAll(w0, y), w1);
             (h == o || h == n) && Prefix(o, end) && Prefix(n, end)
    ensures var o, n := AddAll(AddAll(w0, x), w1), AddAll(AddAll(w0, y), w1);
            var w1' := if b.Lit? then AddAll(w1, b.list) else w1;
            var o', n', h' := AddAll(AddAll(w0, x), w1'), AddAll(AddAll(w0, y), w1'), AddAll(h, Listed(b, x, y));
            o' == AddAll(o, Listed(b, x, x)) && n' == AddAll(n, Listed(b, y, y)) && (h' == o' || h' == n')
  {
    hide AddAll;
    var a, c := AddAll(w0, x), AddAll(w0, y);
    var o, n := AddAll(a, w1), AddAll(c, w1);
    AddAllHas(w0, x);
    AddAllHas(w0, y);
    AddAllHas(a, w1);
    AddAllHas(c, w1);
    match b {
      case Lit(l) =>
        AddAssoc(a, w1, l);
        AddAssoc(c, w1, l);
      case _ =>
        Absorb(o, x);
        Absorb(n, y);
        HalfStep(w0, x, y, w1, end);
        HalfStep(w0, y, x, w1, end);
    }
  }

  /** If all old and all new give the same, so does every mixture. */
  lemma {:induction false} Mixed(w: seq<Block>, x: seq<int>, y: seq<int>, s: seq<int>)
    requires Run(s, w, x, x) == Run(s, w, y, y)
    ensures Run(s, w, x, y) == Run(s, w, x, x)
    decreases |w|
  {
    if w != [] {
      match w[0] {
        case Lit(l) => Mixed(w[1..], x, y, AddAll(s, l));
        case _ =>
          assert AddAll(AddAll(s, x), []) == AddAll(s, x) && AddAll(AddAll(s, y), []) == AddAll(s, y);
          MixedOn(w[1..], x, y, s, [], AddAll(s, Listed(w[0], x, y)));
      }
    }
  }

  // ---- the objects of a list that define properties ----

  function Definers(defs: Defs, s: seq<int>): seq<int> {
    if s == [] then [] else (if Len(defs, s[0]) > 0 then [s[0]] else []) + Definers(defs, s[1..])
  }

  lemma {:induction false} DefinersHas(defs: Defs, s: seq<int>)
    ensures forall x :: x in Definers(defs, s) <==> x in s && Len(defs, x) > 0
    ensures NoDup(s) ==> NoDup(Definers(defs, s))
    decreases |s|
  {
    if s != [] {
      DefinersHas(defs, s[1..]);
      assert s == [s[0]] + s[1..];
    }
  }

  lemma {:induction false} DefinersPlus(defs: Defs, a: seq<int>, b: seq<int>)
    ensures Definers(defs, a + b) == Definers(defs, a) + Definers(defs, b)
    decreases |a|
  {
    if a == [] {
      assert a + b == b && [] + Definers(defs, b) == Definers(defs, b);
    } else {
      assert (a + b)[1..] == a[1..] + b;
      DefinersPlus(defs, a[1..], b);
    }
  }

  lemma DefinersOne(defs: Defs, x: int)
    ensures Definers(defs, [x]) == if Len(defs, x) > 0 then [x] else []
  {
    assert [x][1..] == [];
    assert Definers(defs, []) == [];
  }

  lemma {:induction false} DefinersAdd(defs: Defs, s: seq<int>, t: seq<int>)
    ensures Definers(defs, AddAll(s, t)) == AddAll(Definers(defs, s), Definers(defs, t))
    decreases |t|
  {
    if t != [] {
      var u := SetAdd(s, t[0]);
      DefinersAdd(defs, u, t[1..]);
      DefinersHas(defs, s);
      DefinersOne(defs, t[0]);
      DefinersPlus(defs, s, [t[0]]);
      var rest := Definers(defs, t[1..]);
      if Len(defs, t[0]) > 0 {
        assert ([t[0]] + rest)[1..] == rest;
        assert Definers(defs, u) == SetAdd(Definers(defs, s), t[0]);
      } else {
        assert [] + rest == rest;
        assert Definers(defs, s) + [] == Definers(defs, s);
      }
    }
  }

  lemma {:induction false} TotalOfDefiners(defs: Defs, s: seq<int>)
    ensures Total(defs, s) == Total(defs, Definers(defs, s))
    decreases |s|
  {
    if s != [] {
      TotalOfDefiners(defs, s[1..]);
      if Len(defs, s[0]) > 0 {
        assert ([s[0]] + Definers(defs, s[1..]))[1..] == Definers(defs, s[1..]);
      } else {
        assert [] + Definers(defs, s[1..]) == Definers(defs, s[1..]);
      }
    }
  }

  lemma {:induction false} OffsetOfDefiners(defs: Defs, s: seq<int>, a: int)
    requires Len(defs, a) > 0
    ensures Offset(defs, s, a) == Offset(defs, Definers(defs, s), a)
    decreases |s|
  {
    if s != [] {
      OffsetOfDefiners(defs, s[1..], a);
      if Len(defs, s[0]) > 0 {
        assert ([s[0]] + Definers(defs, s[1..]))[1..] == Definers(defs, s[1..]);
      } else {
        assert [] + Definers(defs, s[1..]) == Definers(defs, s[1..]);
      }
    }
  }

  /** Values are laid out alike by lists with the same definers. */
  lemma SameDefiners(defs: Defs, s: seq<int>, t: seq<int>)
    requires Definers(defs, s) == Definers(defs, t)
    ensures Total(defs, s) == Total(defs, t)
    ensures forall a :: Len(defs, a) > 0 ==> (a in s <==> a in t) && Offset(defs, s, a) == Offset(defs, t, a)
  {
    TotalOfDefiners(defs, s);
    TotalOfDefiners(defs, t);
    DefinersHas(defs, s);
    DefinersHas(defs, t);
    forall a | Len(defs, a) > 0 ensures (a in s <==> a in t) && Offset(defs, s, a) == Offset(defs, t, a) {
      OffsetOfDefiners(defs, s, a);
      OffsetOfDefiners(defs, t, a);
      assert a in s <==> a in Definers(defs, s);
    }
  }

  lemma {:induction false} SameRelaid(defs: Defs, was: seq<int>, older: seq<int>, now: seq<int>, before: seq<Pval>,
      after: seq<Pval>)
    requires Relaid(defs, was, now, before, after) && Definers(defs, was) == Definers(defs, older)
    ensures Relaid(defs, older, now, before, after)
  {
    hide Definers, Total, Offset;
    SameDefiners(defs, was, older);
    forall a, j: nat | a in now && j < Len(defs, a) ensures RelaidSlot(defs, older, now, before, after, a, j) {
      assert RelaidSlot(defs, was, now, before, after, a, j);
    }
  }

  /** Laying out again what is laid out already changes nothing. */
  lemma {:induction false} RelaidAgain(defs: Defs, was: seq<int>, now: seq<int>, before: seq<Pval>, after: seq<Pval>)
    requires NoDup(now) && Relaid(defs, was, now, before, after) && Definers(defs, was) == Definers(defs, now)
    ensures after == before
  {
    hide Definers, Total, Offset;
    SameDefiners(defs, was, now);
    forall k | 0 <= k < |after| ensures after[k] == before[k] {
      var a, j := SlotOf(defs, now, k);
      assert RelaidSlot(defs, was, now, before, after, a, j);
    }
  }

  // ---- totals compare sets of definers ----

  lemma {:induction false} SplitAt(s: seq<int>, a: int) returns (i: nat)
    requires NoDup(s) && a in s
    ensures i < |s| && s[i] == a && NoDup(s[..i] + s[i + 1..])
        && forall x :: x in s[..i] + s[i + 1..] <==> x in s && x != a
  {
    i :| 0 <= i < |s| && s[i] == a;
    var r := s[..i] + s[i + 1..];
    forall x ensures x in r <==> x in s && x != a {
      if x in s && x != a {
        var k :| 0 <= k < |s| && s[k] == x;
        assert x == r[if k < i then k else k - 1];
      }
      if x in r {
        var k :| 0 <= k < |r| && r[k] == x;
        assert x == s[if k < i then k else k + 1];
      }
    }
  }

  lemma TotalWithout(defs: Defs, s: seq<int>, i: nat)
    requires i < |s|
    ensures Total(defs, s) == Len(defs, s[i]) + Total(defs, s[..i] + s[i + 1..])
  {
    TotalPlus(defs, s[..i], s[i..]);
    assert s[..i] + s[i..] == s && s[i..][1..] == s[i + 1..];
    TotalPlus(defs, s[..i], s[i + 1..]);
  }

  lemma {:induction false} TotalsCompare(defs: Defs, s: seq<int>, t: seq<int>)
    requires NoDup(s) && NoDup(t) && forall a :: a in s && Len(defs, a) > 0 ==> a in t
    ensures Total(defs, s) <= Total(defs, t)
    ensures Total(defs, s) == Total(defs, t) ==> forall a :: a in t && Len(defs, a) > 0 ==> a in s
    decreases |s|
  {
    if s == [] {
      if Total(defs, t) == 0 {
        NothingDefined(defs, t);
      }
    } else {
      var a := s[0];
      assert a in s && s == [a] + s[1..];
      if Len(defs, a) == 0 {
        TotalsCompare(defs, s[1..], t);
      } else {
        var i := SplitAt(t, a);
        var r := t[..i] + t[i + 1..];
        TotalWithout(defs, t, i);
        assert forall k :: 0 < k < |s| ==> s[k] != a;
        TotalsCompare(defs, s[1..], r);
      }
    }
  }

  lemma {:induction false} NothingDefined(defs: Defs, t: seq<int>)
    requires Total(defs, t) == 0
    ensures forall a :: a in t ==> Len(defs, a) == 0
    decreases |t|
  {
    if t != [] {
      NothingDefined(defs, t[1..]);
      assert t == [t[0]] + t[1..];
    }
  }
}
