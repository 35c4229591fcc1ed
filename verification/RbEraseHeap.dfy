/** The steps of rberase in memory. */
module RbEraseHeap {
  import opened RbTree
  import opened RbErase
  import opened RbHeap

  // ---- the red child comes up ----

  lemma LiftApart(p: Path, t: Tree, dir: bool)
    requires t.N? && Child(t, !dir).N? && DistinctPath(p) && Distinct(t) && PathAddrs(p) !! Addrs(t)
    ensures DistinctPath(Lifted(p, t, dir)) && Distinct(Child(t, dir))
        && PathAddrs(Lifted(p, t, dir)) !! Addrs(Child(t, dir))
  {
    var s, q := Child(t, !dir), Lifted(p, t, dir);
    assert Distinct(s);
    assert Addrs(s) == {s.at} + Addrs(Child(s, dir)) + Addrs(Child(s, !dir));
    assert Addrs(t) == {t.at} + Addrs(Child(t, dir)) + Addrs(s);
    assert DistinctPath(q.up);
    assert PathAddrs(q) == {t.at} + Addrs(Child(s, dir)) + PathAddrs(q.up);
  }

  lemma LiftPlaces(h: Heap, p: Path, t: Tree, dir: bool)
    requires Zip(h, p, t) && t.N? && Child(t, !dir).N?
    ensures var s := Child(t, !dir);
            && t.at in h && s.at in h && t.at != s.at && h[t.at] == CellOf(t) && h[s.at] == CellOf(s)
              && Link(h[t.at], !dir) == s.at
            && t.at > HEAD && s.at > HEAD && Above(p) in h && Above(p) != t.at && Above(p) != s.at
            && InPath(h, p, t.at) && DistinctPath(p) && In(h, Child(s, dir)) && In(h, Child(s, !dir))
              && In(h, Child(t, dir))
            && {t.at, s.at} !! PathAddrs(p) && {t.at, s.at, Above(p)} !! Addrs(Child(s, dir))
            && {t.at, s.at, Above(p)} !! Addrs(Child(s, !dir)) && {t.at, s.at, Above(p)} !! Addrs(Child(t, dir))
  {
    var s := Child(t, !dir);
    assert In(h, s) && Distinct(s) && In(h, Child(t, dir));
    PathInHeap(h, p, t.at);
    InNotHead(h, t);
  }

  lemma LiftCells(h: Heap, p: Path, t: Tree, dir: bool)
    requires t.N? && Child(t, !dir).N?
    requires var s := Child(t, !dir);
             && t.at in h && s.at in h && t.at != s.at && h[t.at] == CellOf(t) && h[s.at] == CellOf(s)
             && Above(p) in h && Above(p) != t.at && Above(p) != s.at
    ensures var s, q := Child(t, !dir), Lifted(p, t, dir);
            && Link(h[t.at], !dir) == s.at
            && var g := SetLink(Single(h, t.at, dir), Above(p), Side(p), s.at);
               && Only(h, g, {t.at, s.at, Above(p)}) && Above(p) in g
                 && g[Above(p)] == WithLink(h[Above(p)], Side(p), s.at)
               && t.at in g && s.at in g && g[t.at] == FrameCell(q, Root(Child(t, dir)))
                 && g[s.at] == FrameCell(q.up, t.at)
  {
    SingleIs(h, t.at, dir);
  }

  lemma LiftZip(h: Heap, p: Path, t: Tree, dir: bool)
    requires Zip(h, p, t) && t.N? && Child(t, !dir).N?
    ensures var s := Child(t, !dir);
            && t.at in h && Link(h[t.at], !dir) == s.at && s.at in h && Above(p) in h
            && Zip(SetLink(Single(h, t.at, dir), Above(p), Side(p), s.at), Lifted(p, t, dir), Child(t, dir))
  {
    hide Distinct, DistinctPath, Single, Addrs, PathAddrs, Only, SetLink, FrameCell, Agree;
    var s := Child(t, !dir);
    LiftPlaces(h, p, t, dir);
    LiftApart(p, t, dir);
    LiftCells(h, p, t, dir);
    var g, cut := SetLink(Single(h, t.at, dir), Above(p), Side(p), s.at), {t.at, s.at, Above(p)};
    UpRelink(h, g, p, t.at, s.at, cut);
    OnlyAgree(h, g, cut, Addrs(Child(s, dir)));
    OnlyAgree(h, g, cut, Addrs(Child(s, !dir)));
    OnlyAgree(h, g, cut, Addrs(Child(t, dir)));
    InAgree(h, g, Child(s, dir));
    InAgree(h, g, Child(s, !dir));
    InAgree(h, g, Child(t, dir));
    var q := Lifted(p, t, dir);
    assert InPath(g, q.up, t.at);
    assert InPath(g, q, Root(Child(t, dir)));
  }

  // ---- the sibling helps ----

  /** Where the node, its parent and its sibling are. */
  lemma SiblingPlaces(h: Heap, p: Path, t: Tree)
    requires Zip(h, p, t) && t.N? && p.Step? && p.other.N?
    ensures var s, up := p.other, p.up;
            && t.at in h && s.at in h && p.at in h && Above(up) in h && t.at > HEAD && s.at > HEAD && p.at > HEAD
            && t.at != s.at && t.at != p.at && s.at != p.at && Above(up) != t.at && Above(up) != s.at
              && Above(up) != p.at
            && h[t.at] == CellOf(t) && h[s.at] == CellOf(s) && h[p.at] == FrameCell(p, t.at)
            && InPath(h, up, p.at) && DistinctPath(up) && In(h, s.left) && In(h, s.right) && In(h, t.left)
              && In(h, t.right)
    ensures var s, cut := p.other, {t.at, p.other.at, p.at, Above(p.up)};
            && {t.at, s.at, p.at} !! PathAddrs(p.up) && cut !! Addrs(s.left) && cut !! Addrs(s.right)
            && cut !! Addrs(t.left) && cut !! Addrs(t.right)
  {
    assert In(h, p.other) && Distinct(p.other) && InPath(h, p.up, p.at) && DistinctPath(p.up);
    assert In(h, t.left) && In(h, t.right);
    PathInHeap(h, p.up, p.at);
    InNotHead(h, t);
    InNotHead(h, p.other);
  }

  function FlipHeapE(h: Heap, p: nat, s: nat, q: nat): Heap
    requires p in h && s in h && q in h
  {
    SetRed(SetRed(SetRed(h, p, false), s, true), q, true)
  }

  lemma FlipZipE(h: Heap, p: Path, t: Tree)
    requires Zip(h, p, t) && t.N? && p.Step? && p.other.N?
    ensures p.at in h && p.other.at in h && t.at in h
    ensures Zip(FlipHeapE(h, p.at, p.other.at, t.at), FlippedPath(p), t.(red := true))
  {
    var s := p.other;
    SiblingPlaces(h, p, t);
    var g, cut := FlipHeapE(h, p.at, s.at, t.at), {t.at, s.at, p.at, Above(p.up)};
    assert Only(h, g, {t.at, s.at, p.at});
    assert g[p.at] == h[p.at].(red := false) && g[s.at] == h[s.at].(red := true) && g[t.at] == h[t.at].(red := true);
    assert Addrs(s.(red := true)) == Addrs(s) && Addrs(t.(red := true)) == Addrs(t);
    FlipApart(p, t);
    hide Distinct, DistinctPath, Addrs, PathAddrs, FlipHeapE;
    InAgree(h, g, s.left);
    InAgree(h, g, s.right);
    InAgree(h, g, t.left);
    InAgree(h, g, t.right);
    PathAgree(h, g, p.up, p.at);
  }

  lemma FlipApart(p: Path, t: Tree)
    requires p.Step? && p.other.N? && t.N? && DistinctPath(p) && Distinct(t) && PathAddrs(p) !! Addrs(t)
    ensures var q, r := FlippedPath(p), t.(red := true);
            DistinctPath(q) && Distinct(r) && PathAddrs(q) !! Addrs(r)
  {
    var s := p.other.(red := true);
    assert Addrs(s) == Addrs(p.other) && Distinct(s);
  }

  /** q and the new top of the subtree red, the top's children black. */
  function Recolour(h: Heap, q: nat, top: nat): Heap
    requires q in h && top in h && Link(h[top], false) in h && Link(h[top], true) in h
  {
    var h1 := SetRed(SetRed(h, q, true), top, true);
    SetRed(SetRed(h1, Link(h[top], false), false), Link(h[top], true), false)
  }

  // ---- one rotation at the parent ----

  lemma SingleApartE(p: Path, t: Tree)
    requires p.Step? && p.other.N? && Child(p.other, !p.dir).N? && t.N? && DistinctPath(p) && Distinct(t)
        && PathAddrs(p) !! Addrs(t)
    ensures var q, r := SinglePathE(p), t.(red := true);
            DistinctPath(q) && Distinct(r) && PathAddrs(q) !! Addrs(r)
  {
    var s, q, x := p.other, SinglePathE(p), Child(p.other, !p.dir);
    assert Distinct(s) && Distinct(x);
    assert Addrs(x.(red := false)) == Addrs(x) && Distinct(x.(red := false));
    assert Addrs(s) == {s.at} + Addrs(Child(s, p.dir)) + Addrs(x);
    assert DistinctPath(q.up);
    assert PathAddrs(q) == PathAddrs(p);
  }

  lemma RecolourCells(h: Heap, q: nat, top: nat, a: nat, b: nat)
    requires q in h && top in h && a in h && b in h && Link(h[top], false) == a && Link(h[top], true) == b
    requires q != top && q != a && q != b && top != a && top != b && a != b
    ensures var g := Recolour(h, q, top);
            && g.Keys == h.Keys && Only(h, g, {q, top, a, b}) && g[q] == h[q].(red := true)
              && g[top] == h[top].(red := true)
            && g[a] == h[a].(red := false) && g[b] == h[b].(red := false)
  {
  }

  /** A child of the sibling. */
  lemma NephewPlaces(h: Heap, p: Path, t: Tree, d: bool)
    requires Zip(h, p, t) && t.N? && p.Step? && p.other.N? && Child(p.other, d).N?
    ensures var x, cut := Child(p.other, d), {t.at, p.at, p.other.at, Above(p.up)};
            && x.at in h && h[x.at] == CellOf(x) && In(h, x.left) && In(h, x.right) && x.at > HEAD && x.at !in cut
            && x.at !in PathAddrs(p.up) && x.at !in Addrs(t.left) && x.at !in Addrs(t.right) && x.at !in Addrs(x.left)
              && x.at !in Addrs(x.right)
            && x.at !in Addrs(Child(p.other, !d)) && cut !! Addrs(x.left) && cut !! Addrs(x.right)
  {
    SiblingPlaces(h, p, t);
    var x := Child(p.other, d);
    assert Distinct(p.other);
    assert In(h, x) && Distinct(x) && x.at in Addrs(x) && Addrs(x) <= Addrs(p.other);
    PathInHeap(h, p.up, p.at);
    assert Above(p.up) in PathAddrs(p.up);
    assert Addrs(p.other) !! PathAddrs(p.up);
  }

  /** The cells after the rotation, before the colours are put right. */
  lemma SingleCellsE(h: Heap, p: Path, t: Tree)
    requires p.Step? && p.other.N? && t.N?
    requires var s, up := p.other, p.up;
             && s.at in h && p.at in h && Above(up) in h && s.at != p.at && Above(up) != s.at && Above(up) != p.at
             && h[s.at] == CellOf(s) && h[p.at] == FrameCell(p, t.at)
    ensures var s, up, last := p.other, p.up, p.dir;
            && Link(h[p.at], !last) == s.at
            && var g := SetLink(Single(h, p.at, last), Above(up), Side(up), s.at);
               && g.Keys == h.Keys && Only(h, g, {s.at, p.at, Above(up)})
                 && g[Above(up)] == WithLink(h[Above(up)], Side(up), s.at)
               && g[p.at] == FrameCell(p.(red := true, other := Child(s, last)), t.at)
               && g[s.at] == WithLink(CellOf(s), last, p.at).(red := false)
               && Link(g[s.at], last) == p.at && Link(g[s.at], !last) == Root(Child(s, !last))
  {
    SingleIs(h, p.at, p.dir);
  }

  lemma SingleZipE(h: Heap, p: Path, t: Tree)
    requires Zip(h, p, t) && t.N? && p.Step? && p.other.N? && Child(p.other, !p.dir).N?
    ensures var s, last, up := p.other, p.dir, p.up;
            && p.at in h && Link(h[p.at], !last) == s.at && s.at in h && Above(up) in h
            && var h1 := SetLink(Single(h, p.at, last), Above(up), Side(up), s.at);
               && t.at in h1 && s.at in h1 && Link(h1[s.at], false) in h1 && Link(h1[s.at], true) in h1
               && Zip(Recolour(h1, t.at, s.at), SinglePathE(p), t.(red := true))
  {
    hide Distinct, DistinctPath, Single, Addrs, PathAddrs, SetLink, Agree, Recolour;
    var s, x, last, up := p.other, Child(p.other, !p.dir), p.dir, p.up;
    SiblingPlaces(h, p, t);
    NephewPlaces(h, p, t, !last);
    SingleApartE(p, t);
    SingleCellsE(h, p, t);
    var h1 := SetLink(Single(h, p.at, last), Above(up), Side(up), s.at);
    RecolourCells(h1, t.at, s.at, Link(h1[s.at], false), Link(h1[s.at], true));
    var g := Recolour(h1, t.at, s.at);
    var cut := {t.at, s.at, p.at, x.at, Above(up)};
    assert Only(h, g, cut);
    UpRelink(h, g, up, p.at, s.at, cut);
    AllAgree(h, g, cut, t.left, t.right);
    AllAgree(h, g, cut, x.left, x.right);
    AllAgree(h, g, cut, Child(s, last), Child(s, last));
    var q := SinglePathE(p);
    assert In(g, q.up.other);
    assert InPath(g, q.up, p.at);
    assert InPath(g, q, t.at);
  }

  lemma AllAgree(h: Heap, g: Heap, cut: set<nat>, a: Tree, b: Tree)
    requires Only(h, g, cut) && cut !! Addrs(a) && cut !! Addrs(b) && In(h, a) && In(h, b)
    ensures In(g, a) && In(g, b)
  {
    InAgree(h, g, a);
    InAgree(h, g, b);
  }

  // ---- two rotations at the parent ----

  lemma DoubleApartE(p: Path, t: Tree)
    requires p.Step? && p.other.N? && Child(p.other, p.dir).N? && t.N? && DistinctPath(p) && Distinct(t)
        && PathAddrs(p) !! Addrs(t)
    ensures var q, r := DoublePathE(p), t.(red := true);
            DistinctPath(q) && Distinct(r) && PathAddrs(q) !! Addrs(r)
  {
    var s, last, q := p.other, p.dir, DoublePathE(p);
    var x := Child(s, last);
    assert Distinct(s) && Distinct(x);
    assert Addrs(x) == {x.at} + Addrs(Child(x, last)) + Addrs(Child(x, !last));
    assert Addrs(s) == {s.at} + Addrs(x) + Addrs(Child(s, !last));
    assert Addrs(q.up.other) == {s.at} + Addrs(Child(x, !last)) + Addrs(Child(s, !last)) && Distinct(q.up.other);
    assert DistinctPath(q.up);
    assert PathAddrs(q) == PathAddrs(p);
  }

  lemma DoubleCellsE(h: Heap, p: Path, t: Tree)
    requires p.Step? && p.other.N? && t.N? && Child(p.other, p.dir).N?
    requires var s, up, x := p.other, p.up, Child(p.other, p.dir);
             && s.at in h && p.at in h && Above(up) in h && s.at != p.at && Above(up) != s.at && Above(up) != p.at
             && x.at in h && x.at != s.at && x.at != p.at && x.at != Above(up)
             && h[s.at] == CellOf(s) && h[p.at] == FrameCell(p, t.at) && h[x.at] == CellOf(x)
    ensures var s, up, last, x := p.other, p.up, p.dir, Child(p.other, p.dir);
            && CanDouble(h, p.at, last) && Link(h[p.at], !last) == s.at && Link(h[s.at], last) == x.at
            && var g := SetLink(Double(h, p.at, last), Above(up), Side(up), x.at);
               && g.Keys == h.Keys && Only(h, g, {s.at, p.at, x.at, Above(up)})
                 && g[Above(up)] == WithLink(h[Above(up)], Side(up), x.at)
               && g[p.at] == FrameCell(p.(red := true, other := Child(x, last)), t.at)
               && g[s.at] == WithLink(CellOf(s), last, Root(Child(x, !last))).(red := true)
               && g[x.at] == WithLink(WithLink(CellOf(x), !last, s.at), last, p.at).(red := false)
               && Link(g[x.at], last) == p.at && Link(g[x.at], !last) == s.at
  {
    DoubleIs(h, p.at, p.dir);
  }

  lemma DoubleZipE(h: Heap, p: Path, t: Tree)
    requires Zip(h, p, t) && t.N? && p.Step? && p.other.N? && Child(p.other, p.dir).N?
    ensures var s, last, up, x := p.other, p.dir, p.up, Child(p.other, p.dir);
            && CanDouble(h, p.at, last) && Link(h[p.at], !last) == s.at && Link(h[s.at], last) == x.at && Above(up) in h
            && var h1 := SetLink(Double(h, p.at, last), Above(up), Side(up), x.at);
               && t.at in h1 && x.at in h1 && Link(h1[x.at], false) in h1 && Link(h1[x.at], true) in h1
               && Zip(Recolour(h1, t.at, x.at), DoublePathE(p), t.(red := true))
  {
    hide Distinct, DistinctPath, Double, Addrs, PathAddrs, SetLink, Agree, Recolour, CanDouble;
    var s, x, last, up := p.other, Child(p.other, p.dir), p.dir, p.up;
    SiblingPlaces(h, p, t);
    NephewPlaces(h, p, t, last);
    DoubleApartE(p, t);
    DoubleCellsE(h, p, t);
    var h1 := SetLink(Double(h, p.at, last), Above(up), Side(up), x.at);
    RecolourCells(h1, t.at, x.at, Link(h1[x.at], false), Link(h1[x.at], true));
    var g := Recolour(h1, t.at, x.at);
    var cut := {t.at, s.at, p.at, x.at, Above(up)};
    assert Only(h, g, cut);
    UpRelink(h, g, up, p.at, x.at, cut);
    AllAgree(h, g, cut, t.left, t.right);
    AllAgree(h, g, cut, x.left, x.right);
    AllAgree(h, g, cut, Child(s, !last), Child(s, !last));
    var q := DoublePathE(p);
    assert In(g, q.up.other);
    assert InPath(g, q.up, p.at);
    assert InPath(g, q, t.at);
  }

  // ---- taking the last node out ----

  function SetItem(h: Heap, a: nat, item: Pair): (g: Heap)
    requires a in h
    ensures g.Keys == h.Keys
  {
    h[a := h[a].(item := item)]
  }

  lemma {:induction false} SetNextZip(h: Heap, p: Path, child: nat, item: Pair)
    requires InPath(h, p, child) && DistinctPath(p) && NextUp(p).Just?
    ensures NextUp(p).at in PathAddrs(p) && NextUp(p).at in h && NextUp(p).at > HEAD
    ensures InPath(SetItem(h, NextUp(p).at, item), SetNext(p, item), child)
    ensures DistinctPath(SetNext(p, item)) && PathAddrs(SetNext(p, item)) == PathAddrs(p)
    decreases p
  {
    var g := SetItem(h, NextUp(p).at, item) by { NextIn(h, p, child); }
    if p.dir {
      SetNextZip(h, p.up, p.at, item);
      InAgree(h, g, p.other);
    } else {
      InAgree(h, g, p.other);
      PathAgree(h, g, p.up, p.at);
    }
  }

  lemma {:induction false} NextIn(h: Heap, p: Path, child: nat)
    requires InPath(h, p, child) && NextUp(p).Just?
    ensures NextUp(p).at in h
    decreases p
  {
    if p.dir {
      NextIn(h, p.up, p.at);
    }
  }

  /** The node at the end of the path is unlinked, its item having gone to the found node. */
  lemma RemovedZip(h: Heap, p: Path)
    requires Zip(h, p, E) && p.Step? && p.other.E? && NextUp(p).Just?
    ensures NextUp(p).at in h && p.at in h && Above(p.up) in h
    ensures Zip(SetLink(SetItem(h, NextUp(p).at, p.item), Above(p.up), Side(p.up), NIL), Removed(p), E)
  {
    assert InPath(h, p.up, p.at) && DistinctPath(p.up) && p.at !in PathAddrs(p.up);
    PathInHeap(h, p.up, p.at);
    if p.dir {
      SetNextZip(h, p.up, p.at, p.item);
      var h1, up := SetItem(h, NextUp(p).at, p.item), SetNext(p.up, p.item);
      assert Above(up) == Above(p.up) && Side(up) == Side(p.up);
      PathRelink(h1, SetLink(h1, Above(p.up), Side(p.up), NIL), up, p.at, NIL);
    } else {
      var h1 := SetItem(h, p.at, p.item);
      assert h1 == h;
      PathRelink(h, SetLink(h, Above(p.up), Side(p.up), NIL), p.up, p.at, NIL);
    }
  }
}
