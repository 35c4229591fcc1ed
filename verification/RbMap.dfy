/** The map of map.cc: a red-black tree in memory, changed in place. */
module RbMap {
  import opened RbTree
  import opened RbInsert
  import opened RbErase
  import opened RbHeap
  import opened RbEraseHeap

  lemma RedAt(h: Heap, t: Tree)
    requires In(h, t)
    ensures Root(t) != NIL <==> t.N?
    ensures t.N? ==> t.at in h && h[t.at] == CellOf(t) && t.at > HEAD && In(h, t.left) && In(h, t.right)
    ensures Red(t) <==> (Root(t) != NIL && h[Root(t)].red)
  {
  }

  lemma RedAbove(h: Heap, p: Path, child: nat)
    requires InPath(h, p, child)
    ensures p.Step? ==> p.at in h && p.at > HEAD && h[p.at] == FrameCell(p, child) && InPath(h, p.up, p.at)
                        && In(h, p.other)
    ensures Above(p) in h && Link(h[Above(p)], Side(p)) == child
  {
  }

  // ---- the helpers of rbinsert ----

  function ParentOf(p: Path): nat {
    if p.Step? then p.at else NIL
  }

  function GrandOf(p: Path): nat {
    if p.Step? then ParentOf(p.up) else NIL
  }

  function GreatOf(p: Path): nat {
    if p.Step? && p.up.Step? then Above(p.up.up) else HEAD
  }

  predicate Helpers(ph: Phase, path: Path, sub: Tree, t: nat, g: nat, p: nat, q: nat, dir: bool, last: bool) {
    && q == Root(sub) && p == ParentOf(path) && (path.Step? ==> dir == path.dir)
    && (ph == InStep ==> t == GreatOf(path))
    && (ph != StaleAll ==> g == GrandOf(path) && (path.Step? && path.up.Step? ==> last == path.up.dir))
    && (ph != InStep ==> g != NIL)
  }

  /** What is left of the search; it shrinks with every turn. */
  function Rank(ph: Phase, sub: Tree, rank: int): nat {
    if ph == StaleAll && sub.N? then 2 * Size(Child(sub, GoesRight(sub, rank))) + 1 else 2 * Size(sub)
  }

  lemma SingleRotates(h: Heap, r: nat, dir: bool)
    requires r in h && Link(h[r], !dir) in h
    ensures forall t: Tree :: In(h, t) && Distinct(t) && t.N? && t.at == r && Child(t, !dir).N? ==>
              In(Single(h, r, dir), Rotated(t, dir)) && Link(h[r], !dir) == Rotated(t, dir).at
                && Only(h, Single(h, r, dir), Addrs(t))
  {
    hide In, Distinct, Single, Double, Only, Addrs, Rotated, RotatedTwice;
    forall t: Tree | In(h, t) && Distinct(t) && t.N? && t.at == r && Child(t, !dir).N?
      ensures In(Single(h, r, dir), Rotated(t, dir)) && Link(h[r], !dir) == Rotated(t, dir).at
          && Only(h, Single(h, r, dir), Addrs(t))
    {
      SingleTurns(h, t, dir);
    }
  }

  lemma DoubleRotates(h: Heap, r: nat, dir: bool)
    requires CanDouble(h, r, dir)
    ensures forall t: Tree ::
        In(h, t) && Distinct(t) && t.N? && t.at == r && Child(t, !dir).N? && Child(Child(t, !dir), dir).N? ==>
              In(Double(h, r, dir), RotatedTwice(t, dir)) && Link(h[Link(h[r], !dir)], dir) == RotatedTwice(t, dir).at
              && Only(h, Double(h, r, dir), Addrs(t))
  {
    hide In, Distinct, Single, Double, Only, Addrs, Rotated, RotatedTwice;
    forall t: Tree | In(h, t) && Distinct(t) && t.N? && t.at == r && Child(t, !dir).N? && Child(Child(t, !dir), dir).N?
      ensures In(Double(h, r, dir), RotatedTwice(t, dir)) && Link(h[Link(h[r], !dir)], dir) == RotatedTwice(t, dir).at
              && Only(h, Double(h, r, dir), Addrs(t))
    {
      DoubleTurns(h, t, dir);
    }
  }

  class RbMap {
    var heap: Heap
    var root: nat
    var size: nat
    var next: nat
    ghost var tree: Tree

    /** The nodes lie in memory below the next free address. */
    ghost predicate Stored()
      reads this`heap, this`root, this`next, this`tree
    {
      && root == Root(tree) && In(heap, tree) && Distinct(tree) && next > HEAD && (forall a :: a in heap ==> a < next)
    }

    ghost predicate Valid()
      reads this
    {
      Stored() && RedBlack(tree) && Sorted(Items(tree)) && size == |Items(tree)|
    }

    constructor ()
      ensures Valid() && Items(tree) == []
    {
      heap, root, size, next, tree := map[], NIL, 0, HEAD + 1, E;
      assert Bal(E, 0);
    }

    predicate IsRed(a: nat): (r: bool)
      reads this`heap
      requires a != NIL ==> a in heap
      ensures r <==> a != NIL && heap[a].red
    {
      a != NIL && heap[a].red
    }

    method NewNode(item: Pair) returns (a: nat)
      requires next > HEAD && forall b :: b in heap ==> b < next
      modifies this`heap, this`next
      ensures a == old(next) && next == a + 1 && a !in old(heap) && heap == old(heap)[a := Cell(item, true, NIL, NIL)]
      ensures forall b :: b in heap ==> b < next
    {
      a := next;
      heap, next := heap[a := Cell(item, true, NIL, NIL)], next + 1;
    }

    method RbSingle(r: nat, dir: bool) returns (save: nat)
      requires r in heap && Link(heap[r], !dir) in heap
      modifies this`heap
      ensures heap == Single(old(heap), r, dir) && save == Link(old(heap)[r], !dir)
      ensures forall t: Tree :: In(old(heap), t) && Distinct(t) && t.N? && t.at == r && Child(t, !dir).N? ==>
                In(heap, Rotated(t, dir)) && save == Rotated(t, dir).at && Only(old(heap), heap, Addrs(t))
    {
      SingleRotates(heap, r, dir);
      save := Link(heap[r], !dir);
      heap := SetLink(heap, r, !dir, Link(heap[save], dir));
      heap := SetLink(heap, save, dir, r);
      heap := SetRed(heap, r, true);
      heap := SetRed(heap, save, false);
    }

    method RbDouble(r: nat, dir: bool) returns (save: nat)
      requires CanDouble(heap, r, dir)
      modifies this`heap
      ensures heap == Double(old(heap), r, dir) && save == Link(old(heap)[Link(old(heap)[r], !dir)], dir)
      ensures forall t: Tree ::
          In(old(heap), t) && Distinct(t) && t.N? && t.at == r && Child(t, !dir).N? && Child(Child(t, !dir), dir).N? ==>
                In(heap, RotatedTwice(t, dir)) && save == RotatedTwice(t, dir).at && Only(old(heap), heap, Addrs(t))
    {
      hide Single;
      DoubleRotates(heap, r, dir);
      var s := Link(heap[r], !dir);
      SingleIs(heap, s, !dir);
      var x := RbSingle(s, !dir);
      heap := SetLink(heap, r, !dir, x);
      save := RbSingle(r, dir);
    }

    // ---- rbinsert ----

    /** The hard red violation. */
    method Rotate(t: nat, g: nat, p: nat, q: nat, last: bool, ghost path: Path, ghost sub: Tree)
      requires Zip(heap, path, sub) && sub.N? && path.Step? && path.up.Step?
      requires t == GreatOf(path) && g == path.up.at && p == path.at && q == sub.at && last == path.up.dir
      modifies this`heap
      ensures heap.Keys == old(heap).Keys
      ensures path.dir == path.up.dir ==> Zip(heap, SinglePath(path), sub)
      ensures path.dir != path.up.dir ==> Zip(heap, path.up.up, DoubleTree(path, sub))
    {
      hide *;
      ghost var up := path.up.up;
      RotatePlaces(heap, path, sub);
      var dir2 := Link(heap[t], true) == g;
      if q == Link(heap[p], last) {
        SingleZip(heap, path, sub);
        var s := RbSingle(g, !last);
        heap := SetLink(heap, t, dir2, s);
      } else {
        DoubleZip(heap, path, sub);
        var s := RbDouble(g, !last);
        heap := SetLink(heap, t, dir2, s);
      }
    }

    /** Insert the item; the key must not be there yet, since the size grows in any case. */
    method RbInsert(item: Pair)
      requires Valid() && Absent(Items(tree), item.key.rank)
      modifies this
      ensures Valid() && Inserted(old(Items(tree)), item, Items(tree)) && size == old(size) + 1
    {
      hide *;
      ghost var items := Items(tree);
      ValidParts();
      if root == NIL {
        FirstInserted(tree, next, item);
        var at := NewNode(item);
        root := at;
        heap := SetRed(heap, root, false);
        tree := N(at, false, item, E, E);
        FirstStored(old(heap), at, item);
        NowStored();
      } else {
        InsertBelow(item);
      }
      size := size + 1;
      InsertedSorted(items, item, Items(tree));
      NowValid();
    }

    method InsertBelow(item: Pair)
      requires Stored() && tree.N? && RedBlack(tree) && Sorted(Items(tree)) && Absent(Items(tree), item.key.rank)
      modifies this`heap, this`root, this`next, this`tree
      ensures Stored() && RedBlack(tree) && Inserted(old(Items(tree)), item, Items(tree))
    {
      hide *;
      ghost var items, rank := Items(tree), item.key.rank;
      StoredParts();
      heap := heap[HEAD := Cell(item, false, NIL, root)];
      ZipStart(old(heap), heap, tree);
      SearchStart(tree, rank);
      HelpersStart(tree);
      var t, g, p, q, dir, last := HEAD, NIL, NIL, root, false, false;
      ghost var ph, path, sub := InStep, Top, tree;
      var done := false;
      while !done
        invariant Zip(heap, path, sub) && next > HEAD && (forall a :: a in heap ==> a < next)
        invariant !done ==> Searching(ph, path, sub, rank, items) && Helpers(ph, path, sub, t, g, p, q, dir, last)
                            && (sub.N? || path.Step?)
        invariant done ==> Whole(path, sub) && Inserted(items, item, Items(Plug(path, sub)))
        decreases if done then 0 else 1 + Rank(ph, sub, rank)
      {
        ghost var n := next;
        Turned(ph, path, sub, n, item, items);
        HelpersParts(ph, path, sub, t, g, p, q, dir, last);
        Parents(heap, path, sub);
        q := LinkOrFlip(item, p, q, dir, path, sub);
        ghost var s1 := Touched(sub, n, item);
        ReadColours(heap, path, s1);
        if IsRed(q) && IsRed(p) {
          HelpersUp(ph, path, sub, t, g, p, dir, last);
          Rotate(t, g, p, q, last, path, s1);
        }
        ghost var p2, s2 := RotatedPath(path, s1), RotatedTree(path, s1);
        RotatedIs(path, s1);
        RedAtRoot(heap, p2, s2);
        if heap[q].item.key.rank == item.key.rank {
          done, path, sub := true, p2, s2;
        } else {
          ghost var now := GoesRight(s2, rank);
          GoesIs(s2, rank);
          TouchedIs(sub, n, item);
          HelpersNext(ph, path, sub, n, item, t, g, p, dir, last, heap, items);
          ZipDown(heap, p2, s2, now);
          ChildAt(heap, p2, s2, now);
          last, dir := dir, heap[q].item.key.rank < item.key.rank;
          if g != NIL {
            t := g;
          }
          g, p, q := p, q, Link(heap[q], dir);
          ph, path, sub := NextPhase(ph, path, sub), Down(s2, now, p2), Child(s2, now);
        }
      }
      ZipWhole(heap, path, sub);
      WholeIsRedBlack(path, sub);
      WholeThere(items, item, heap, Plug(path, sub));
      root := heap[HEAD].right;
      BlackenStored(heap, Plug(path, sub));
      heap := SetRed(heap, root, false);
      tree := Blackened(Plug(path, sub));
      NowStored();
    }

    /** A new node at the first empty link, or a colour flip. */
    method LinkOrFlip(item: Pair, p: nat, q: nat, dir: bool, ghost path: Path, ghost sub: Tree) returns (r: nat)
      requires Zip(heap, path, sub) && next > HEAD && (forall a :: a in heap ==> a < next) && q == Root(sub)
          && p == ParentOf(path)
      requires (path.Step? ==> dir == path.dir) && (sub.N? || path.Step?)
      modifies this`heap, this`next
      ensures var s1 := Touched(sub, old(next), item); Zip(heap, path, s1) && s1.N? && r == s1.at
      ensures next > HEAD && forall a :: a in heap ==> a < next
    {
      hide *;
      TouchedIs(sub, next, item);
      ReadNode(heap, path, sub);
      if q == NIL {
        LeafZip(heap, path, next, item) by { Fresh(heap, next); Floor(next); }
        AboveIs(path);
        r := NewNode(item);
        heap := SetLink(heap, p, dir, r);
      } else {
        r := q;
        if IsRed(Link(heap[q], false)) && IsRed(Link(heap[q], true)) {
          FlipZip(heap, path, sub);
          FlipHeapIs(heap, sub);
          var l, rt := Link(heap[q], false), Link(heap[q], true);
          heap := SetRed(heap, q, true);
          heap := SetRed(heap, l, false);
          heap := SetRed(heap, rt, false);
        }
      }
    }

    // ---- rberase ----

    /** Remove the item of the rank, if there is one. */
    method RbErase(rank: int) returns (ret: bool)
      requires Valid()
      modifies this
      ensures Valid() && (ret <==> !Absent(old(Items(tree)), rank)) && size == old(size) - (if ret then 1 else 0)
      ensures Absent(Items(tree), rank)
      ensures ret ==> Erased(old(Items(tree)), rank, Items(tree))
      ensures !ret ==> Items(tree) == old(Items(tree))
    {
      hide *;
      ValidParts();
      ghost var items := Items(tree);
      if root == NIL {
        NothingThere(tree, rank);
        return false;
      }
      ret := EraseBelow(rank);
      if ret {
        ErasedSorted(items, rank, Items(tree));
        size := size - 1;
      }
      NowValid();
    }

    method EraseBelow(rank: int) returns (ret: bool)
      requires Stored() && tree.N? && RedBlack(tree) && Sorted(Items(tree))
      modifies this`heap, this`root, this`tree
      ensures Stored() && RedBlack(tree) && (ret <==> !Absent(old(Items(tree)), rank))
      ensures ret ==> Erased(old(Items(tree)), rank, Items(tree))
      ensures !ret ==> Items(tree) == old(Items(tree))
    {
      hide *;
      ghost var items := Items(tree);
      StoredParts();
      RootIn(heap, tree);
      var any := heap[root].item;
      heap := heap[HEAD := Cell(any, false, NIL, root)];
      ZipStart(old(heap), heap, tree) by { HeadOnly(old(heap), any, root); }
      RemoveStart(tree, rank);
      TopIs();
      var q, p, g, f, dir := HEAD, NIL, NIL, NIL, true;
      ghost var path, sub, found := Top, tree, Nothing;
      ReadHole(heap, path, sub);
      while Link(heap[q], dir) != NIL
        invariant Zip(heap, path, sub) && Removing(path, sub, rank, items, found)
            && (forall a :: a in heap ==> a < next)
        invariant q == Above(path) && dir == Side(path) && (path.Step? ==> p == Above(path.up)) && q in heap
        invariant Link(heap[q], dir) == Root(sub) && f == FoundAt(found) && (sub.N? || path.Step?)
        decreases Size(sub)
      {
        var last := dir;
        ReadNode(heap, path, sub);
        g, p, q := p, q, Link(heap[q], dir);
        dir := heap[q].item.key.rank < rank;
        if heap[q].item.key.rank == rank {
          f := q;
        }
        ReadItem(heap, path, sub, rank);
        FoundNext(sub, rank, found);
        EraseTurn(path, sub, rank, items, found);
        PushedIs(path, sub, dir);
        p := PushRed(g, p, q, last, dir, path, sub);
        path, sub, found := Pushed(path, sub, dir), Child(sub, dir), Found(sub, rank, found);
        ReadHole(heap, path, sub);
      }
      ret := f != NIL;
      ReadEnd(heap, path, sub);
      FoundIs(heap, path, rank, items, found);
      if ret {
        LastIsLeaf(path, rank, items, found);
        RemovedZip(heap, path);
        RemovedItems(path, rank, items, found);
        ErasedIs(items, rank, path);
        AboveIs(path);
        TakeOut(f, p, q, path);
        path := Removed(path);
      } else {
        NothingFound(path, rank, items, found);
        RemovingWhole(path, rank, items, found);
      }
      ZipWhole(heap, path, E);
      WholeIsRedBlack(path, E);
      HeadThere(heap, Plug(path, E));
      root := heap[HEAD].right;
      tree := Blackened(Plug(path, E));
      PaintRoot(Plug(path, E));
      NowStored();
    }

    /** Keep the node that the search leaves, or its next child, red. */
    method PushRed(g: nat, p: nat, q: nat, last: bool, dir: bool, ghost path: Path, ghost sub: Tree) returns (r: nat)
      requires Zip(heap, path, sub) && sub.N? && q == sub.at && p == Above(path) && last == Side(path)
      requires path.Step? ==> g == Above(path.up)
      requires path.Step? && Stuck(path, sub, dir) ==> path.other.N?
      modifies this`heap
      ensures heap.Keys == old(heap.Keys) && Zip(heap, Pushed(path, sub, dir), Child(sub, dir))
      ensures Pushed(path, sub, dir).Step? && r == Above(Pushed(path, sub, dir).up)
    {
      hide *;
      r := p;
      ReadNode2(heap, path, sub, dir);
      PushedIs(path, sub, dir);
      ZipDown(heap, path, sub, dir);
      if !IsRed(q) && !IsRed(Link(heap[q], dir)) {
        if IsRed(Link(heap[q], !dir)) {
          LiftZip(heap, path, sub, dir);
          r := RbSingle(q, dir);
          heap := SetLink(heap, p, last, r);
        } else {
          SiblingAt(heap, path, sub);
          var s := Link(heap[p], !last);
          if s != NIL {
            Help(g, p, q, s, last, path, sub);
            ZipDown(heap, Helped(path), sub.(red := true), dir);
          }
        }
      }
    }

    /** The sibling takes part: a colour flip, or a rotation at the parent. */
    method Help(g: nat, p: nat, q: nat, s: nat, last: bool, ghost path: Path, ghost sub: Tree)
      requires Zip(heap, path, sub) && sub.N? && path.Step? && path.other.N?
      requires q == sub.at && p == path.at && s == path.other.at && last == path.dir && g == Above(path.up)
      modifies this`heap
      ensures heap.Keys == old(heap.Keys) && Zip(heap, Helped(path), sub.(red := true))
    {
      hide *;
      SiblingCells(heap, path, sub);
      HelpedIs(path);
      if !IsRed(Link(heap[s], !last)) && !IsRed(Link(heap[s], last)) {
        FlipZipE(heap, path, sub);
        FlipHeapEIs(heap, p, s, q);
        heap := SetRed(heap, p, false);
        heap := SetRed(heap, s, true);
        heap := SetRed(heap, q, true);
      } else {
        var dir2 := Link(heap[g], true) == p;
        var top: nat;
        if IsRed(Link(heap[s], last)) {
          DoubleZipE(heap, path, sub);
          top := RbDouble(p, last);
        } else {
          SingleZipE(heap, path, sub);
          top := RbSingle(p, last);
        }
        heap := SetLink(heap, g, dir2, top);
        RecolourIs(heap, q, top);
        var a, b := Link(heap[top], false), Link(heap[top], true);
        heap := SetRed(heap, q, true);
        heap := SetRed(heap, top, true);
        heap := SetRed(heap, a, false);
        heap := SetRed(heap, b, false);
      }
    }

    /** The last node's item goes to the found node, and the last node goes. */
    method TakeOut(f: nat, p: nat, q: nat, ghost path: Path)
      requires Zip(heap, path, E) && path.Step? && path.other.E? && NextUp(path).Just? && f == NextUp(path).at
      requires p == Above(path.up) && q == path.at && f in heap && q in heap && p in heap
      requires Zip(SetLink(SetItem(heap, f, path.item), p, Side(path.up), NIL), Removed(path), E)
      modifies this`heap
      ensures heap.Keys == old(heap.Keys) && Zip(heap, Removed(path), E)
    {
      hide *;
      LastCells(heap, path);
      heap := SetItem(heap, f, heap[q].item);
      LastLinks(old(heap), heap, path, f);
      var side := Link(heap[p], true) == q;
      heap := SetLink(heap, p, side, Link(heap[q], Link(heap[q], false) == NIL));
    }

    method PaintRoot(ghost w: Tree)
      requires Zip(heap, Top, w) && root == Root(w) && tree == Blackened(w)
      modifies this`heap
      ensures heap.Keys == old(heap.Keys) && root == Root(tree) && In(heap, tree) && Distinct(tree)
    {
      hide *;
      EmptyStored(heap, w);
      if root != NIL {
        BlackenStored(heap, w);
        heap := SetRed(heap, root, false);
      }
    }

    lemma ValidParts()
      requires Valid()
      ensures Stored() && RedBlack(tree) && Sorted(Items(tree)) && size == |Items(tree)| && (root == NIL <==> tree.E?)
      ensures next > HEAD && forall a :: a in heap ==> a < next
    {
    }

    lemma NowValid()
      requires Stored() && RedBlack(tree) && Sorted(Items(tree)) && size == |Items(tree)|
      ensures Valid()
    {
    }

    lemma StoredParts()
      requires Stored()
      ensures root == Root(tree) && In(heap, tree) && Distinct(tree) && next > HEAD
          && forall a :: a in heap ==> a < next
    {
    }

    lemma NowStored()
      requires root == Root(tree) && In(heap, tree) && Distinct(tree) && next > HEAD
          && forall a :: a in heap ==> a < next
      ensures Stored()
    {
    }
  }

  // ---- one turn of the loop ----

  /** The subtree after a leaf is linked or colours are flipped. */
  function Touched(sub: Tree, at: nat, item: Pair): Tree {
    if sub.E? then Leaf(at, item) else if TwoRed(sub) then Flipped(sub) else sub
  }

  predicate MustRotate(path: Path, s: Tree) {
    Red(s) && path.Step? && path.red && path.up.Step?
  }

  function RotatedPath(path: Path, s: Tree): Path {
    if !MustRotate(path, s) then path else if path.dir == path.up.dir then SinglePath(path) else path.up.up
  }

  function RotatedTree(path: Path, s: Tree): Tree {
    if MustRotate(path, s) && path.dir != path.up.dir then DoubleTree(path, s) else s
  }

  function NextPhase(ph: Phase, path: Path, sub: Tree): Phase {
    if TwoRed(sub) && path.Step? && path.red then if path.up.Step? && path.dir != path.up.dir then StaleAll else StaleT
    else if ph == StaleAll then StaleT
    else InStep
  }

  lemma TouchedIs(sub: Tree, at: nat, item: Pair)
    ensures var s := Touched(sub, at, item);
            s.N? && (sub.E? ==> s == Leaf(at, item)) && (sub.N? ==> s == if TwoRed(sub) then Flipped(sub) else sub)
    ensures Leaf(at, item).at == at && (sub.N? ==> Touched(sub, at, item).at == sub.at)
  {
  }

  lemma {:induction false} PhaseIs(ph: Phase, path: Path, sub: Tree, rank: int, items: seq<Pair>)
    requires Searching(ph, path, sub, rank, items) && (sub.E? || TwoRed(sub))
    ensures ph == InStep
  {
    var n: nat :| Shape(path, sub, n);
  }

  /** What the turn comes to. */
  lemma {:induction false} Turned(ph: Phase, path: Path, sub: Tree, at: nat, item: Pair, items: seq<Pair>)
    requires Searching(ph, path, sub, item.key.rank, items) && (sub.N? || path.Step?)
    ensures var rank, s1 := item.key.rank, Touched(sub, at, item);
            var p2, s2 := RotatedPath(path, s1), RotatedTree(path, s1);
            && s1.N? && s2.N? && s2.at == s1.at && s2.item == s1.item
            && (Red(s1) && path.Step? && path.red ==> ph == InStep && path.up.Step?)
            && (sub.E? ==> s2.item == item && Whole(p2, s2) && Inserted(items, item, Items(Plug(p2, s2))))
            && (sub.N? ==>
                  && s2.item.key.rank != rank
                  && var now := GoesRight(s2, rank);
                     && Searching(NextPhase(ph, path, sub), Down(s2, now, p2), Child(s2, now), rank, items)
                     && Rank(NextPhase(ph, path, sub), Child(s2, now), rank) < Rank(ph, sub, rank))
  {
    var rank := item.key.rank;
    if sub.E? {
      TurnedLeaf(ph, path, at, item, items);
    } else if TwoRed(sub) {
      TurnedFlip(ph, path, sub, rank, items);
    } else {
      TurnedDown(ph, path, sub, rank, items);
    }
  }

  lemma {:induction false} TurnedLeaf(ph: Phase, path: Path, at: nat, item: Pair, items: seq<Pair>)
    requires Searching(ph, path, E, item.key.rank, items) && path.Step?
    ensures var s1 := Leaf(at, item);
            var p2, s2 := RotatedPath(path, s1), RotatedTree(path, s1);
            && s2.N? && s2.at == at && s2.item == item && (path.red ==> ph == InStep && path.up.Step?)
            && Whole(p2, s2) && Inserted(items, item, Items(Plug(p2, s2)))
  {
    hide Whole, Inserted, Items, Plug, SinglePath, Searching;
    PhaseIs(ph, path, E, item.key.rank, items);
    if path.red {
      RotationIsPossible(path, E, item.key.rank, items);
      if path.dir == path.up.dir {
        LeafSingle(path, at, item, items);
      } else {
        LeafDouble(path, at, item, items);
      }
    } else {
      LeafFits(path, at, item, items);
    }
  }

  lemma {:induction false} TurnedFlip(ph: Phase, path: Path, sub: Tree, rank: int, items: seq<Pair>)
    requires Searching(ph, path, sub, rank, items) && TwoRed(sub)
    ensures var s1 := Flipped(sub);
            var p2, s2 := RotatedPath(path, s1), RotatedTree(path, s1);
            && s2.N? && s2.at == s1.at && s2.item == s1.item
              && (path.Step? && path.red ==> ph == InStep && path.up.Step?)
            && s2.item.key.rank != rank
            && var now := GoesRight(s2, rank);
               && Searching(NextPhase(ph, path, sub), Down(s2, now, p2), Child(s2, now), rank, items)
               && Rank(NextPhase(ph, path, sub), Child(s2, now), rank) < Rank(ph, sub, rank)
  {
    hide Searching, SinglePath, Size, Items, Plug;
    PhaseIs(ph, path, sub, rank, items);
    NotThere(ph, path, sub, rank, items);
    FlipSizes(sub);
    if path.Step? && path.red {
      RotationIsPossible(path, sub, rank, items);
      if path.dir == path.up.dir {
        FlipSingle(path, sub, rank, items);
      } else {
        FlipDouble(path, sub, rank, items);
        DoubleRank(path, sub, rank, items);
      }
    } else {
      FlipDown(path, sub, rank, items);
    }
  }

  lemma NotThere(ph: Phase, path: Path, sub: Tree, rank: int, items: seq<Pair>)
    requires Searching(ph, path, sub, rank, items) && sub.N?
    ensures sub.item.key.rank != rank
  {
    NotHere(path, sub, rank, items);
  }

  lemma FlipSizes(sub: Tree)
    requires TwoRed(sub)
    ensures forall dir :: Size(Child(Flipped(sub), dir)) < Size(sub)
  {
    assert Size(sub.left.(red := false)) == Size(sub.left) && Size(sub.right.(red := false)) == Size(sub.right);
  }

  /** After a double rotation the search comes to one of the flipped node's children in two turns. */
  lemma {:induction false} DoubleRank(path: Path, sub: Tree, rank: int, items: seq<Pair>)
    requires Searching(InStep, path, sub, rank, items) && TwoRed(sub) && path.Step? && path.up.Step?
        && path.dir != path.up.dir
    ensures var d := DoubleTree(path, Flipped(sub));
            var c := Child(d, GoesRight(sub, rank));
            c.N? && Size(Child(c, GoesRight(c, rank))) < Size(sub)
  {
    hide Items, Plug, Size, Before, After, Around;
    AroundOf(InStep, path, sub, rank, items);
    AroundUp(path, rank);
    AroundUp(path.up, rank);
    FlipSizes(sub);
    var f := Flipped(sub);
    var d := DoubleTree(path, f);
    var c := Child(d, GoesRight(sub, rank));
    assert Child(c, GoesRight(c, rank)) == Child(f, path.up.dir)
        || Child(c, GoesRight(c, rank)) == Child(f, !path.up.dir);
  }

  lemma AroundOf(ph: Phase, path: Path, sub: Tree, rank: int, items: seq<Pair>)
    requires Searching(ph, path, sub, rank, items)
    ensures Around(path, rank)
  {
  }

  lemma {:induction false} TurnedDown(ph: Phase, path: Path, sub: Tree, rank: int, items: seq<Pair>)
    requires Searching(ph, path, sub, rank, items) && sub.N? && !TwoRed(sub)
    ensures RotatedPath(path, sub) == path && RotatedTree(path, sub) == sub && !(Red(sub) && path.Step? && path.red)
    ensures sub.item.key.rank != rank
    ensures var now := GoesRight(sub, rank);
            && Searching(NextPhase(ph, path, sub), Down(sub, now, path), Child(sub, now), rank, items)
            && Rank(NextPhase(ph, path, sub), Child(sub, now), rank) < Rank(ph, sub, rank)
  {
    hide Searching, Items, Plug;
    NotThere(ph, path, sub, rank, items);
    GoDown(ph, path, sub, rank, items);
    PhaseAll(ph, path, sub, rank, items);
  }

  lemma PhaseAll(ph: Phase, path: Path, sub: Tree, rank: int, items: seq<Pair>)
    requires Searching(ph, path, sub, rank, items) && sub.N?
    ensures ph == StaleAll ==> Child(sub, GoesRight(sub, rank)).N?
  {
  }

  // ---- reading memory ----

  lemma ZipStart(h: Heap, g: Heap, t: Tree)
    requires In(h, t) && Distinct(t) && HEAD in g && g[HEAD].left == NIL && g[HEAD].right == Root(t)
        && Only(h, g, {HEAD})
    ensures Zip(g, Top, t)
  {
    InNotHead(h, t);
    InAgree(h, g, t);
  }

  lemma HelpersStart(t: Tree)
    ensures Helpers(InStep, Top, t, HEAD, NIL, NIL, Root(t), false, false)
  {
  }

  lemma ReadNode(h: Heap, path: Path, sub: Tree)
    requires Zip(h, path, sub)
    ensures Root(sub) == NIL <==> sub.E?
    ensures sub.N? ==>
              && sub.at in h && sub.at == Root(sub)
              && var l, r := Link(h[sub.at], false), Link(h[sub.at], true);
                 && l == Root(Child(sub, false)) && r == Root(Child(sub, true)) && (l != NIL ==> l in h)
                   && (r != NIL ==> r in h)
                 && (TwoRed(sub) <==> l != NIL && h[l].red && r != NIL && h[r].red)
  {
    if sub.N? {
      RedAt(h, sub.left);
      RedAt(h, sub.right);
    }
  }

  lemma RotatedIs(path: Path, s: Tree)
    ensures MustRotate(path, s) && path.dir == path.up.dir
        ==> RotatedPath(path, s) == SinglePath(path) && RotatedTree(path, s) == s
    ensures MustRotate(path, s) && path.dir != path.up.dir
        ==> s.N? && RotatedPath(path, s) == path.up.up && RotatedTree(path, s) == DoubleTree(path, s)
    ensures !MustRotate(path, s) ==> RotatedPath(path, s) == path && RotatedTree(path, s) == s
  {
  }

  /** What the pointers tell about the path. */
  lemma RotatePlaces(h: Heap, path: Path, sub: Tree)
    requires Zip(h, path, sub) && sub.N? && path.Step? && path.up.Step?
    ensures var g, up := path.up, path.up.up;
            && Above(up) in h && g.at in h && path.at in h && GreatOf(path) == Above(up)
            && (Link(h[Above(up)], true) == g.at <==> Side(up))
            && (Link(h[path.at], g.dir) == sub.at <==> path.dir == g.dir)
  {
    var g, up := path.up, path.up.up;
    assert InPath(h, g, path.at) && DistinctPath(g);
    assert InPath(h, up, g.at) && DistinctPath(up) && g.at !in PathAddrs(up);
    PathInHeap(h, up, g.at);
    RootNotIn(path.other, sub.at);
    if up.Step? {
      RootNotIn(up.other, g.at);
    }
  }

  lemma RootNotIn(t: Tree, a: nat)
    requires a !in Addrs(t) && a != NIL
    ensures Root(t) != a
  {
  }

  /** is_red at the node and at its parent. */
  lemma ReadColours(h: Heap, path: Path, s: Tree)
    requires Zip(h, path, s) && s.N?
    ensures s.at != NIL && s.at in h && (h[s.at].red <==> Red(s))
    ensures ParentOf(path) != NIL ==> ParentOf(path) in h
    ensures path.Step? && path.red <==> ParentOf(path) != NIL && h[ParentOf(path)].red
    ensures MustRotate(path, s) <==> Red(s) && path.Step? && path.red && path.up.Step?
  {
  }

  lemma HelpersUp(ph: Phase, path: Path, sub: Tree, t: nat, g: nat, p: nat, dir: bool, last: bool)
    requires Helpers(ph, path, sub, t, g, p, Root(sub), dir, last) && ph == InStep && path.Step? && path.up.Step?
    ensures t == GreatOf(path) && g == path.up.at && p == path.at && last == path.up.dir
  {
  }

  lemma RedAtRoot(h: Heap, path: Path, s: Tree)
    requires Zip(h, path, s) && s.N?
    ensures s.at in h && h[s.at].item == s.item
  {
  }

  lemma ChildAt(h: Heap, path: Path, s: Tree, dir: bool)
    requires Zip(h, path, s) && s.N?
    ensures s.at in h && Link(h[s.at], dir) == Root(Child(s, dir)) && Down(s, dir, path).Step?
  {
  }

  lemma GoesIs(t: Tree, rank: int)
    requires t.N?
    ensures GoesRight(t, rank) <==> t.item.key.rank < rank
  {
  }

  lemma HelpersParts(ph: Phase, path: Path, sub: Tree, t: nat, g: nat, p: nat, q: nat, dir: bool, last: bool)
    requires Helpers(ph, path, sub, t, g, p, q, dir, last)
    ensures q == Root(sub) && p == ParentOf(path) && (path.Step? ==> dir == path.dir)
  {
  }

  /** The helpers after the turn. */
  lemma {:induction false} HelpersNext(ph: Phase, path: Path, sub: Tree, at: nat, item: Pair, t: nat, g: nat, p: nat,
      dir: bool, last: bool, h: Heap, items: seq<Pair>)
    requires Helpers(ph, path, sub, t, g, p, Root(sub), dir, last) && sub.N?
        && Searching(ph, path, sub, item.key.rank, items)
    requires ParentOf(path) != NIL <==> path.Step?
    requires GrandOf(path) != NIL <==> path.Step? && path.up.Step?
    ensures var s1 := Touched(sub, at, item);
            var p2, s2 := RotatedPath(path, s1), RotatedTree(path, s1);
            s2.N? &&
            var now := GoesRight(s2, item.key.rank);
            Helpers(NextPhase(ph, path, sub), Down(s2, now, p2), Child(s2, now), if g != NIL then g
              else t, p, sub.at, Root(Child(s2, now)),
                    now, dir)
  {
    hide Searching;
    PhasePaths(ph, path, sub, item.key.rank, items);
    if TwoRed(sub) {
      PhaseIs(ph, path, sub, item.key.rank, items);
      if path.Step? && path.red {
        RotationIsPossible(path, sub, item.key.rank, items);
      }
    } else {
      TurnedDown(ph, path, sub, item.key.rank, items);
    }
  }

  lemma PhasePaths(ph: Phase, path: Path, sub: Tree, rank: int, items: seq<Pair>)
    requires Searching(ph, path, sub, rank, items)
    ensures ph == StaleT ==> path.Step? && path.up.Step?
    ensures ph == StaleAll ==> path.Step?
  {
  }

  lemma Fresh(h: Heap, next: nat)
    requires forall a :: a in h ==> a < next
    ensures next !in h
  {
  }

  lemma Floor(next: nat)
    requires next > HEAD
    ensures next > HEAD && next > NIL
  {
  }

  lemma AboveIs(path: Path)
    requires path.Step?
    ensures Above(path) == ParentOf(path) == path.at && Side(path) == path.dir
  {
  }

  lemma FlipHeapIs(h: Heap, t: Tree)
    requires TwoRed(t) && t.at in h && t.left.at in h && t.right.at in h
    ensures FlipHeap(h, t) == SetRed(SetRed(SetRed(h, t.at, true), Root(Child(t, false)), false), Root(Child(t, true)),
        false)
  {
  }

  // ---- the ends ----

  lemma FirstInserted(t: Tree, at: nat, item: Pair)
    requires t.E?
    ensures var now := N(at, false, item, E, E); RedBlack(now) && Inserted(Items(t), item, Items(now))
  {
    var now := N(at, false, item, E, E);
    assert Bal(now, 1);
    assert Items(t)[..0] + [item] + Items(t)[0..] == Items(now);
  }

  lemma FirstStored(h: Heap, at: nat, item: Pair)
    requires at > HEAD
    ensures var g := h[at := Cell(item, true, NIL, NIL)];
            at in g && In(SetRed(g, at, false), N(at, false, item, E, E)) && Distinct(N(at, false, item, E, E))
    ensures Root(N(at, false, item, E, E)) == at
  {
  }

  lemma InsertedSorted(items: seq<Pair>, item: Pair, now: seq<Pair>)
    requires Sorted(items) && Inserted(items, item, now)
    ensures Sorted(now) && |now| == |items| + 1
  {
    var i :| 0 <= i <= |items| && now == items[..i] + [item] + items[i..] && AllBelow(items[..i], item.key.rank)
             && AllAbove(items[i..], item.key.rank);
    forall a | 0 <= a < |now|
      ensures now[a] == InsertedAt(items, i, item, a)
      ensures a < i ==> now[a].key.rank < item.key.rank
      ensures a > i ==> now[a].key.rank > item.key.rank
    {
      if a < i {
        assert now[a] == items[..i][a];
      } else if a > i {
        assert now[a] == items[i..][a - i - 1];
      }
    }
    AllSorted(items, i, item, now);
  }

  lemma AllSorted(items: seq<Pair>, i: nat, item: Pair, now: seq<Pair>)
    requires Sorted(items) && i <= |items| && |now| == |items| + 1
        && forall a :: 0 <= a < |now| ==> now[a] == InsertedAt(items, i, item, a)
    requires forall a :: 0 <= a < i ==> now[a].key.rank < item.key.rank
    requires forall a :: i < a < |now| ==> now[a].key.rank > item.key.rank
    ensures Sorted(now)
  {
    forall a, b | 0 <= a < b < |now| ensures now[a].key.rank < now[b].key.rank {
      assert now[a] == InsertedAt(items, i, item, a) && now[b] == InsertedAt(items, i, item, b);
    }
  }

  function InsertedAt(items: seq<Pair>, i: nat, item: Pair, a: nat): Pair
    requires i <= |items| && a <= |items|
  {
    if a < i then items[a] else if a == i then item else items[a - 1]
  }

  lemma WholeThere(items: seq<Pair>, item: Pair, h: Heap, w: Tree)
    requires Inserted(items, item, Items(w)) && Zip(h, Top, w)
    ensures w.N? && HEAD in h && h[HEAD].right == w.at && w.at in h
  {
  }

  lemma BlackenStored(h: Heap, w: Tree)
    requires Zip(h, Top, w) && w.N?
    ensures w.at in h && In(SetRed(h, w.at, false), Blackened(w)) && Distinct(Blackened(w))
        && Root(Blackened(w)) == w.at
  {
    var g := SetRed(h, w.at, false);
    InAgree(h, g, w.left);
    InAgree(h, g, w.right);
  }

  lemma Parents(h: Heap, path: Path, sub: Tree)
    requires Zip(h, path, sub)
    ensures ParentOf(path) != NIL <==> path.Step?
    ensures GrandOf(path) != NIL <==> path.Step? && path.up.Step?
  {
    if path.Step? {
      RedAbove(h, path, Root(sub));
      RedAbove(h, path.up, path.at);
    }
  }

  // ---- one turn of rberase ----

  /** The way down after the turn. */
  function Pushed(path: Path, sub: Tree, dir: bool): Path
    requires sub.N?
  {
    if !Needs(sub, dir) || (!Red(Child(sub, !dir)) && (path.Top? || !path.other.N?)) then Down(sub, dir, path)
    else if Red(Child(sub, !dir)) then Lifted(path, sub, dir)
    else Down(sub.(red := true), dir, Helped(path))
  }

  lemma {:induction false} EraseTurn(path: Path, sub: Tree, rank: int, items: seq<Pair>, found: Place)
    requires Removing(path, sub, rank, items, found) && sub.N?
    ensures var dir := sub.item.key.rank < rank;
            && Removing(Pushed(path, sub, dir), Child(sub, dir), rank, items, Found(sub, rank, found))
            && (path.Step? && Stuck(path, sub, dir) ==> path.other.N?) && Size(Child(sub, dir)) < Size(sub)
  {
    hide Removing, Lifted, Helped;
    var dir := GoesRight(sub, rank);
    if !Needs(sub, dir) || (!Red(Child(sub, !dir)) && path.Top?) {
      EraseDown(path, sub, rank, items, found);
    } else if Red(Child(sub, !dir)) {
      EraseLift(path, sub, rank, items, found);
    } else {
      EraseHelp(path, sub, rank, items, found);
    }
  }

  function FoundAt(found: Place): nat {
    if found.Just? then found.at else NIL
  }

  lemma FoundNext(sub: Tree, rank: int, found: Place)
    requires sub.N?
    ensures FoundAt(Found(sub, rank, found)) == if sub.item.key.rank == rank then sub.at else FoundAt(found)
  {
  }

  lemma TopIs()
    ensures Above(Top) == HEAD && Side(Top) && FoundAt(Nothing) == NIL
  {
  }

  lemma HeadOnly(h: Heap, any: Pair, root: nat)
    ensures Only(h, h[HEAD := Cell(any, false, NIL, root)], {HEAD})
  {
  }

  lemma ReadHole(h: Heap, path: Path, sub: Tree)
    requires Zip(h, path, sub)
    ensures Above(path) in h && Link(h[Above(path)], Side(path)) == Root(sub)
    ensures path.Step? ==> Above(path) == path.at && Side(path) == path.dir
  {
    RedAbove(h, path, Root(sub));
  }

  lemma ReadItem(h: Heap, path: Path, sub: Tree, rank: int)
    requires Zip(h, path, sub) && sub.N?
    ensures sub.at in h && h[sub.at].item == sub.item
  {
  }

  lemma ReadNode2(h: Heap, path: Path, sub: Tree, dir: bool)
    requires Zip(h, path, sub) && sub.N?
    ensures sub.at in h && sub.at != NIL && (h[sub.at].red <==> sub.red)
    ensures var a, b := Link(h[sub.at], dir), Link(h[sub.at], !dir);
            && (a != NIL ==> a in h) && (b != NIL ==> b in h)
            && (Red(Child(sub, dir)) <==> a != NIL && h[a].red) && (Red(Child(sub, !dir)) <==> b != NIL && h[b].red)
            && (Needs(sub, dir) <==> !sub.red && !Red(Child(sub, dir)))
              && (Red(Child(sub, !dir)) ==> Child(sub, !dir).N?)
  {
    RedAt(h, sub.left);
    RedAt(h, sub.right);
  }

  lemma PushedIs(path: Path, sub: Tree, dir: bool)
    requires sub.N?
    ensures var q := Pushed(path, sub, dir);
            && q.Step? && q.at == sub.at && q.dir == dir
            && (!Needs(sub, dir) || (!Red(Child(sub, !dir)) && (path.Top? || !path.other.N?))
              ==> q == Down(sub, dir, path) && q.up == path)
            && (Needs(sub, dir) && Red(Child(sub, !dir)) ==>
                  Child(sub, !dir).N? && q == Lifted(path, sub, dir) && Above(q.up) == Child(sub, !dir).at)
            && (Needs(sub, dir) && !Red(Child(sub, !dir)) && path.Step? && path.other.N? ==>
                  && q == Down(sub.(red := true), dir, Helped(path)) && q.up == Helped(path)
                    && Above(Helped(path)) == path.at
                  && Above(path) == path.at && Side(path) == path.dir)
    ensures path.Step? && Needs(sub, dir) && !Red(Child(sub, !dir)) ==> Stuck(path, sub, dir)
    ensures Child(sub.(red := true), dir) == Child(sub, dir)
  {
  }

  lemma SiblingAt(h: Heap, path: Path, sub: Tree)
    requires Zip(h, path, sub)
    ensures Above(path) in h
    ensures path.Top? ==> Link(h[Above(path)], !Side(path)) == NIL
    ensures path.Step? ==> Link(h[Above(path)], !Side(path)) == Root(path.other)
                           && (path.other.N? ==> Root(path.other) == path.other.at)
    ensures path.Step? ==> (Root(path.other) != NIL <==> path.other.N?)
  {
    RedAbove(h, path, Root(sub));
    if path.Step? {
      RedAt(h, path.other);
    }
  }

  lemma SiblingCells(h: Heap, path: Path, sub: Tree)
    requires Zip(h, path, sub) && sub.N? && path.Step? && path.other.N?
    ensures var s, last := path.other, path.dir;
            && s.at in h && path.at in h && sub.at in h && Above(path.up) in h
            && (Link(h[Above(path.up)], true) == path.at <==> Side(path.up))
            && var a, b := Link(h[s.at], last), Link(h[s.at], !last);
               && (a != NIL ==> a in h) && (b != NIL ==> b in h) && (Red(Child(s, last)) <==> a != NIL && h[a].red)
               && (Red(Child(s, !last)) <==> b != NIL && h[b].red)
               && (Red(Child(s, last)) ==> Child(s, last).N?) && (Red(Child(s, !last)) ==> Child(s, !last).N?)
  {
    SiblingPlaces(h, path, sub);
    RedAt(h, path.other.left);
    RedAt(h, path.other.right);
    assert InPath(h, path.up, path.at) && DistinctPath(path.up) && path.at !in PathAddrs(path.up);
    if path.up.Step? {
      RootNotIn(path.up.other, path.at);
    }
  }

  lemma HelpedIs(path: Path)
    requires path.Step? && path.other.N?
    ensures var s, last := path.other, path.dir;
            && (Red(Child(s, last)) ==> Child(s, last).N? && Helped(path) == DoublePathE(path))
            && (!Red(Child(s, last)) && Red(Child(s, !last))
              ==> Child(s, !last).N? && Helped(path) == SinglePathE(path))
            && (!Red(Child(s, last)) && !Red(Child(s, !last)) ==> Helped(path) == FlippedPath(path))
  {
  }

  lemma FlipHeapEIs(h: Heap, p: nat, s: nat, q: nat)
    requires p in h && s in h && q in h
    ensures FlipHeapE(h, p, s, q) == SetRed(SetRed(SetRed(h, p, false), s, true), q, true)
  {
  }

  lemma RecolourIs(h: Heap, q: nat, top: nat)
    requires q in h && top in h && Link(h[top], false) in h && Link(h[top], true) in h
    ensures Recolour(h, q, top)
            == SetRed(SetRed(SetRed(SetRed(h, q, true), top, true), Link(h[top], false), false), Link(h[top], true),
              false)
  {
  }

  // ---- the end of rberase ----

  ghost predicate Erased(items: seq<Pair>, rank: int, now: seq<Pair>) {
    exists i :: 0 <= i < |items| && items[i].key.rank == rank && now == items[..i] + items[i + 1..]
  }

  lemma ErasedIs(items: seq<Pair>, rank: int, path: Path)
    requires path.Step?
    requires var i := |Before(path)|;
             i < |items| && items[i].key.rank == rank && Items(Plug(Removed(path), E)) == items[..i] + items[i + 1..]
    ensures Erased(items, rank, Items(Plug(Removed(path), E))) && !Absent(items, rank)
  {
  }

  lemma ErasedSorted(items: seq<Pair>, rank: int, now: seq<Pair>)
    requires Sorted(items) && Erased(items, rank, now)
    ensures Sorted(now) && |now| == |items| - 1 && Absent(now, rank)
  {
    var i :| 0 <= i < |items| && items[i].key.rank == rank && now == items[..i] + items[i + 1..];
    forall a | 0 <= a < |now| ensures now[a] == items[Skipping(i, a)] {
    }
    OthersSorted(items, i, now);
  }

  function Skipping(i: nat, a: nat): nat {
    if a < i then a else a + 1
  }

  lemma OthersSorted(items: seq<Pair>, i: nat, now: seq<Pair>)
    requires Sorted(items) && i < |items| && |now| == |items| - 1
        && forall a :: 0 <= a < |now| ==> now[a] == items[Skipping(i, a)]
    ensures Sorted(now) && Absent(now, items[i].key.rank)
  {
    forall a, b | 0 <= a < b < |now| ensures now[a].key.rank < now[b].key.rank {
      assert now[a] == items[Skipping(i, a)] && now[b] == items[Skipping(i, b)];
    }
    forall a | 0 <= a < |now| ensures now[a].key.rank != items[i].key.rank {
      assert now[a] == items[Skipping(i, a)];
    }
  }

  lemma NothingThere(t: Tree, rank: int)
    requires t.E?
    ensures Absent(Items(t), rank)
  {
  }

  lemma ReadEnd(h: Heap, path: Path, sub: Tree)
    requires Zip(h, path, sub) && Root(sub) == NIL
    ensures sub == E
  {
  }

  lemma {:induction false} NextAt(h: Heap, p: Path, child: nat)
    requires InPath(h, p, child) && NextUp(p).Just?
    ensures NextUp(p).at in h && NextUp(p).at > HEAD
    decreases p
  {
    if p.dir {
      NextAt(h, p.up, p.at);
    }
  }

  lemma FoundIs(h: Heap, path: Path, rank: int, items: seq<Pair>, found: Place)
    requires Zip(h, path, E) && Removing(path, E, rank, items, found)
    ensures FoundAt(found) != NIL <==> found.Just?
    ensures found.Just? ==> NextUp(path) == found && found.at in h && FoundAt(found) == found.at
  {
    NextUpThere(path);
    if found.Just? {
      NextAt(h, path, NIL);
    }
  }

  lemma RemovingWhole(path: Path, rank: int, items: seq<Pair>, found: Place)
    requires Removing(path, E, rank, items, found)
    ensures Whole(path, E) && Items(Plug(path, E)) == items
  {
  }

  lemma RootIn(h: Heap, t: Tree)
    requires In(h, t) && t.N?
    ensures Root(t) in h && Root(t) == t.at
  {
  }

  lemma HeadThere(h: Heap, w: Tree)
    requires Zip(h, Top, w)
    ensures HEAD in h && h[HEAD].right == Root(w)
  {
  }

  lemma LastCells(h: Heap, path: Path)
    requires Zip(h, path, E) && path.Step?
    ensures path.at in h && h[path.at].item == path.item
  {
  }

  lemma LastLinks(h: Heap, g: Heap, path: Path, f: nat)
    requires Zip(h, path, E) && path.Step? && path.other.E? && f in h && g == SetItem(h, f, path.item)
    ensures path.at in g && Above(path.up) in g && Link(g[path.at], Link(g[path.at], false) == NIL) == NIL
    ensures Link(g[Above(path.up)], true) == path.at <==> Side(path.up)
  {
    assert InPath(h, path.up, path.at) && DistinctPath(path.up) && path.at !in PathAddrs(path.up);
    PathInHeap(h, path.up, path.at);
    if path.up.Step? {
      RootNotIn(path.up.other, path.at);
    }
  }

  lemma EmptyStored(h: Heap, w: Tree)
    requires Zip(h, Top, w)
    ensures Root(w) == NIL ==> Root(Blackened(w)) == NIL && In(h, Blackened(w)) && Distinct(Blackened(w))
    ensures Root(w) != NIL ==> w.N? && w.at == Root(w)
  {
  }
}
