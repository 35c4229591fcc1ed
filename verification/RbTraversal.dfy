/** Walking over a map: the traversal object keeps the nodes above the current one in an array of fixed
    size. */
module RbTraversal {
  import opened RbTree
  import opened RbInsert
  import opened RbHeap
  import opened RbMap

  const HEIGHT_LIMIT: nat := 64

  /** The nodes above, outermost first. */
  function Ancestors(p: Path): seq<nat> {
    match p
    case Top => []
    case Step(at, _, _, _, _, up) => Ancestors(up) + [at]
  }

  /** The path leads from the subtree up through the tree. */
  predicate Leads(p: Path, t: Tree, whole: Tree) {
    Plug(p, t) == whole
  }

  predicate InFrames(h: Heap, p: Path, child: nat) {
    match p
    case Top => true
    case Step(at, _, _, _, other, up) =>
        at > HEAD && at in h && h[at] == FrameCell(p, child) && In(h, other) && InFrames(h, up, at)
  }

  lemma {:induction false} FramesIn(h: Heap, p: Path, t: Tree)
    requires In(h, Plug(p, t))
    ensures In(h, t) && InFrames(h, p, Root(t))
    decreases p
  {
    if p.Step? {
      FramesIn(h, p.up, Make(p.at, p.red, p.item, p.dir, t, p.other));
    }
  }

  lemma {:induction false} DistinctIn(p: Path, t: Tree)
    requires Distinct(Plug(p, t))
    ensures Distinct(t) && (p.Step? ==> Addrs(t) !! Addrs(p.other))
    decreases p
  {
    if p.Step? {
      DistinctIn(p.up, Make(p.at, p.red, p.item, p.dir, t, p.other));
    }
  }

  lemma {:induction false} AboveFits(p: Path, t: Tree)
    ensures |Ancestors(p)| + Height(t) <= Height(Plug(p, t))
    decreases p
  {
    if p.Step? {
      AboveFits(p.up, Make(p.at, p.red, p.item, p.dir, t, p.other));
    }
  }

  /** The items from the subtree's own on, in ascending order, when everything to the left is behind us. */
  function Coming(p: Path, t: Tree): seq<Pair> {
    if t.N? then [t.item] + Items(t.right) + After(p) else After(p)
  }

  lemma ComingNext(p: Path, t: Tree)
    requires t.N?
    ensures Coming(p, t)[1..] == Items(t.right) + After(p)
    ensures t.right.E? ==> Coming(p, t)[1..] == After(p)
  {
    assert Coming(p, t)[1..] == Items(t.right) + After(p);
  }

  lemma ComingLeft(p: Path, t: Tree)
    requires t.N?
    ensures t.left.E? ==> Items(t) + After(p) == Coming(p, t)
    ensures t.left.N? ==> Items(t) + After(p) == Items(t.left) + After(Down(t, false, p))
  {
    if t.left.E? {
      assert Items(t) == [t.item] + Items(t.right);
    } else {
      assert Items(t.left) + [t.item] + Items(t.right) + After(p)
          == Items(t.left) + ([t.item] + Items(t.right) + After(p));
    }
  }

  lemma DownRight(p: Path, t: Tree)
    requires t.N?
    ensures After(Down(t, true, p)) == After(p)
  {
  }

  /** One step up: what comes next is the node above, if we come from its left. */
  lemma ComingUp(p: Path, t: Tree)
    requires p.Step?
    ensures p.dir ==> After(p) == After(p.up)
    ensures !p.dir ==> After(p) == Coming(p.up, Make(p.at, p.red, p.item, p.dir, t, p.other))
  {
  }

  /** Reading the current node and the one above it. */
  lemma ReadHere(h: Heap, p: Path, t: Tree, whole: Tree)
    requires In(h, whole) && Distinct(whole) && Leads(p, t, whole)
    ensures Root(t) == NIL <==> t.E?
    ensures t.N? ==> t.at == Root(t) && t.at in h && Link(h[t.at], true) == Root(t.right)
                     && Link(h[t.at], false) == Root(t.left)
                     && h[t.at].item == t.item && (Root(t.left) != NIL <==> t.left.N?)
                       && (Root(t.right) != NIL <==> t.right.N?)
    ensures p.Step? ==> p.at in h && p.at != NIL && (Root(t) != NIL ==> (Root(t) == Link(h[p.at], true) <==> p.dir))
  {
    FramesIn(h, p, t);
    DistinctIn(p, t);
    RedAt(h, t);
    if t.N? {
      RedAt(h, t.left);
      RedAt(h, t.right);
    }
    if p.Step? && t.N? {
      assert t.at in Addrs(t);
      if p.other.N? {
        assert p.other.at in Addrs(p.other);
      }
    }
  }

  lemma LeadsDown(p: Path, t: Tree, whole: Tree, dir: bool)
    requires t.N? && Leads(p, t, whole)
    ensures Leads(Down(t, dir, p), Child(t, dir), whole) && Ancestors(Down(t, dir, p)) == Ancestors(p) + [t.at]
    ensures Height(Child(t, dir)) < Height(t) && Child(t, true) == t.right && Child(t, false) == t.left
  {
    DownPlugs(t, dir, p);
  }

  function UpTree(p: Path, t: Tree): Tree
    requires p.Step?
  {
    Make(p.at, p.red, p.item, p.dir, t, p.other)
  }

  lemma LeadsUp(p: Path, t: Tree, whole: Tree)
    requires p.Step? && Leads(p, t, whole)
    ensures Leads(p.up, UpTree(p, t), whole) && UpTree(p, t).N? && UpTree(p, t).at == p.at
        && Ancestors(p) == Ancestors(p.up) + [p.at]
    ensures Root(UpTree(p, t)) == p.at
  {
  }

  lemma StackFits(p: Path, t: Tree, whole: Tree)
    requires Leads(p, t, whole) && Height(whole) < HEIGHT_LIMIT && t.N?
    ensures |Ancestors(p)| < HEIGHT_LIMIT
  {
    AboveFits(p, t);
  }

  class Traversal {
    const owner: RbMap
    const path: array<nat>
    var it: nat
    var top: nat
    ghost var way: Path
    ghost var sub: Tree

    ghost predicate Valid()
      reads this, owner, path
    {
      && path.Length == HEIGHT_LIMIT && top <= HEIGHT_LIMIT && owner.Valid() && Height(owner.tree) < HEIGHT_LIMIT
      && (it != NIL ==> sub.N? && it == sub.at && Leads(way, sub, owner.tree) && path[..top] == Ancestors(way))
    }

    /** What is still to come, the current item first. */
    ghost function Rest(): seq<Pair>
      reads this
    {
      if it == NIL then [] else Coming(way, sub)
    }

    constructor (owner: RbMap)
      requires owner.Valid() && owner.size < 0xffff_ffff
      ensures Valid() && this.owner == owner && Rest() == [] && fresh(path)
    {
      this.owner, this.it, this.top, this.way, this.sub := owner, NIL, 0, Top, E;
      this.path := new nat[HEIGHT_LIMIT];
      new;
      SizeItems(owner.tree);
      HeightLimit(owner.tree);
    }

    lemma MapParts()
      requires owner.Valid()
      ensures owner.root == Root(owner.tree) && In(owner.heap, owner.tree) && Distinct(owner.tree)
    {
    }

    /** rbtfirst: to the smallest item. */
    method First()
      requires Valid()
      modifies this`it, this`top, this`way, this`sub, path
      ensures Valid() && Rest() == Items(owner.tree)
      ensures it == NIL <==> Items(owner.tree) == []
    {
      hide Leads, In, Distinct, Items, After, Height, Plug, Addrs, RedBlack, Sorted;
      MapParts();
      it, top, way, sub := owner.root, 0, Top, owner.tree;
      LeadsTop(owner.tree);
      ReadHere(owner.heap, way, sub, owner.tree);
      if it != NIL {
        GoLeft();
      }
    }

    /** Down the left links, pushing what is passed. */
    method GoLeft()
      requires Valid() && it != NIL
      modifies this`it, this`top, this`way, this`sub, path
      ensures Valid() && it != NIL && Rest() == old(Items(sub) + After(way))
    {
      hide Leads, In, Distinct, Items, After, Height, Plug, Addrs, RedBlack, Sorted, Coming, Ancestors;
      MapParts();
      ReadHere(owner.heap, way, sub, owner.tree);
      ComingLeft(way, sub);
      while Link(owner.heap[it], false) != NIL
        invariant Valid() && it != NIL && it in owner.heap && Link(owner.heap[it], false) == Root(sub.left)
        invariant Root(sub.left) != NIL <==> sub.left.N?
        invariant Items(sub) + After(way) == old(Items(sub) + After(way))
        invariant sub.left.E? ==> Items(sub) + After(way) == Coming(way, sub)
        decreases sub
      {
        ComingLeft(way, sub);
        StepDown(false);
        ReadHere(owner.heap, way, sub, owner.tree);
        ComingLeft(way, sub);
      }
    }

    method StepDown(dir: bool)
      requires Valid() && it != NIL && Child(sub, dir).N?
      modifies this`it, this`top, this`way, this`sub, path
      ensures Valid() && it != NIL && way == old(Down(sub, dir, way)) && sub == old(Child(sub, dir))
    {
      hide In, Distinct, Items, After, Plug, Addrs, RedBlack, Sorted, Height;
      MapParts();
      ReadHere(owner.heap, way, sub, owner.tree);
      StackFits(way, sub, owner.tree);
      LeadsDown(way, sub, owner.tree, dir);
      path[top] := it;
      top := top + 1;
      it := Link(owner.heap[it], dir);
      way, sub := Down(sub, dir, way), Child(sub, dir);
    }

    /** rbseek: to the item of the rank; false, and nowhere, if there is none. */
    method Seek(rank: int) returns (found: bool)
      requires Valid()
      modifies this`it, this`top, this`way, this`sub, path
      ensures Valid() && (found <==> !Absent(Items(owner.tree), rank)) && (found <==> it != NIL)
      ensures found ==> From(Items(owner.tree), rank, Rest())
    {
      hide Leads, In, Distinct, Items, Height, Plug, Addrs, RedBlack, Sorted, Absent, From, Around, Ancestors;
      MapParts();
      it, top, way, sub := owner.root, 0, Top, owner.tree;
      LeadsTop(owner.tree);
      AroundTop(rank);
      ReadHere(owner.heap, way, sub, owner.tree);
      while it != NIL && owner.heap[it].item.key.rank != rank
        invariant Valid() && it == Root(sub) && Leads(way, sub, owner.tree) && Around(way, rank)
            && (it != NIL <==> sub.N?)
        invariant it != NIL ==> it in owner.heap && owner.heap[it].item == sub.item
        decreases sub
      {
        ReadHere(owner.heap, way, sub, owner.tree);
        StackFits(way, sub, owner.tree);
        var dir := owner.heap[it].item.key.rank < rank;
        SearchDown(way, sub, owner.tree, rank);
        LeadsDown(way, sub, owner.tree, dir);
        path[top] := it;
        top := top + 1;
        it := Link(owner.heap[it], dir);
        way, sub := Down(sub, dir, way), Child(sub, dir);
        ReadHere(owner.heap, way, sub, owner.tree);
      }
      found := it != NIL;
      if found {
        SearchFinds(way, sub, owner.tree, rank);
      } else {
        SearchEnds(way, owner.tree, rank);
      }
    }

    /** rbtnext: to the next item. */
    method Next()
      requires Valid() && it != NIL
      modifies this`it, this`top, this`way, this`sub, path
      ensures Valid() && Rest() == old(Rest())[1..]
      ensures it == NIL <==> old(Rest())[1..] == []
    {
      hide Leads, In, Distinct, Items, After, Height, Plug, Addrs, RedBlack, Sorted;
      MapParts();
      ReadHere(owner.heap, way, sub, owner.tree);
      ComingNext(way, sub);
      if Link(owner.heap[it], true) != NIL {
        DownRight(way, sub);
        StepDown(true);
        GoLeft();
      } else {
        GoUp();
      }
    }

    /** Up, as long as we come from the right. */
    method GoUp()
      requires Valid() && it != NIL
      modifies this`it, this`top, this`way, this`sub
      ensures Valid() && Rest() == old(After(way)) && (it == NIL <==> old(After(way)) == [])
    {
      hide Leads, In, Distinct, Items, Height, Plug, Addrs, RedBlack, Sorted;
      var last := it;
      var right := true;
      while right
        invariant path.Length == HEIGHT_LIMIT && top <= HEIGHT_LIMIT && owner.Valid()
            && Height(owner.tree) < HEIGHT_LIMIT
        invariant it != NIL ==> sub.N? && it == sub.at && Leads(way, sub, owner.tree) && path[..top] == Ancestors(way)
        invariant right ==> it != NIL && After(way) == old(After(way))
        invariant !right ==> Rest() == old(After(way)) && (it == NIL <==> old(After(way)) == [])
        decreases right, top
      {
        if top == 0 {
          NothingAbove(way);
          it, right := NIL, false;
        } else {
          MapParts();
          SomethingAbove(way);
          LeadsUp(way, sub, owner.tree);
          ComingUp(way, sub);
          ReadHere(owner.heap, way, sub, owner.tree);
          last := it;
          top := top - 1;
          it := path[top];
          right := last == Link(owner.heap[it], true);
          way, sub := way.up, UpTree(way, sub);
        }
      }
    }
  }

  /** Nothing of the rank here. */
  lemma SearchEnds(p: Path, whole: Tree, rank: int)
    requires Leads(p, E, whole) && Around(p, rank)
    ensures Absent(Items(whole), rank)
  {
    ItemsPlug(p, E);
    var items, b, a := Items(whole), Before(p), After(p);
    assert items == b + a;
    forall i | 0 <= i < |items| ensures items[i].key.rank != rank {
      if i >= |b| {
        assert items[i] == a[i - |b|];
      }
    }
  }

  /** The items from the found one on. */
  ghost predicate From(items: seq<Pair>, rank: int, rest: seq<Pair>) {
    exists i :: 0 <= i < |items| && items[i].key.rank == rank && rest == items[i..]
  }

  lemma SearchFinds(p: Path, t: Tree, whole: Tree, rank: int)
    requires t.N? && Leads(p, t, whole) && t.item.key.rank == rank
    ensures From(Items(whole), rank, Coming(p, t)) && !Absent(Items(whole), rank)
  {
    ItemsPlug(p, t);
    var i, items := |Before(p)| + |Items(t.left)|, Items(whole);
    Regroup(Before(p), Items(t.left), t.item, Items(t.right), After(p));
    assert items[i] == t.item;
    assert items[i..] == Coming(p, t);
  }

  lemma SearchDown(p: Path, t: Tree, whole: Tree, rank: int)
    requires t.N? && Leads(p, t, whole) && Around(p, rank) && Sorted(Items(whole)) && t.item.key.rank != rank
    ensures Around(Down(t, t.item.key.rank < rank, p), rank)
  {
    DownAround(p, t, rank);
  }

  lemma LeadsTop(t: Tree)
    ensures Leads(Top, t, t) && Ancestors(Top) == [] && Items(t) + After(Top) == Items(t) && (t.E? <==> Items(t) == [])
  {
  }

  lemma AroundTop(rank: int)
    ensures Around(Top, rank)
  {
  }

  lemma NothingAbove(p: Path)
    requires Ancestors(p) == []
    ensures After(p) == []
  {
  }

  lemma SomethingAbove(p: Path)
    requires Ancestors(p) != []
    ensures p.Step? && Ancestors(p)[|Ancestors(p)| - 1] == p.at && Ancestors(p)[..|Ancestors(p)| - 1] == Ancestors(p.up)
  {
  }
}
