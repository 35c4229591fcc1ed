/** Top-down removal on the value side: rberase pushes a red node down ahead of the search, so that the node
    it takes out in the end is a red leaf. */
module RbErase {
  import opened RbTree
  import opened RbInsert

  // ---- the search ----

  predicate NoneBelow(s: seq<Pair>, rank: int) {
    forall i :: 0 <= i < |s| ==> s[i].key.rank >= rank
  }

  /** Where the search stands; at a node of the rank it goes left. */
  predicate Toward(p: Path, rank: int) {
    AllBelow(Before(p), rank) && NoneBelow(After(p), rank)
  }

  /** The node that comes right after the subtree. */
  function NextUp(p: Path): Place {
    match p
    case Top => Nothing
    case Step(at, _, _, dir, _, up) => if dir then NextUp(up) else Just(at)
  }

  datatype Place = Nothing | Just(at: nat)

  predicate NextIs(p: Path, rank: int) {
    After(p) != [] && After(p)[0].key.rank == rank
  }

  /** The found node, which holds the rank if anything does. */
  predicate FoundOk(p: Path, rank: int, found: Place) {
    found == if NextIs(p, rank) then NextUp(p) else Nothing
  }

  lemma DownToward(p: Path, t: Tree, rank: int, found: Place)
    requires t.N? && Toward(p, rank) && Sorted(Items(Plug(p, t))) && FoundOk(p, rank, found)
    ensures var q := Down(t, GoesRight(t, rank), p);
            Toward(q, rank) && FoundOk(q, rank, if t.item.key.rank == rank then Just(t.at) else found)
  {
    ItemsPlug(p, t);
    var b, l, x, r, a := Before(p), Items(t.left), t.item, Items(t.right), After(p);
    Regroup(b, l, x, r, a);
    var all, i := b + l + [x] + r + a, |b + l|;
    assert all[i] == x;
    if x.key.rank < rank {
      forall j | 0 <= j < |b + l + [x]| ensures (b + l + [x])[j].key.rank < rank {
        assert (b + l + [x])[j] == all[j];
      }
    } else {
      var tail := [x] + r + a;
      assert all == b + l + tail;
      forall j | 0 <= j < |tail| ensures tail[j].key.rank >= rank {
        assert tail[j] == all[i + j];
      }
      if a != [] {
        assert all[|all| - |a|] == a[0];
      }
    }
  }

  // ---- keeping a red node at hand ----

  /** The node above is red, or the subtree is, or the node above is the root and has no red child. */
  predicate Hot(p: Path, t: Tree) {
    p.Top? || p.red || Red(t) || (p.up.Top? && !Red(p.other))
  }

  /** At the top of rberase's loop. */
  ghost predicate Removing(p: Path, t: Tree, rank: int, items: seq<Pair>, found: Place) {
    && Whole(p, t) && Hot(p, t) && Toward(p, rank) && Items(Plug(p, t)) == items && Sorted(items)
      && FoundOk(p, rank, found)
  }

  lemma RemoveStart(t: Tree, rank: int)
    requires RedBlack(t) && Sorted(Items(t))
    ensures Removing(Top, t, rank, Items(t), Nothing)
  {
    var n: nat :| Bal(t, n);
    assert Shape(Top, t, n);
  }

  function Found(t: Tree, rank: int, found: Place): Place
    requires t.N?
  {
    if t.item.key.rank == rank then Just(t.at) else found
  }

  /** The node, the child the search goes to and the other child are all without red. */
  predicate Needs(t: Tree, dir: bool) {
    t.N? && !t.red && !Red(Child(t, dir))
  }

  /** Nothing to do, or nothing that can be done at the root. */
  lemma EraseDown(p: Path, t: Tree, rank: int, items: seq<Pair>, found: Place)
    requires Removing(p, t, rank, items, found) && t.N?
    requires var dir := GoesRight(t, rank); !Needs(t, dir) || (!Red(Child(t, !dir)) && p.Top?)
    ensures var dir := GoesRight(t, rank); Removing(Down(t, dir, p), Child(t, dir), rank, items, Found(t, rank, found))
  {
    hide Toward, Sorted, Items, Plug, FoundOk;
    var n: nat :| Shape(p, t, n);
    var dir := GoesRight(t, rank);
    DownShape(p, t, dir, n);
    DownToward(p, t, rank, found);
    DownPlugs(t, dir, p);
  }

  /** rbsingle at the node: its red child comes above it. */
  function Lifted(p: Path, t: Tree, dir: bool): Path
    requires t.N? && Child(t, !dir).N?
  {
    var s := Child(t, !dir);
    Step(t.at, true, t.item, dir, Child(s, dir), Step(s.at, false, s.item, dir, Child(s, !dir), p))
  }

  lemma LiftedShape(p: Path, t: Tree, dir: bool, n: nat)
    requires Needs(t, dir) && Red(Child(t, !dir)) && Shape(p, t, n)
    ensures n > 0 && Shape(Lifted(p, t, dir), Child(t, dir), n - 1)
  {
    var s := Child(t, !dir);
    assert Bal(s, n - 1) && NoRedRed(s);
    assert Bal(Child(s, dir), n - 1) && Bal(Child(s, !dir), n - 1);
    assert PathFits(p, false);
  }

  lemma LiftedItems(p: Path, t: Tree, dir: bool, rank: int, found: Place)
    requires Needs(t, dir) && Child(t, !dir).N?
    ensures var q, d := Lifted(p, t, dir), Down(t, dir, p);
            && Before(q) == Before(d) && After(q) == After(d) && NextUp(q) == NextUp(d)
  {
    var s := Child(t, !dir);
    if dir {
      Regroup(Before(p), Items(s.left), s.item, Items(s.right), [t.item]);
    } else {
      Regroup([t.item], Items(s.left), s.item, Items(s.right), After(p));
    }
  }

  lemma SameToward(p: Path, q: Path, rank: int, found: Place)
    requires Before(q) == Before(p) && After(q) == After(p) && NextUp(q) == NextUp(p) && Toward(p, rank)
        && FoundOk(p, rank, found)
    ensures Toward(q, rank) && FoundOk(q, rank, found)
  {
  }

  lemma EraseLift(p: Path, t: Tree, rank: int, items: seq<Pair>, found: Place)
    requires Removing(p, t, rank, items, found) && t.N?
    requires var dir := GoesRight(t, rank); Needs(t, dir) && Red(Child(t, !dir))
    ensures var dir := GoesRight(t, rank);
        Removing(Lifted(p, t, dir), Child(t, dir), rank, items, Found(t, rank, found))
  {
    hide Toward, Sorted, FoundOk, Lifted, Before, After, NextUp;
    var n: nat :| Shape(p, t, n);
    var dir := GoesRight(t, rank);
    var q, d := Lifted(p, t, dir), Down(t, dir, p);
    LiftedShape(p, t, dir, n);
    LiftedItems(p, t, dir, rank, found);
    DownToward(p, t, rank, found);
    SameToward(d, q, rank, Found(t, rank, found));
    DownPlugs(t, dir, p);
    ItemsPlug(q, Child(t, dir));
    ItemsPlug(d, Child(t, dir));
    assert Hot(q, Child(t, dir)) by { LiftedRed(p, t, dir); }
  }

  lemma LiftedRed(p: Path, t: Tree, dir: bool)
    requires t.N? && Child(t, !dir).N?
    ensures Lifted(p, t, dir).Step? && Lifted(p, t, dir).red
  {
  }

  // ---- with the help of the sibling ----

  /** What the search finds when it needs the sibling. */
  predicate Stuck(p: Path, t: Tree, dir: bool) {
    p.Step? && Needs(t, dir) && !Red(Child(t, !dir))
  }

  lemma SiblingThere(p: Path, t: Tree, dir: bool, n: nat)
    requires Stuck(p, t, dir) && Shape(p, t, n) && Hot(p, t)
    ensures n > 0 && p.other.N? && !p.other.red && (p.red || p.up.Top?)
    ensures Bal(p.other.left, n - 1) && Bal(p.other.right, n - 1) && NoRedRed(p.other.left) && NoRedRed(p.other.right)
    ensures PathFits(p.up, p.red) && (p.red ==> PathBal(p.up, n))
  {
  }

  lemma {:induction false} PathFitsBlack(p: Path, red: bool)
    requires PathFits(p, red)
    ensures PathFits(p, false)
  {
  }

  /** The colour flip. */
  function FlippedPath(p: Path): Path
    requires p.Step? && p.other.N?
  {
    p.(red := false, other := p.other.(red := true))
  }

  lemma FlippedShape(p: Path, t: Tree, dir: bool, n: nat)
    requires Stuck(p, t, dir) && Shape(p, t, n) && Hot(p, t) && p.other.N? && !Red(p.other.left) && !Red(p.other.right)
    ensures n > 0 && Shape(FlippedPath(p), t.(red := true), n - 1)
  {
    SiblingThere(p, t, dir, n);
    PathFitsBlack(p.up, p.red);
  }

  lemma FlippedItems(p: Path, t: Tree)
    requires p.Step? && p.other.N? && t.N?
    ensures var q := FlippedPath(p); Before(q) == Before(p) && After(q) == After(p) && NextUp(q) == NextUp(p)
    ensures Items(t.(red := true)) == Items(t)
  {
    assert Items(p.other.(red := true)) == Items(p.other);
  }

  /** rbsingle at the parent. */
  function SinglePathE(p: Path): Path
    requires p.Step? && p.other.N? && Child(p.other, !p.dir).N?
  {
    var s, last := p.other, p.dir;
    Step(p.at, false, p.item, last, Child(s, last),
      Step(s.at, true, s.item, last, Child(s, !last).(red := false), p.up))
  }

  lemma SingleShapeE(p: Path, t: Tree, dir: bool, n: nat)
    requires Stuck(p, t, dir) && Shape(p, t, n) && Hot(p, t) && p.other.N? && !Red(Child(p.other, p.dir))
        && Red(Child(p.other, !p.dir))
    ensures n > 0 && Shape(SinglePathE(p), t.(red := true), n - 1)
  {
    SiblingThere(p, t, dir, n);
    var x := Child(p.other, !p.dir);
    assert Bal(x.left, n - 1) && Bal(x.right, n - 1) && NoRedRed(x.left) && NoRedRed(x.right);
    assert Bal(x.(red := false), n) && NoRedRed(x.(red := false));
    assert PathFits(p.up, true) && PathBal(p.up, n);
    var q, r := SinglePathE(p), t.(red := true);
    assert PathBal(q.up, n) && PathFits(q.up, false);
    assert PathBal(q, n - 1) && PathFits(q, true);
    assert Bal(r, n - 1) && NoRedRed(r);
  }

  lemma SingleItemsE(p: Path)
    requires p.Step? && p.other.N? && Child(p.other, !p.dir).N?
    ensures var q := SinglePathE(p); Before(q) == Before(p) && After(q) == After(p) && NextUp(q) == NextUp(p)
  {
    var s, x := p.other, Child(p.other, !p.dir);
    assert Items(x.(red := false)) == Items(x);
    if p.dir {
      Regroup(Before(p.up), Items(s.left), s.item, Items(s.right), [p.item]);
    } else {
      Regroup([p.item], Items(s.left), s.item, Items(s.right), After(p.up));
    }
  }

  /** rbdouble at the parent. */
  function DoublePathE(p: Path): Path
    requires p.Step? && p.other.N? && Child(p.other, p.dir).N?
  {
    var s, last := p.other, p.dir;
    var x := Child(s, last);
    Step(p.at, false, p.item, last, Child(x, last),
         Step(x.at, true, x.item, last, Make(s.at, false, s.item, last, Child(x, !last), Child(s, !last)), p.up))
  }

  lemma DoubleShapeE(p: Path, t: Tree, dir: bool, n: nat)
    requires Stuck(p, t, dir) && Shape(p, t, n) && Hot(p, t) && p.other.N? && Red(Child(p.other, p.dir))
    ensures n > 0 && Shape(DoublePathE(p), t.(red := true), n - 1)
  {
    SiblingThere(p, t, dir, n);
    var s, x, last := p.other, Child(p.other, p.dir), p.dir;
    assert Bal(x.left, n - 1) && Bal(x.right, n - 1) && NoRedRed(x.left) && NoRedRed(x.right);
    var s' := Make(s.at, false, s.item, last, Child(x, !last), Child(s, !last));
    assert Bal(s', n) && NoRedRed(s');
    assert PathFits(p.up, true) && PathBal(p.up, n);
    var q, r := DoublePathE(p), t.(red := true);
    assert PathBal(q.up, n) && PathFits(q.up, false);
    assert PathBal(q, n - 1) && PathFits(q, true);
    assert Bal(r, n - 1) && NoRedRed(r);
  }

  lemma DoubleItemsE(p: Path)
    requires p.Step? && p.other.N? && Child(p.other, p.dir).N?
    ensures var q := DoublePathE(p); Before(q) == Before(p) && After(q) == After(p) && NextUp(q) == NextUp(p)
  {
    var s, x, q := p.other, Child(p.other, p.dir), DoublePathE(p);
    assert Items(x) == Items(x.left) + [x.item] + Items(x.right);
    if p.dir {
      assert Items(q.up.other) == Items(s.left) + [s.item] + Items(x.left);
      SeqLeft(Before(p.up), Items(s.left), s.item, Items(x.left), x.item, Items(x.right), p.item);
    } else {
      assert Items(q.up.other) == Items(x.right) + [s.item] + Items(s.right);
      SeqRight(p.item, Items(x.left), x.item, Items(x.right), s.item, Items(s.right), After(p.up));
    }
  }

  lemma SeqLeft(b: seq<Pair>, c: seq<Pair>, s: Pair, l: seq<Pair>, x: Pair, r: seq<Pair>, p: Pair)
    ensures b + (c + [s] + l) + [x] + r + [p] == b + (c + [s] + (l + [x] + r)) + [p]
  {
  }

  lemma SeqRight(p: Pair, l: seq<Pair>, x: Pair, r: seq<Pair>, s: Pair, c: seq<Pair>, a: seq<Pair>)
    ensures [p] + l + ([x] + (r + [s] + c) + a) == [p] + ((l + [x] + r) + [s] + c) + a
  {
  }

  /** The way to the node once its sibling has helped. */
  function Helped(p: Path): Path
    requires p.Step? && p.other.N?
  {
    if Red(Child(p.other, p.dir)) then DoublePathE(p)
    else if Red(Child(p.other, !p.dir)) then SinglePathE(p)
    else FlippedPath(p)
  }

  lemma HelpedKeeps(p: Path, t: Tree, dir: bool)
    requires Stuck(p, t, dir) && Whole(p, t) && Hot(p, t)
    ensures p.other.N? && Whole(Helped(p), t.(red := true))
    ensures var q := Helped(p); Before(q) == Before(p) && After(q) == After(p) && NextUp(q) == NextUp(p)
  {
    hide Shape, Before, After, NextUp, FlippedPath, SinglePathE, DoublePathE;
    var n: nat :| Shape(p, t, n);
    SiblingThere(p, t, dir, n);
    if Red(Child(p.other, p.dir)) {
      DoubleShapeE(p, t, dir, n);
      DoubleItemsE(p);
    } else if Red(Child(p.other, !p.dir)) {
      SingleShapeE(p, t, dir, n);
      SingleItemsE(p);
    } else {
      FlippedShape(p, t, dir, n);
      FlippedItems(p, t);
    }
  }

  lemma EraseHelp(p: Path, t: Tree, rank: int, items: seq<Pair>, found: Place)
    requires Removing(p, t, rank, items, found) && t.N? && Stuck(p, t, GoesRight(t, rank))
    ensures p.other.N?
    ensures var dir, r := GoesRight(t, rank), t.(red := true);
            Removing(Down(r, dir, Helped(p)), Child(t, dir), rank, items, Found(t, rank, found))
  {
    hide Toward, Sorted, FoundOk, Helped, Before, After, NextUp;
    var dir, r := GoesRight(t, rank), t.(red := true);
    HelpedKeeps(p, t, dir);
    var q := Helped(p);
    SameToward(p, q, rank, found);
    ItemsPlug(p, t);
    ItemsPlug(q, r);
    assert Items(r) == Items(t);
    var n: nat :| Shape(q, r, n);
    DownShape(q, r, dir, n);
    DownToward(q, r, rank, found);
    DownPlugs(r, dir, q);
  }

  // ---- the end ----

  /** The item of the next node up is replaced. */
  function SetNext(p: Path, item: Pair): Path {
    match p
    case Top => Top
    case Step(_, _, _, dir, _, up) => if dir then p.(up := SetNext(up, item)) else p.(item := item)
  }

  lemma {:induction false} SetNextKeeps(p: Path, item: Pair, n: nat, red: bool)
    ensures PathBal(SetNext(p, item), n) == PathBal(p, n) && PathFits(SetNext(p, item), red) == PathFits(p, red)
    decreases p
  {
    if p.Step? && p.dir {
      SetNextKeeps(p.up, item, if p.red then n else n + 1, p.red);
    }
  }

  lemma {:induction false} SetNextItems(p: Path, item: Pair)
    requires After(p) != []
    ensures Before(SetNext(p, item)) == Before(p) && After(SetNext(p, item)) == [item] + After(p)[1..]
    decreases p
  {
    if p.dir {
      SetNextItems(p.up, item);
    } else {
      assert After(p)[1..] == Items(p.other) + After(p.up);
    }
  }

  /** What is left when the search has come to an end at an empty subtree. */
  lemma LastIsLeaf(p: Path, rank: int, items: seq<Pair>, found: Place)
    requires Removing(p, E, rank, items, found) && p.Step?
    ensures p.other.E? && Whole(p.up, E)
  {
    var n: nat :| Shape(p, E, n);
    assert Shape(p.up, E, 0) by {
      PathFitsBlack(p.up, p.red);
    }
  }

  /** The path after the removal: the node at its end is gone, and if it is not the one to be removed, its
      item has gone there. */
  function Removed(p: Path): Path
    requires p.Step?
  {
    if p.dir then SetNext(p.up, p.item) else p.up
  }

  lemma RemovedItems(p: Path, rank: int, items: seq<Pair>, found: Place)
    requires Removing(p, E, rank, items, found) && p.Step? && found.Just?
    ensures var i := |Before(p)|;
            && i < |items| && items[i].key.rank == rank && Items(Plug(Removed(p), E)) == items[..i] + items[i + 1..]
    ensures Whole(Removed(p), E)
  {
    hide *;
    LastIsLeaf(p, rank, items, found);
    RemovingIs(p, rank, items, found);
    RemovedContext(p);
    ItemsAround(p);
    ItemsAround(Removed(p));
    Cut(Before(p), After(p));
    RemovedWhole(p);
  }

  lemma ItemsAround(p: Path)
    ensures Items(Plug(p, E)) == Before(p) + After(p)
  {
    ItemsPlug(p, E);
  }

  lemma Cut(b: seq<Pair>, a: seq<Pair>)
    requires a != []
    ensures |b| < |b + a| && (b + a)[|b|] == a[0] && (b + a)[..|b|] + (b + a)[|b| + 1..] == b + a[1..]
  {
    assert (b + a)[..|b|] == b && (b + a)[|b| + 1..] == a[1..];
  }

  lemma RemovingIs(p: Path, rank: int, items: seq<Pair>, found: Place)
    requires Removing(p, E, rank, items, found)
    ensures Items(Plug(p, E)) == items && (found.Just? ==> After(p) != [] && After(p)[0].key.rank == rank)
  {
  }

  lemma RemovedContext(p: Path)
    requires p.Step? && p.other.E? && After(p) != []
    ensures Before(Removed(p)) + After(Removed(p)) == Before(p) + After(p)[1..]
  {
    if p.dir {
      SetNextItems(p.up, p.item);
      assert Before(p) == Before(p.up) + [p.item];
    } else {
      assert After(p)[1..] == After(p.up);
    }
  }

  lemma RemovedWhole(p: Path)
    requires p.Step? && Whole(p.up, E)
    ensures Whole(Removed(p), E)
  {
    var n: nat :| Shape(p.up, E, n);
    SetNextKeeps(p.up, p.item, n, false);
    assert Shape(Removed(p), E, n);
  }

  lemma NothingFound(p: Path, rank: int, items: seq<Pair>, found: Place)
    requires Removing(p, E, rank, items, found) && found.Nothing?
    ensures Absent(items, rank)
  {
    ItemsPlug(p, E);
    var b, a := Before(p), After(p);
    assert items == b + a;
    NextUpThere(p);
    forall i | 0 <= i < |items| ensures items[i].key.rank != rank {
      if i >= |b| {
        assert items[i] == a[i - |b|];
        if i > |b| {
          assert items[|b|] == a[0];
        }
      }
    }
  }

  lemma {:induction false} NextUpThere(p: Path)
    ensures NextUp(p).Just? <==> After(p) != []
    decreases p
  {
    if p.Step? && p.dir {
      NextUpThere(p.up);
    }
  }
}
