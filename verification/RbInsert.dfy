/** Top-down insertion on the value side: what a turn of rbinsert's loop does to the path and the subtree it
    looks at, and why the helpers that a rotation leaves behind are never used before they are right again. */
module RbInsert {
  import opened RbTree

  /** Colours and black heights are right everywhere, if the subtree has n black nodes on every way down. */
  predicate Shape(p: Path, t: Tree, n: nat) {
    PathBal(p, n) && Bal(t, n) && PathFits(p, Red(t)) && NoRedRed(t)
  }

  /** The rank belongs where the subtree is. */
  predicate Around(p: Path, rank: int) {
    AllBelow(Before(p), rank) && AllAbove(After(p), rank)
  }

  /** Whether rbinsert goes right at the node. */
  predicate GoesRight(t: Tree, rank: int)
    requires t.N?
  {
    t.item.key.rank < rank
  }

  lemma DownShape(p: Path, t: Tree, dir: bool, n: nat)
    requires t.N? && Shape(p, t, n)
    ensures t.red || n > 0
    ensures Shape(Down(t, dir, p), Child(t, dir), if t.red then n else n - 1)
  {
  }

  lemma DownAround(p: Path, t: Tree, rank: int)
    requires t.N? && Around(p, rank) && t.item.key.rank != rank && Sorted(Items(Plug(p, t)))
    ensures Around(Down(t, GoesRight(t, rank), p), rank)
  {
    ItemsPlug(p, t);
    var b, l, x, r, a := Before(p), Items(t.left), t.item, Items(t.right), After(p);
    Regroup(b, l, x, r, a);
    var all := b + l + [x] + r + a;
    var i := |b + l|;
    assert all[i] == x;
    if x.key.rank < rank {
      forall j | 0 <= j < |b + l + [x]| ensures (b + l + [x])[j].key.rank < rank {
        assert (b + l + [x])[j] == all[j];
      }
    } else {
      var tail := [x] + r + a;
      assert all == b + l + tail;
      forall j | 0 <= j < |tail| ensures tail[j].key.rank > rank {
        assert tail[j] == all[i + j];
      }
    }
  }

  // ---- colour flip ----

  predicate TwoRed(t: Tree) {
    t.N? && Red(t.left) && Red(t.right)
  }

  function Flipped(t: Tree): Tree
    requires TwoRed(t)
  {
    N(t.at, true, t.item, t.left.(red := false), t.right.(red := false))
  }

  /** A black node without red children. */
  predicate Calm(t: Tree) {
    t.N? && !t.red && !Red(t.left) && !Red(t.right)
  }

  lemma FlipShape(p: Path, t: Tree, n: nat)
    requires Shape(p, t, n) && TwoRed(t)
    ensures !t.red && Bal(Flipped(t), n) && NoRedRed(Flipped(t)) && PathBal(p, n) && PathFits(p, false)
    ensures Items(Flipped(t)) == Items(t) && Calm(Flipped(t).left) && Calm(Flipped(t).right)
    ensures !(p.Step? && p.red) ==> Shape(p, Flipped(t), n)
  {
    var l, r, f := t.left, t.right, Flipped(t);
    assert NoRedRed(l) && NoRedRed(r) && !t.red;
    assert Bal(l, n - 1) && Bal(r, n - 1);
    assert Bal(l.left, n - 1) && Bal(l.right, n - 1) && Bal(r.left, n - 1) && Bal(r.right, n - 1);
    assert Bal(f.left, n) && Bal(f.right, n);
    assert NoRedRed(f.left) && NoRedRed(f.right);
    assert Items(f.left) == Items(l) && Items(f.right) == Items(r);
  }

  // ---- rotations ----

  /** A red node under a red node whose parent is black and whose sibling is not red. */
  predicate Hard(p: Path, t: Tree) {
    Red(t) && p.Step? && p.red && p.up.Step? && !p.up.red && !Red(p.up.other)
  }

  /** rbsingle at the grandparent: the way to t after it. */
  function SinglePath(p: Path): Path
    requires p.Step? && p.up.Step?
  {
    var g := p.up;
    Step(p.at, false, p.item, g.dir, Make(g.at, true, g.item, g.dir, p.other, g.other), g.up)
  }

  /** rbdouble at the grandparent: t after it. */
  function DoubleTree(p: Path, t: Tree): Tree
    requires p.Step? && p.up.Step? && t.N?
  {
    var g := p.up;
    Make(t.at, false, t.item, g.dir,
         Make(p.at, true, p.item, !g.dir, Child(t, g.dir), p.other),
         Make(g.at, true, g.item, g.dir, Child(t, !g.dir), g.other))
  }

  lemma SingleShape(p: Path, t: Tree, n: nat)
    requires Hard(p, t) && p.dir == p.up.dir && PathBal(p, n) && Bal(t, n) && PathFits(p, false) && NoRedRed(t)
    ensures Shape(SinglePath(p), t, n)
  {
  }

  lemma SingleItems(p: Path)
    requires p.Step? && p.up.Step? && p.dir == p.up.dir
    ensures Before(SinglePath(p)) == Before(p) && After(SinglePath(p)) == After(p)
  {
    var g := p.up;
    if g.dir {
      Regroup(Before(g.up), Items(g.other), g.item, Items(p.other), [p.item]);
    } else {
      Regroup([p.item], Items(p.other), g.item, Items(g.other), After(g.up));
    }
  }

  lemma DoubleShape(p: Path, t: Tree, n: nat)
    requires Hard(p, t) && p.dir != p.up.dir && PathBal(p, n) && Bal(t, n) && PathFits(p, false) && NoRedRed(t)
    ensures Shape(p.up.up, DoubleTree(p, t), n + 1)
  {
  }

  lemma {:induction false} DoubleItems(p: Path, t: Tree)
    requires p.Step? && p.up.Step? && t.N? && p.dir != p.up.dir
    ensures Items(Plug(p.up.up, DoubleTree(p, t))) == Items(Plug(p, t))
  {
    var g, d := p.up, DoubleTree(p, t);
    ItemsPlug(g.up, d);
    ItemsPlug(p, t);
    var b, a, l, x, r, gi, pi, go, po := Before(g.up), After(g.up), Items(t.left), t.item, Items(t.right), g.item,
        p.item, Items(g.other), Items(p.other);
    if g.dir {
      assert Items(d) == (go + [gi] + l) + [x] + (r + [pi] + po);
      assert Items(t) == l + [x] + r;
      SeqZigZag(b, go, gi, l, x, r, pi, po, a);
    } else {
      assert Items(d) == (po + [pi] + l) + [x] + (r + [gi] + go);
      SeqZigZag(b, po, pi, l, x, r, gi, go, a);
    }
  }

  lemma SeqZigZag(b: seq<Pair>, c: seq<Pair>, u: Pair, l: seq<Pair>, x: Pair, r: seq<Pair>, v: Pair, d: seq<Pair>,
      a: seq<Pair>)
    ensures b + ((c + [u] + l) + [x] + (r + [v] + d)) + a == (b + c + [u]) + (l + [x] + r) + ([v] + d + a)
  {
  }

  lemma AroundUp(p: Path, rank: int)
    requires p.Step? && Around(p, rank)
    ensures Around(p.up, rank) && (p.dir ==> p.item.key.rank < rank) && (!p.dir ==> p.item.key.rank > rank)
  {
    if p.dir {
      var b := Before(p);
      assert b[|b| - 1] == p.item;
      assert forall i :: 0 <= i < |Before(p.up)| ==> Before(p.up)[i] == b[i];
    } else {
      var a := After(p);
      assert a[0] == p.item;
      assert forall i :: 0 <= i < |After(p.up)| ==> After(p.up)[i] == a[1 + |Items(p.other)| + i];
    }
  }

  // ---- the helpers ----

  /** How far the helpers t, g and last are right: in step with the path; all but t right, above a calm
      subtree; only p and q right, above a red node whose next child is calm. */
  datatype Phase = InStep | StaleT | StaleAll

  predicate PhaseOk(ph: Phase, p: Path, t: Tree, rank: int) {
    match ph
    case InStep =>
      && (p.Step? && p.red ==> Calm(t) || (p.up.Step? && !Red(p.up.other)))
      && (Red(t) ==> p.Step? && !Red(p.other))
    case StaleT => p.Step? && p.up.Step? && p.red && Calm(t)
    case StaleAll => p.Step? && Red(t) && !p.red && Calm(Child(t, GoesRight(t, rank)))
  }

  /** At the top of rbinsert's loop: the items are still those there were, and the new one belongs here. */
  ghost predicate Searching(ph: Phase, p: Path, t: Tree, rank: int, items: seq<Pair>) {
    && (exists n: nat :: Shape(p, t, n)) && Around(p, rank) && Items(Plug(p, t)) == items && Sorted(items)
      && Absent(items, rank)
    && PhaseOk(ph, p, t, rank)
  }

  lemma NotHere(p: Path, t: Tree, rank: int, items: seq<Pair>)
    requires t.N? && Items(Plug(p, t)) == items && Absent(items, rank)
    ensures t.item.key.rank != rank
  {
    ItemsPlug(p, t);
    assert items[|Before(p)| + |Items(t.left)|] == t.item;
  }

  lemma SearchStart(t: Tree, rank: int)
    requires RedBlack(t) && Sorted(Items(t)) && Absent(Items(t), rank)
    ensures Searching(InStep, Top, t, rank, Items(t))
  {
    var n: nat :| Bal(t, n);
    assert Shape(Top, t, n);
  }

  /** A turn that only goes down. */
  lemma GoDown(ph: Phase, p: Path, t: Tree, rank: int, items: seq<Pair>)
    requires Searching(ph, p, t, rank, items) && t.N? && (ph == InStep ==> !TwoRed(t))
    ensures !(Red(t) && p.Step? && p.red) && !TwoRed(t)
    ensures var dir, ph' := GoesRight(t, rank), if ph == StaleAll then StaleT else InStep;
            Searching(ph', Down(t, dir, p), Child(t, dir), rank, items)
  {
    hide Around, Sorted, Items, Plug;
    var n: nat :| Shape(p, t, n);
    var dir := GoesRight(t, rank);
    NotHere(p, t, rank, items);
    DownShape(p, t, dir, n);
    DownAround(p, t, rank);
    DownPlugs(t, dir, p);
  }

  /** A turn that flips colours and meets no red parent. */
  lemma FlipDown(p: Path, t: Tree, rank: int, items: seq<Pair>)
    requires Searching(InStep, p, t, rank, items) && TwoRed(t) && !(p.Step? && p.red)
    ensures var f, dir := Flipped(t), GoesRight(t, rank);
            Searching(InStep, Down(f, dir, p), Child(f, dir), rank, items)
  {
    hide Around, Sorted, Absent;
    var n: nat :| Shape(p, t, n);
    var f, dir := Flipped(t), GoesRight(t, rank);
    NotHere(p, t, rank, items);
    FlipShape(p, t, n);
    ItemsPlug(p, t);
    ItemsPlug(p, f);
    assert Shape(p, f, n);
    DownShape(p, f, dir, n);
    DownAround(p, f, rank);
    DownPlugs(f, dir, p);
  }

  /** Where the helpers are in step, a red child of a red parent can be rotated. */
  lemma RotationIsPossible(p: Path, t: Tree, rank: int, items: seq<Pair>)
    requires Searching(InStep, p, t, rank, items) && (TwoRed(t) || t.E?) && p.Step? && p.red
    ensures p.up.Step? && !p.up.red && !Red(p.up.other)
  {
    var n: nat :| Shape(p, t, n);
    assert PathFits(p.up, true);
  }

  /** A turn that flips colours and then rotates once. */
  lemma FlipSingle(p: Path, t: Tree, rank: int, items: seq<Pair>)
    requires Searching(InStep, p, t, rank, items) && TwoRed(t) && p.Step? && p.red && p.up.Step? && p.dir == p.up.dir
    ensures var f, dir := Flipped(t), GoesRight(t, rank);
            Searching(StaleT, Down(f, dir, SinglePath(p)), Child(f, dir), rank, items)
  {
    hide Around, Sorted, Absent, SinglePath;
    RotationIsPossible(p, t, rank, items);
    var n: nat :| Shape(p, t, n);
    var f, dir, s := Flipped(t), GoesRight(t, rank), SinglePath(p);
    NotHere(p, t, rank, items);
    FlipShape(p, t, n);
    SingleShape(p, f, n);
    SingleItems(p);
    ItemsPlug(p, t);
    ItemsPlug(s, f);
    assert Around(s, rank) by { AroundSame(p, s, rank); }
    DownShape(s, f, dir, n);
    DownAround(s, f, rank);
    DownPlugs(f, dir, s);
    assert s.Step? by { SingleSteps(p); }
  }

  lemma AroundSame(p: Path, s: Path, rank: int)
    requires Before(s) == Before(p) && After(s) == After(p) && Around(p, rank)
    ensures Around(s, rank)
  {
  }

  lemma SingleSteps(p: Path)
    requires p.Step? && p.up.Step?
    ensures SinglePath(p).Step?
  {
  }

  /** A turn that flips colours and then rotates twice. */
  lemma FlipDouble(p: Path, t: Tree, rank: int, items: seq<Pair>)
    requires Searching(InStep, p, t, rank, items) && TwoRed(t) && p.Step? && p.red && p.up.Step? && p.dir != p.up.dir
    ensures var d, dir := DoubleTree(p, Flipped(t)), GoesRight(t, rank);
            d.N? && d.item == t.item && Searching(StaleAll, Down(d, dir, p.up.up), Child(d, dir), rank, items)
  {
    hide Around, Sorted, Absent, Items, Plug;
    RotationIsPossible(p, t, rank, items);
    var n: nat :| Shape(p, t, n);
    var f, dir, up := Flipped(t), GoesRight(t, rank), p.up.up;
    var d := DoubleTree(p, f);
    NotHere(p, t, rank, items);
    FlipShape(p, t, n);
    DoubleShape(p, f, n);
    DoubleItems(p, f);
    FlipItems(p, t);
    AroundUp(p, rank);
    AroundUp(p.up, rank);
    DownShape(up, d, dir, n + 1);
    DownAround(up, d, rank);
    DownPlugs(d, dir, up);
  }

  lemma FlipItems(p: Path, t: Tree)
    requires TwoRed(t)
    ensures Items(Plug(p, Flipped(t))) == Items(Plug(p, t))
  {
    ItemsPlug(p, t);
    ItemsPlug(p, Flipped(t));
  }

  // ---- the end ----

  function Leaf(at: nat, item: Pair): Tree {
    N(at, true, item, E, E)
  }

  /** The items with the new one where it belongs. */
  ghost predicate Inserted(items: seq<Pair>, item: Pair, now: seq<Pair>) {
    exists i :: 0 <= i <= |items| && now == items[..i] + [item] + items[i..] && AllBelow(items[..i], item.key.rank)
                && AllAbove(items[i..], item.key.rank)
  }

  lemma LeafItems(p: Path, at: nat, item: Pair)
    requires Around(p, item.key.rank)
    ensures Inserted(Items(Plug(p, E)), item, Items(Plug(p, Leaf(at, item))))
  {
    ItemsPlug(p, E);
    ItemsPlug(p, Leaf(at, item));
    var items, i := Items(Plug(p, E)), |Before(p)|;
    assert items[..i] == Before(p) && items[i..] == After(p);
  }

  ghost predicate Whole(p: Path, t: Tree) {
    exists n: nat :: Shape(p, t, n)
  }

  lemma LeafFits(p: Path, at: nat, item: Pair, items: seq<Pair>)
    requires Searching(InStep, p, E, item.key.rank, items) && !(p.Step? && p.red)
    ensures Whole(p, Leaf(at, item)) && Inserted(items, item, Items(Plug(p, Leaf(at, item))))
  {
    var n: nat :| Shape(p, E, n);
    LeafItems(p, at, item);
    assert Shape(p, Leaf(at, item), n);
  }

  lemma LeafSingle(p: Path, at: nat, item: Pair, items: seq<Pair>)
    requires Searching(InStep, p, E, item.key.rank, items) && p.Step? && p.red && p.up.Step? && p.dir == p.up.dir
    ensures Whole(SinglePath(p), Leaf(at, item)) && Inserted(items, item, Items(Plug(SinglePath(p), Leaf(at, item))))
  {
    hide SinglePath;
    RotationIsPossible(p, E, item.key.rank, items);
    var n: nat :| Shape(p, E, n);
    var t := Leaf(at, item);
    SingleShape(p, t, n);
    SingleItems(p);
    ItemsPlug(p, t);
    ItemsPlug(SinglePath(p), t);
    LeafItems(p, at, item);
  }

  lemma LeafDouble(p: Path, at: nat, item: Pair, items: seq<Pair>)
    requires Searching(InStep, p, E, item.key.rank, items) && p.Step? && p.red && p.up.Step? && p.dir != p.up.dir
    ensures var d := DoubleTree(p, Leaf(at, item));
            Whole(p.up.up, d) && Inserted(items, item, Items(Plug(p.up.up, d)))
  {
    hide DoubleTree, Inserted;
    RotationIsPossible(p, E, item.key.rank, items);
    var n: nat :| Shape(p, E, n);
    var t := Leaf(at, item);
    DoubleShape(p, t, n);
    DoubleItems(p, t);
    LeafItems(p, at, item);
  }

  /** Painting the root black makes it a red-black tree. */
  function Blackened(t: Tree): Tree {
    if t.N? then t.(red := false) else t
  }

  lemma WholeIsRedBlack(p: Path, t: Tree)
    requires Whole(p, t)
    ensures RedBlack(Blackened(Plug(p, t))) && Items(Blackened(Plug(p, t))) == Items(Plug(p, t))
  {
    var n: nat :| Shape(p, t, n);
    PlugBal(p, t, n);
    PlugFits(p, t);
    var w := Plug(p, t);
    var m: nat :| Bal(w, m);
    if w.N? {
      assert Bal(w.(red := false), if w.red then m + 1 else m);
    }
  }
}
