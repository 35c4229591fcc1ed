/** Trees in memory: cells at addresses, linked as map.cc links them, and how a tree and the path to it lie
    there without sharing. */
module RbHeap {
  import opened RbTree
  import opened RbInsert

  datatype Cell = Cell(item: Pair, red: bool, left: nat, right: nat)

  type Heap = map<nat, Cell>

  const NIL: nat := 0
  const HEAD: nat := 1

  function Link(c: Cell, dir: bool): nat {
    if dir then c.right else c.left
  }

  function WithLink(c: Cell, dir: bool, v: nat): Cell {
    if dir then c.(right := v) else c.(left := v)
  }

  function Root(t: Tree): nat {
    if t.N? then t.at else NIL
  }

  function Addrs(t: Tree): set<nat> {
    match t
    case E => {}
    case N(at, _, _, l, r) => {at} + Addrs(l) + Addrs(r)
  }

  function CellOf(t: Tree): Cell
    requires t.N?
  {
    Cell(t.item, t.red, Root(t.left), Root(t.right))
  }

  predicate In(h: Heap, t: Tree) {
    match t
    case E => true
    case N(at, _, _, l, r) => at > HEAD && at in h && h[at] == CellOf(t) && In(h, l) && In(h, r)
  }

  predicate Distinct(t: Tree) {
    match t
    case E => true
    case N(at, _, _, l, r) => at !in Addrs(l) && at !in Addrs(r) && Addrs(l) !! Addrs(r) && Distinct(l) && Distinct(r)
  }

  function PathAddrs(p: Path): set<nat> {
    match p
    case Top => {HEAD}
    case Step(at, _, _, _, other, up) => {at} + Addrs(other) + PathAddrs(up)
  }

  /** The node the subtree hangs from. */
  function Above(p: Path): nat {
    if p.Step? then p.at else HEAD
  }

  /** The side it hangs on. */
  function Side(p: Path): bool {
    p.Top? || p.dir
  }

  function FrameCell(p: Path, child: nat): Cell
    requires p.Step?
  {
    if p.dir then Cell(p.item, p.red, Root(p.other), child) else Cell(p.item, p.red, child, Root(p.other))
  }

  predicate InPath(h: Heap, p: Path, child: nat) {
    match p
    case Top => HEAD in h && h[HEAD].right == child && h[HEAD].left == NIL
    case Step(at, _, _, _, other, up) =>
        at > HEAD && at in h && h[at] == FrameCell(p, child) && In(h, other) && InPath(h, up, at)
  }

  predicate DistinctPath(p: Path) {
    match p
    case Top => true
    case Step(at, _, _, _, other, up) =>
      at !in Addrs(other) && at !in PathAddrs(up) && Addrs(other) !! PathAddrs(up) && Distinct(other)
        && DistinctPath(up)
  }

  /** The path and the subtree lie in memory. */
  predicate Zip(h: Heap, p: Path, t: Tree) {
    InPath(h, p, Root(t)) && In(h, t) && DistinctPath(p) && Distinct(t) && PathAddrs(p) !! Addrs(t)
  }

  // ---- frames ----

  predicate Agree(h: Heap, g: Heap, s: set<nat>) {
    forall a :: a in s && a in h ==> a in g && g[a] == h[a]
  }

  lemma {:induction false} InAgree(h: Heap, g: Heap, t: Tree)
    requires In(h, t) && Agree(h, g, Addrs(t))
    ensures In(g, t)
    decreases t
  {
    if t.N? {
      InAgree(h, g, t.left);
      InAgree(h, g, t.right);
    }
  }

  lemma {:induction false} PathAgree(h: Heap, g: Heap, p: Path, child: nat)
    requires InPath(h, p, child) && Agree(h, g, PathAddrs(p))
    ensures InPath(g, p, child)
    decreases p
  {
    if p.Step? {
      InAgree(h, g, p.other);
      PathAgree(h, g, p.up, p.at);
    }
  }

  lemma {:induction false} InNotHead(h: Heap, t: Tree)
    requires In(h, t)
    ensures HEAD !in Addrs(t) && NIL !in Addrs(t) && forall a :: a in Addrs(t) ==> a in h
    decreases t
  {
    if t.N? {
      InNotHead(h, t.left);
      InNotHead(h, t.right);
    }
  }

  lemma {:induction false} PathInHeap(h: Heap, p: Path, child: nat)
    requires InPath(h, p, child)
    ensures Above(p) in PathAddrs(p) && Above(p) in h && NIL !in PathAddrs(p)
        && forall a :: a in PathAddrs(p) ==> a in h
    decreases p
  {
    if p.Step? {
      InNotHead(h, p.other);
      PathInHeap(h, p.up, p.at);
    }
  }

  /** Everything the change leaves alone except where the subtree hangs. */
  lemma PathRelink(h: Heap, g: Heap, p: Path, child: nat, now: nat)
    requires InPath(h, p, child) && DistinctPath(p) && Agree(h, g, PathAddrs(p) - {Above(p)})
    requires Above(p) in g && g[Above(p)] == WithLink(h[Above(p)], Side(p), now)
    ensures InPath(g, p, now)
  {
    if p.Step? {
      InAgree(h, g, p.other);
      PathAgree(h, g, p.up, p.at);
    }
  }

  lemma ZipDown(h: Heap, p: Path, t: Tree, dir: bool)
    requires Zip(h, p, t) && t.N?
    ensures Zip(h, Down(t, dir, p), Child(t, dir))
  {
  }

  /** Up to the whole tree. */
  lemma {:induction false} ZipWhole(h: Heap, p: Path, t: Tree)
    requires Zip(h, p, t)
    ensures Zip(h, Top, Plug(p, t))
    decreases p
  {
    if p.Step? {
      ZipWhole(h, p.up, Make(p.at, p.red, p.item, p.dir, t, p.other));
    }
  }

  // ---- changing cells ----

  function SetLink(h: Heap, a: nat, dir: bool, v: nat): (g: Heap)
    requires a in h
    ensures g.Keys == h.Keys
  {
    h[a := WithLink(h[a], dir, v)]
  }

  function SetRed(h: Heap, a: nat, red: bool): (g: Heap)
    requires a in h
    ensures g.Keys == h.Keys
  {
    h[a := h[a].(red := red)]
  }

  /** rbsingle. */
  function Single(h: Heap, root: nat, dir: bool): (g: Heap)
    requires root in h && Link(h[root], !dir) in h
    ensures g.Keys == h.Keys
  {
    var save := Link(h[root], !dir);
    var h1 := SetLink(h, root, !dir, Link(h[save], dir));
    SetRed(SetRed(SetLink(h1, save, dir, root), root, true), save, false)
  }

  lemma SingleIs(h: Heap, root: nat, dir: bool)
    requires root in h && Link(h[root], !dir) in h && Link(h[root], !dir) != root
    ensures var save := Link(h[root], !dir);
            Single(h, root, dir)
            == h[root := WithLink(h[root], !dir, Link(h[save], dir)).(red := true)][save :=
              WithLink(h[save], dir, root).(red := false)]
  {
  }

  /** rbdouble. */
  predicate CanDouble(h: Heap, root: nat, dir: bool) {
    && root in h && Link(h[root], !dir) in h && Link(h[Link(h[root], !dir)], dir) in h
    && var s := Link(h[root], !dir); var x := Link(h[s], dir); root != s && root != x && s != x
  }

  function Double(h: Heap, root: nat, dir: bool): (g: Heap)
    requires CanDouble(h, root, dir)
    ensures g.Keys == h.Keys
  {
    var s := Link(h[root], !dir);
    Single(SetLink(Single(h, s, !dir), root, !dir, Link(h[s], dir)), root, dir)
  }

  lemma DoubleIs(h: Heap, root: nat, dir: bool)
    requires CanDouble(h, root, dir)
    ensures var s := Link(h[root], !dir);
            var x := Link(h[s], dir);
            Double(h, root, dir)
            == h[root := WithLink(h[root], !dir, Link(h[x], dir)).(red := true)]
               [s := WithLink(h[s], dir, Link(h[x], !dir)).(red := true)]
               [x := WithLink(WithLink(h[x], !dir, s), dir, root).(red := false)]
  {
    var s := Link(h[root], !dir);
    var x := Link(h[s], dir);
    SingleIs(h, s, !dir);
    var h1 := Single(h, s, !dir);
    var h2 := SetLink(h1, root, !dir, x);
    assert h2[root] == WithLink(h[root], !dir, x);
    assert h2[x] == WithLink(h[x], !dir, s).(red := false);
    SingleIs(h2, root, dir);
  }

  // ---- what rotations do to a tree ----

  /** Rotated towards dir: the child on the other side comes up, black, and the root goes down, red. */
  function Rotated(t: Tree, dir: bool): (r: Tree)
    requires t.N? && Child(t, !dir).N?
    ensures r.N?
  {
    var s := Child(t, !dir);
    Make(s.at, false, s.item, dir, Make(t.at, true, t.item, dir, Child(t, dir), Child(s, dir)), Child(s, !dir))
  }

  /** rbsingle turns the tree it is called for, keeps its items in order and touches nothing else. */
  lemma SingleTurns(h: Heap, t: Tree, dir: bool)
    requires In(h, t) && Distinct(t) && t.N? && Child(t, !dir).N?
    ensures t.at in h && Link(h[t.at], !dir) in h && Link(h[t.at], !dir) == Rotated(t, dir).at
    ensures In(Single(h, t.at, dir), Rotated(t, dir)) && Only(h, Single(h, t.at, dir), Addrs(t))
    ensures Items(Rotated(t, dir)) == Items(t) && Addrs(Rotated(t, dir)) == Addrs(t) && Distinct(Rotated(t, dir))
  {
    var s := Child(t, !dir);
    SingleIs(h, t.at, dir);
    var g := Single(h, t.at, dir);
    InNotHead(h, t);
    InAgree(h, g, Child(t, dir));
    InAgree(h, g, Child(s, dir));
    InAgree(h, g, Child(s, !dir));
    RotatedItems(t, dir);
  }

  lemma RotatedItems(t: Tree, dir: bool)
    requires t.N? && Child(t, !dir).N? && Distinct(t)
    ensures Items(Rotated(t, dir)) == Items(t) && Addrs(Rotated(t, dir)) == Addrs(t) && Distinct(Rotated(t, dir))
  {
    var s := Child(t, !dir);
    var a, b, c := Items(Child(t, dir)), Items(Child(s, dir)), Items(Child(s, !dir));
    if dir {
      assert c + [s.item] + b + [t.item] + a == c + [s.item] + (b + [t.item] + a);
    } else {
      assert a + [t.item] + b + [s.item] + c == a + [t.item] + (b + [s.item] + c);
    }
  }

  /** Rotated twice: the grandchild in the middle comes up over both. */
  function RotatedTwice(t: Tree, dir: bool): (r: Tree)
    requires t.N? && Child(t, !dir).N? && Child(Child(t, !dir), dir).N?
    ensures r.N?
  {
    var s := Child(t, !dir);
    var x := Child(s, dir);
    Make(x.at, false, x.item, dir, Make(t.at, true, t.item, dir, Child(t, dir), Child(x, dir)),
         Make(s.at, true, s.item, dir, Child(x, !dir), Child(s, !dir)))
  }

  lemma DoubleTurns(h: Heap, t: Tree, dir: bool)
    requires In(h, t) && Distinct(t) && t.N? && Child(t, !dir).N? && Child(Child(t, !dir), dir).N?
    ensures CanDouble(h, t.at, dir) && Link(h[Link(h[t.at], !dir)], dir) == RotatedTwice(t, dir).at
    ensures In(Double(h, t.at, dir), RotatedTwice(t, dir)) && Only(h, Double(h, t.at, dir), Addrs(t))
    ensures Items(RotatedTwice(t, dir)) == Items(t) && Addrs(RotatedTwice(t, dir)) == Addrs(t)
  {
    hide Double, Items;
    TwiceNodes(h, t, dir);
    DoubleIs(h, t.at, dir);
    DoubleLands(h, Double(h, t.at, dir), t, dir);
    RotatedTwiceItems(t, dir);
  }

  /** Where the nodes are before a double rotation. */
  lemma TwiceNodes(h: Heap, t: Tree, dir: bool)
    requires In(h, t) && Distinct(t) && t.N? && Child(t, !dir).N? && Child(Child(t, !dir), dir).N?
    ensures CanDouble(h, t.at, dir) && Link(h[t.at], !dir) == Child(t, !dir).at
    ensures Link(h[Link(h[t.at], !dir)], dir) == Child(Child(t, !dir), dir).at
  {
    var s := Child(t, !dir);
    var x := Child(s, dir);
    assert In(h, s) && In(h, x) && Distinct(s);
    assert x.at in Addrs(s) && s.at in Addrs(s);
  }

  lemma DoubleLands(h: Heap, g: Heap, t: Tree, dir: bool)
    requires In(h, t) && Distinct(t) && t.N? && Child(t, !dir).N? && Child(Child(t, !dir), dir).N?
    requires CanDouble(h, t.at, dir) && Link(h[t.at], !dir) == Child(t, !dir).at
        && Link(h[Child(t, !dir).at], dir) == Child(Child(t, !dir), dir).at
    requires var s, x := Child(t, !dir).at, Child(Child(t, !dir), dir).at;
             g == h[t.at := WithLink(h[t.at], !dir, Link(h[x], dir)).(red := true)]
                   [s := WithLink(h[s], dir, Link(h[x], !dir)).(red := true)]
                   [x := WithLink(WithLink(h[x], !dir, s), dir, t.at).(red := false)]
    ensures In(g, RotatedTwice(t, dir)) && Only(h, g, Addrs(t))
  {
    var s := Child(t, !dir);
    var x := Child(s, dir);
    var a, b, c, d := Child(t, dir), Child(x, dir), Child(x, !dir), Child(s, !dir);
    assert In(h, s) && In(h, x) && Distinct(s) && Distinct(x);
    FourApart(t, dir);
    InAgree(h, g, a);
    InAgree(h, g, b);
    InAgree(h, g, c);
    InAgree(h, g, d);
  }

  lemma FourApart(t: Tree, dir: bool)
    requires Distinct(t) && t.N? && Child(t, !dir).N? && Child(Child(t, !dir), dir).N?
    ensures var s := Child(t, !dir);
            var x := Child(s, dir);
            && {t.at, s.at, x.at} !! Addrs(Child(t, dir)) && {t.at, s.at, x.at} !! Addrs(Child(x, dir))
            && {t.at, s.at, x.at} !! Addrs(Child(x, !dir)) && {t.at, s.at, x.at} !! Addrs(Child(s, !dir))
            && t.at in Addrs(t) && s.at in Addrs(t) && x.at in Addrs(t)
  {
    var s := Child(t, !dir);
    var x := Child(s, dir);
    assert Addrs(t) == {t.at} + Addrs(Child(t, dir)) + Addrs(s);
    assert Addrs(s) == {s.at} + Addrs(x) + Addrs(Child(s, !dir));
    assert Addrs(x) == {x.at} + Addrs(Child(x, dir)) + Addrs(Child(x, !dir));
    assert Distinct(s) && Distinct(x);
  }

  lemma RotatedTwiceItems(t: Tree, dir: bool)
    requires t.N? && Child(t, !dir).N? && Child(Child(t, !dir), dir).N?
    ensures Items(RotatedTwice(t, dir)) == Items(t) && Addrs(RotatedTwice(t, dir)) == Addrs(t)
  {
    var s := Child(t, !dir);
    var x := Child(s, dir);
    var a, b, c, d := Items(Child(t, dir)), Items(Child(x, dir)), Items(Child(x, !dir)), Items(Child(s, !dir));
    var r := RotatedTwice(t, dir);
    hide Addrs;
    if dir {
      assert Items(x) == c + [x.item] + b && Items(s) == d + [s.item] + Items(x) && Items(t) == Items(s) + [t.item] + a;
      assert Items(r.left) == d + [s.item] + c && Items(r.right) == b + [t.item] + a;
      assert d + [s.item] + c + [x.item] + (b + [t.item] + a) == d + [s.item] + (c + [x.item] + b) + [t.item] + a;
    } else {
      assert Items(x) == b + [x.item] + c && Items(s) == Items(x) + [s.item] + d && Items(t) == a + [t.item] + Items(s);
      assert Items(r.left) == a + [t.item] + b && Items(r.right) == c + [s.item] + d;
      assert a + [t.item] + b + [x.item] + (c + [s.item] + d) == a + [t.item] + (b + [x.item] + c + [s.item] + d);
    }
    RotatedTwiceAddrs(t, dir);
  }

  lemma RotatedTwiceAddrs(t: Tree, dir: bool)
    requires t.N? && Child(t, !dir).N? && Child(Child(t, !dir), dir).N?
    ensures Addrs(RotatedTwice(t, dir)) == Addrs(t)
  {
    var s := Child(t, !dir);
    var x, r := Child(s, dir), RotatedTwice(t, dir);
    assert Addrs(s) == {s.at} + Addrs(x) + Addrs(Child(s, !dir));
    assert Addrs(x) == {x.at} + Addrs(Child(x, dir)) + Addrs(Child(x, !dir));
    assert Addrs(Child(r, dir)) == {t.at} + Addrs(Child(t, dir)) + Addrs(Child(x, dir));
    assert Addrs(Child(r, !dir)) == {s.at} + Addrs(Child(x, !dir)) + Addrs(Child(s, !dir));
  }

  // ---- insertion in memory ----

  function FlipHeap(h: Heap, t: Tree): Heap
    requires TwoRed(t) && t.at in h && t.left.at in h && t.right.at in h
  {
    SetRed(SetRed(SetRed(h, t.at, true), t.left.at, false), t.right.at, false)
  }

  lemma FlipZip(h: Heap, p: Path, t: Tree)
    requires Zip(h, p, t) && TwoRed(t)
    ensures t.at in h && t.left.at in h && t.right.at in h && Zip(FlipHeap(h, t), p, Flipped(t))
  {
    var l, r := t.left, t.right;
    assert In(h, l) && In(h, r) && Distinct(l) && Distinct(r);
    assert l.at in Addrs(l) && r.at in Addrs(r);
    var g := FlipHeap(h, t);
    InAgree(h, g, l.left);
    InAgree(h, g, l.right);
    InAgree(h, g, r.left);
    InAgree(h, g, r.right);
    PathAgree(h, g, p, t.at);
    assert Addrs(Flipped(t)) == Addrs(t);
  }

  /** The new leaf is linked in. */
  lemma LeafZip(h: Heap, p: Path, at: nat, item: Pair)
    requires Zip(h, p, E) && at !in h && at > HEAD
    ensures Above(p) in h && Above(p) != at
    ensures Zip(SetLink(h[at := Cell(item, true, NIL, NIL)], Above(p), Side(p), at), p, Leaf(at, item))
  {
    PathInHeap(h, p, NIL);
    var g := SetLink(h[at := Cell(item, true, NIL, NIL)], Above(p), Side(p), at);
    PathRelink(h, g, p, NIL, at);
  }

  /** Rotations keep the nodes apart. */
  lemma SingleApart(p: Path, t: Tree)
    requires p.Step? && p.up.Step? && DistinctPath(p) && PathAddrs(p) !! Addrs(t)
    ensures DistinctPath(SinglePath(p)) && PathAddrs(SinglePath(p)) == PathAddrs(p)
  {
    var g := p.up;
    assert DistinctPath(g);
    var now := Make(g.at, true, g.item, g.dir, p.other, g.other);
    assert Addrs(now) == {g.at} + Addrs(p.other) + Addrs(g.other);
  }

  lemma DoubleApart(p: Path, t: Tree)
    requires p.Step? && p.up.Step? && t.N? && DistinctPath(p) && Distinct(t) && PathAddrs(p) !! Addrs(t)
    ensures Distinct(DoubleTree(p, t)) && DistinctPath(p.up.up) && PathAddrs(p.up.up) !! Addrs(DoubleTree(p, t))
  {
    var g, d := p.up, DoubleTree(p, t);
    assert DistinctPath(g);
    var a, b := Child(d, g.dir), Child(d, !g.dir);
    assert Addrs(a) == {p.at} + Addrs(Child(t, g.dir)) + Addrs(p.other);
    assert Addrs(b) == {g.at} + Addrs(Child(t, !g.dir)) + Addrs(g.other);
    assert Addrs(t) == {t.at} + Addrs(t.left) + Addrs(t.right);
    assert Distinct(a) && Distinct(b);
    assert Addrs(d) == {t.at} + Addrs(a) + Addrs(b);
  }

  /** Only these cells differ. */
  predicate Only(h: Heap, g: Heap, s: set<nat>) {
    forall a :: a in h && a !in s ==> a in g && g[a] == h[a]
  }

  lemma OnlyAgree(h: Heap, g: Heap, s: set<nat>, t: set<nat>)
    requires Only(h, g, s) && s !! t
    ensures Agree(h, g, t)
  {
  }

  /** Where the nodes are in memory before a single rotation. */
  lemma SinglePlaces(h: Heap, p: Path, t: Tree)
    requires Zip(h, p, t) && p.Step? && p.up.Step?
    ensures var g, last, up := p.up, p.up.dir, p.up.up;
            && g.at in h && p.at in h && Link(h[g.at], last) == p.at && Above(up) in h && Above(up) != p.at
              && Above(up) != g.at
            && h[g.at] == FrameCell(g, p.at) && h[p.at] == FrameCell(p, Root(t)) && p.at > HEAD && g.at > HEAD
              && p.at != g.at
            && InPath(h, up, g.at) && DistinctPath(up) && In(h, g.other) && In(h, p.other) && In(h, t)
            && {p.at, g.at, Above(up)} !! Addrs(g.other) && {p.at, g.at, Above(up)} !! Addrs(p.other)
            && {p.at, g.at, Above(up)} !! Addrs(t) && {p.at, g.at} !! PathAddrs(up)
  {
    var g, up := p.up, p.up.up;
    assert InPath(h, g, p.at) && InPath(h, up, g.at) && DistinctPath(g) && DistinctPath(up);
    PathInHeap(h, up, g.at);
    InNotHead(h, t);
  }

  lemma SingleCells(h: Heap, p: Path, t: Tree)
    requires p.Step? && p.up.Step? && p.dir == p.up.dir
    requires var g, last, up := p.up, p.up.dir, p.up.up;
             && g.at in h && p.at in h && Above(up) in h && Above(up) != p.at && Above(up) != g.at && p.at != g.at
             && h[g.at] == FrameCell(g, p.at) && h[p.at] == FrameCell(p, Root(t))
    ensures var g, last, up := p.up, p.up.dir, p.up.up;
            && Link(h[g.at], last) == p.at
            && var h2, s := SetLink(Single(h, g.at, !last), Above(up), Side(up), p.at), SinglePath(p);
               && Only(h, h2, {p.at, g.at, Above(up)}) && Above(up) in h2
                 && h2[Above(up)] == WithLink(h[Above(up)], Side(up), p.at)
               && g.at in h2 && p.at in h2 && h2[g.at] == CellOf(s.other) && h2[p.at] == FrameCell(s, Root(t))
  {
    SingleIs(h, p.up.at, !p.up.dir);
  }

  lemma SingleZip(h: Heap, p: Path, t: Tree)
    requires Zip(h, p, t) && t.N? && p.Step? && p.up.Step? && p.dir == p.up.dir
    ensures var g, last, up := p.up, p.up.dir, p.up.up;
            && g.at in h && Link(h[g.at], last) == p.at && p.at in h && Above(up) in h && Above(up) != p.at
              && Above(up) != g.at
            && var h1 := Single(h, g.at, !last);
               Zip(SetLink(h1, Above(up), Side(up), p.at), SinglePath(p), t)
  {
    hide Distinct, DistinctPath, Single, Addrs, PathAddrs, Only, SetLink, FrameCell, Agree;
    var g, last, up := p.up, p.up.dir, p.up.up;
    SinglePlaces(h, p, t);
    SingleApart(p, t);
    SingleCells(h, p, t);
    var h2, cut := SetLink(Single(h, g.at, !last), Above(up), Side(up), p.at), {p.at, g.at, Above(up)};
    UpRelink(h, h2, up, g.at, p.at, cut);
    OnlyAgree(h, h2, cut, Addrs(g.other));
    OnlyAgree(h, h2, cut, Addrs(p.other));
    OnlyAgree(h, h2, cut, Addrs(t));
    InAgree(h, h2, g.other);
    InAgree(h, h2, p.other);
    InAgree(h, h2, t);
    var s := SinglePath(p);
    assert In(h2, s.other);
  }

  lemma UpRelink(h: Heap, g: Heap, up: Path, child: nat, now: nat, cut: set<nat>)
    requires InPath(h, up, child) && DistinctPath(up) && Only(h, g, cut) && cut - {Above(up)} !! PathAddrs(up)
        && Above(up) in g
    requires Above(up) in h && g[Above(up)] == WithLink(h[Above(up)], Side(up), now)
    ensures InPath(g, up, now)
  {
    PathRelink(h, g, up, child, now);
  }

  /** Where the nodes are in memory before a double rotation. */
  lemma DoublePlaces(h: Heap, p: Path, t: Tree)
    requires Zip(h, p, t) && t.N? && p.Step? && p.up.Step? && p.dir != p.up.dir
    ensures var g, last, up := p.up, p.up.dir, p.up.up;
            && CanDouble(h, g.at, !last) && Link(h[g.at], last) == p.at && Link(h[p.at], !last) == t.at
            && h[g.at] == FrameCell(g, p.at) && h[p.at] == FrameCell(p, t.at) && h[t.at] == CellOf(t)
            && Above(up) in h && Above(up) != p.at && Above(up) != g.at && Above(up) != t.at
            && InPath(h, up, g.at) && DistinctPath(up) && In(h, g.other) && In(h, p.other) && In(h, t.left)
              && In(h, t.right)
            && p.at > HEAD && g.at > HEAD && t.at > HEAD
            && {p.at, g.at, t.at} !! PathAddrs(up) && {p.at, g.at, t.at, Above(up)} !! Addrs(g.other)
            && {p.at, g.at, t.at, Above(up)} !! Addrs(p.other) && {p.at, g.at, t.at, Above(up)} !! Addrs(t.left)
            && {p.at, g.at, t.at, Above(up)} !! Addrs(t.right)
  {
    var g, last, up := p.up, p.up.dir, p.up.up;
    assert InPath(h, g, p.at) && InPath(h, up, g.at) && DistinctPath(g) && DistinctPath(up);
    PathInHeap(h, up, g.at);
    InNotHead(h, t);
  }

  lemma DoubleCells(h: Heap, p: Path, t: Tree)
    requires p.Step? && p.up.Step? && t.N? && p.dir != p.up.dir && CanDouble(h, p.up.at, !p.up.dir)
    requires var g, last, up := p.up, p.up.dir, p.up.up;
             && Link(h[g.at], last) == p.at && Link(h[p.at], !last) == t.at
             && Above(up) in h && Above(up) != p.at && Above(up) != g.at && Above(up) != t.at
             && h[g.at] == FrameCell(g, p.at) && h[p.at] == FrameCell(p, t.at) && h[t.at] == CellOf(t)
    ensures var g, last, up := p.up, p.up.dir, p.up.up;
            var h2, d := SetLink(Double(h, g.at, !last), Above(up), Side(up), t.at), DoubleTree(p, t);
            && Only(h, h2, {p.at, g.at, t.at, Above(up)}) && Above(up) in h2
              && h2[Above(up)] == WithLink(h[Above(up)], Side(up), t.at)
            && g.at in h2 && p.at in h2 && t.at in h2
            && h2[t.at] == CellOf(d) && h2[p.at] == CellOf(Child(d, last)) && h2[g.at] == CellOf(Child(d, !last))
  {
    DoubleIs(h, p.up.at, !p.up.dir);
  }

  lemma DoubleZip(h: Heap, p: Path, t: Tree)
    requires Zip(h, p, t) && t.N? && p.Step? && p.up.Step? && p.dir != p.up.dir
    ensures var g, last, up := p.up, p.up.dir, p.up.up;
            && CanDouble(h, g.at, !last) && Link(h[g.at], last) == p.at && Link(h[p.at], !last) == t.at
            && Above(up) in h && Above(up) != p.at && Above(up) != g.at && Above(up) != t.at
            && Zip(SetLink(Double(h, g.at, !last), Above(up), Side(up), t.at), up, DoubleTree(p, t))
  {
    hide Distinct, DistinctPath, Double, Addrs, PathAddrs, Only, SetLink, FrameCell, Agree, InPath, CanDouble;
    var g, last, up := p.up, p.up.dir, p.up.up;
    DoublePlaces(h, p, t);
    DoubleApart(p, t);
    DoubleCells(h, p, t);
    var h2, cut, d := SetLink(Double(h, g.at, !last), Above(up), Side(up), t.at), {p.at, g.at, t.at, Above(up)},
        DoubleTree(p, t);
    UpRelink(h, h2, up, g.at, t.at, cut);
    OnlyAgree(h, h2, cut, Addrs(g.other));
    OnlyAgree(h, h2, cut, Addrs(p.other));
    OnlyAgree(h, h2, cut, Addrs(t.left));
    OnlyAgree(h, h2, cut, Addrs(t.right));
    InAgree(h, h2, g.other);
    InAgree(h, h2, p.other);
    InAgree(h, h2, t.left);
    InAgree(h, h2, t.right);
    assert In(h2, Child(d, last)) && In(h2, Child(d, !last));
  }
}
