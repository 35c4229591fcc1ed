/** The red-black tree of map.cc as a value: nodes carry the addresses they have in memory, and a path leads
    from a subtree up to the false root that rbinsert and rberase put above the tree. */
module RbTree {

  /** Keys as compare() sees them: it orders them by rank; two spellings of a rank are the same key. */
  datatype Key = Key(rank: int, spelling: nat)

  type Value = int

  datatype Pair = Pair(key: Key, value: Value)

  datatype Tree = E | N(at: nat, red: bool, item: Pair, left: Tree, right: Tree)

  /** The way from a subtree to the top: the node above it, which side the subtree is on (dir: the right
      one), the subtree on the other side, and the way on from there. */
  datatype Path = Top | Step(at: nat, red: bool, item: Pair, dir: bool, other: Tree, up: Path)

  predicate Red(t: Tree) {
    t.N? && t.red
  }

  function Make(at: nat, red: bool, item: Pair, dir: bool, child: Tree, other: Tree): Tree {
    if dir then N(at, red, item, other, child) else N(at, red, item, child, other)
  }

  /** The whole tree. */
  function Plug(p: Path, t: Tree): Tree {
    match p
    case Top => t
    case Step(at, red, item, dir, other, up) => Plug(up, Make(at, red, item, dir, t, other))
  }

  function Child(t: Tree, dir: bool): Tree
    requires t.N?
  {
    if dir then t.right else t.left
  }

  /** Go down from t. */
  function Down(t: Tree, dir: bool, p: Path): Path
    requires t.N?
  {
    Step(t.at, t.red, t.item, dir, Child(t, !dir), p)
  }

  lemma DownPlugs(t: Tree, dir: bool, p: Path)
    requires t.N?
    ensures Plug(Down(t, dir, p), Child(t, dir)) == Plug(p, t)
  {
  }

  // ---- contents ----

  function Items(t: Tree): seq<Pair> {
    match t
    case E => []
    case N(_, _, item, l, r) => Items(l) + [item] + Items(r)
  }

  /** What comes before and after the subtree. */
  function Before(p: Path): seq<Pair> {
    match p
    case Top => []
    case Step(_, _, item, dir, other, up) => if dir then Before(up) + Items(other) + [item] else Before(up)
  }

  function After(p: Path): seq<Pair> {
    match p
    case Top => []
    case Step(_, _, item, dir, other, up) => if dir then After(up) else [item] + Items(other) + After(up)
  }

  lemma {:induction false} ItemsPlug(p: Path, t: Tree)
    ensures Items(Plug(p, t)) == Before(p) + Items(t) + After(p)
    decreases p
  {
    match p
    case Top => assert [] + Items(t) + [] == Items(t);
    case Step(at, red, item, dir, other, up) =>
      ItemsPlug(up, Make(at, red, item, dir, t, other));
      Regroup(Before(up), Items(other), item, Items(t), After(up));
      Regroup(Before(up), Items(t), item, Items(other), After(up));
  }

  lemma Regroup(a: seq<Pair>, b: seq<Pair>, x: Pair, c: seq<Pair>, d: seq<Pair>)
    ensures a + (b + [x] + c) + d == a + b + [x] + c + d == a + b + ([x] + c + d)
  {
  }

  predicate Sorted(s: seq<Pair>) {
    forall i, j :: 0 <= i < j < |s| ==> s[i].key.rank < s[j].key.rank
  }

  predicate AllBelow(s: seq<Pair>, rank: int) {
    forall i :: 0 <= i < |s| ==> s[i].key.rank < rank
  }

  predicate AllAbove(s: seq<Pair>, rank: int) {
    forall i :: 0 <= i < |s| ==> s[i].key.rank > rank
  }

  predicate Absent(s: seq<Pair>, rank: int) {
    forall i :: 0 <= i < |s| ==> s[i].key.rank != rank
  }

  // ---- colours and black height ----

  /** Every way down has n black nodes. */
  predicate Bal(t: Tree, n: nat) {
    match t
    case E => n == 0
    case N(_, red, _, l, r) => if red then Bal(l, n) && Bal(r, n) else n > 0 && Bal(l, n - 1) && Bal(r, n - 1)
  }

  predicate NoRedRed(t: Tree) {
    match t
    case E => true
    case N(_, red, _, l, r) => (red ==> !Red(l) && !Red(r)) && NoRedRed(l) && NoRedRed(r)
  }

  /** A subtree with n black nodes on every way down fits here. */
  predicate PathBal(p: Path, n: nat) {
    match p
    case Top => true
    case Step(_, red, _, _, other, up) => Bal(other, n) && PathBal(up, if red then n else n + 1)
  }

  /** A subtree of this colour fits here. */
  predicate PathFits(p: Path, red: bool) {
    match p
    case Top => true
    case Step(_, r, _, _, other, up) => (r ==> !red && !Red(other)) && NoRedRed(other) && PathFits(up, r)
  }

  ghost predicate Balanced(t: Tree) {
    exists n: nat :: Bal(t, n)
  }

  /** What rbinsert and rberase leave behind. */
  ghost predicate RedBlack(t: Tree) {
    Balanced(t) && NoRedRed(t) && !Red(t)
  }

  lemma {:induction false} PlugBal(p: Path, t: Tree, n: nat)
    requires PathBal(p, n) && Bal(t, n)
    ensures Balanced(Plug(p, t))
    decreases p
  {
    match p
    case Top =>
    case Step(at, red, item, dir, other, up) =>
      PlugBal(up, Make(at, red, item, dir, t, other), if red then n else n + 1);
  }

  lemma {:induction false} PlugFits(p: Path, t: Tree)
    requires PathFits(p, Red(t)) && NoRedRed(t)
    ensures NoRedRed(Plug(p, t))
    decreases p
  {
    match p
    case Top =>
    case Step(at, red, item, dir, other, up) =>
      PlugFits(up, Make(at, red, item, dir, t, other));
  }

  lemma {:induction false} BalUnique(t: Tree, n: nat, m: nat)
    requires Bal(t, n) && Bal(t, m)
    ensures n == m
    decreases t
  {
    if t.N? {
      BalUnique(t.left, if t.red then n else n - 1, if t.red then m else m - 1);
    }
  }

  function Size(t: Tree): nat {
    match t
    case E => 0
    case N(_, _, _, l, r) => Size(l) + 1 + Size(r)
  }

  lemma {:induction false} SizeItems(t: Tree)
    ensures Size(t) == |Items(t)|
    decreases t
  {
    if t.N? {
      SizeItems(t.left);
      SizeItems(t.right);
    }
  }

  // ---- height ----

  function Height(t: Tree): nat {
    match t
    case E => 0
    case N(_, _, _, l, r) => 1 + if Height(l) > Height(r) then Height(l) else Height(r)
  }

  function Pow2(n: nat): (r: nat)
    ensures r >= 1
  {
    if n == 0 then 1 else 2 * Pow2(n - 1)
  }

  /** Red nodes at most double the height. */
  lemma {:induction false} HeightBlack(t: Tree, n: nat)
    requires Bal(t, n) && NoRedRed(t)
    ensures Height(t) <= 2 * n + if Red(t) then 1 else 0
    decreases t
  {
    if t.N? {
      var m := if t.red then n else n - 1;
      HeightBlack(t.left, m);
      HeightBlack(t.right, m);
    }
  }

  lemma {:induction false} SizeBlack(t: Tree, n: nat)
    requires Bal(t, n)
    ensures Size(t) + 1 >= Pow2(n)
    decreases t
  {
    if t.N? {
      var m := if t.red then n else n - 1;
      SizeBlack(t.left, m);
      SizeBlack(t.right, m);
    }
  }

  lemma {:induction false} Pow2Grows(a: nat, b: nat)
    requires a < b
    ensures 2 * Pow2(a) <= Pow2(b)
    decreases b
  {
    if a < b - 1 {
      Pow2Grows(a, b - 1);
    }
  }

  lemma Pow2Of32()
    ensures Pow2(32) == 0x1_0000_0000
  {
    assert Pow2(8) == 0x100;
    assert Pow2(16) == 0x1_0000;
    assert Pow2(24) == 0x100_0000;
  }

  /** A tree of fewer than 2^32 - 1 nodes is less than 64 high. */
  lemma HeightLimit(t: Tree)
    requires RedBlack(t) && Size(t) < 0xffff_ffff
    ensures Height(t) < 64
  {
    var n: nat :| Bal(t, n);
    HeightBlack(t, n);
    SizeBlack(t, n);
    Pow2Of32();
    if n >= 32 {
      if n > 32 {
        Pow2Grows(32, n);
      }
      assert false;
    }
  }
}
