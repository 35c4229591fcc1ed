/** The object graph that the cycle collector walks (garbage.cc), as values: a node is an index, its
    children are listed with repetitions, and green nodes are never entered.  Everything the passes
    are later proved against is defined here: how many references a set of nodes holds to a node, and
    which nodes can be reached. */
module CycleGraph {

  datatype Color = Green | Yellow | Black | Gray | White | Purple | Pink

  type Graph = seq<seq<nat>>

  predicate WellFormed(g: Graph) {
    forall u, i :: 0 <= u < |g| && 0 <= i < |g[u]| ==> g[u][i] < |g|
  }

  /** How often x occurs among s. */
  function Count(s: seq<nat>, x: nat): nat {
    if s == [] then 0 else Count(s[..|s| - 1], x) + if s[|s| - 1] == x then 1 else 0
  }

  /** References to x held by the nodes of holders with an index below n. */
  function InBelow(g: Graph, n: nat, holders: set<nat>, x: nat): nat
    requires n <= |g|
  {
    if n == 0 then 0
    else InBelow(g, n - 1, holders, x) + if n - 1 in holders then Count(g[n - 1], x) else 0
  }

  /** References to x held by the nodes of holders. */
  function In(g: Graph, holders: set<nat>, x: nat): nat {
    InBelow(g, |g|, holders, x)
  }

  /** The indices below n. */
  function Below(n: nat): (r: set<nat>)
    ensures forall x: nat :: x in r <==> x < n
  {
    if n == 0 then {} else Below(n - 1) + {n - 1}
  }

  function Elements(s: seq<nat>): (r: set<nat>)
    ensures forall x :: x in r <==> x in s
  {
    set x | x in s
  }

  /** The nodes painted c. */
  function Painted(color: seq<Color>, c: Color): (r: set<nat>)
    ensures forall x: nat :: x in r <==> x < |color| && color[x] == c
  {
    set x | x in Below(|color|) && color[x] == c
  }

  function Greens(color: seq<Color>): set<nat> {
    Painted(color, Green)
  }

  /** k is a child of u that the collector enters. */
  predicate Edge(g: Graph, green: set<nat>, u: nat, k: nat) {
    u < |g| && k in g[u] && k !in green
  }

  ghost predicate Path(g: Graph, green: set<nat>, p: seq<nat>) {
    |p| > 0 && forall i :: 0 <= i < |p| - 1 ==> Edge(g, green, p[i], p[i + 1])
  }

  ghost predicate Connects(g: Graph, green: set<nat>, p: seq<nat>, from: set<nat>, x: nat) {
    Path(g, green, p) && p[0] in from && p[|p| - 1] == x
  }

  ghost predicate Reaches(g: Graph, green: set<nat>, from: set<nat>, x: nat) {
    exists p :: Connects(g, green, p, from, x)
  }

  /** Everything reachable from a set of nodes, the set included. */
  ghost function Reach(g: Graph, green: set<nat>, from: set<nat>): set<nat> {
    set x: nat | x < |g| && Reaches(g, green, from, x)
  }

  ghost predicate Closed(g: Graph, green: set<nat>, s: set<nat>) {
    forall u, k :: u in s && Edge(g, green, u, k) ==> k in s
  }

  // ---- counting ----

  lemma {:induction false} CountZero(s: seq<nat>, x: nat)
    ensures Count(s, x) == 0 <==> x !in s
  {
    if s != [] {
      CountZero(s[..|s| - 1], x);
      assert s == s[..|s| - 1] + [s[|s| - 1]];
    }
  }

  lemma {:induction false} InBelowUnion(g: Graph, n: nat, a: set<nat>, b: set<nat>, x: nat)
    requires n <= |g| && a !! b
    ensures InBelow(g, n, a + b, x) == InBelow(g, n, a, x) + InBelow(g, n, b, x)
  {
    if n > 0 {
      InBelowUnion(g, n - 1, a, b, x);
    }
  }

  lemma InUnion(g: Graph, a: set<nat>, b: set<nat>, x: nat)
    requires a !! b
    ensures In(g, a + b, x) == In(g, a, x) + In(g, b, x)
  {
    InBelowUnion(g, |g|, a, b, x);
  }

  lemma {:induction false} InBelowSingle(g: Graph, n: nat, u: nat, x: nat)
    requires n <= |g|
    ensures InBelow(g, n, {u}, x) == if u < n then Count(g[u], x) else 0
  {
    if n > 0 {
      InBelowSingle(g, n - 1, u, x);
    }
  }

  lemma InSingle(g: Graph, u: nat, x: nat)
    requires u < |g|
    ensures In(g, {u}, x) == Count(g[u], x)
  {
    InBelowSingle(g, |g|, u, x);
  }

  lemma {:induction false} InBelowEmpty(g: Graph, n: nat, x: nat)
    requires n <= |g|
    ensures InBelow(g, n, {}, x) == 0
  {
    if n > 0 {
      InBelowEmpty(g, n - 1, x);
    }
  }

  lemma {:induction false} InBelowPositive(g: Graph, n: nat, holders: set<nat>, x: nat) returns (u: nat)
    requires n <= |g| && InBelow(g, n, holders, x) > 0
    ensures u < n && u in holders && x in g[u]
  {
    if n - 1 in holders && Count(g[n - 1], x) > 0 {
      CountZero(g[n - 1], x);
      u := n - 1;
    } else {
      u := InBelowPositive(g, n - 1, holders, x);
    }
  }

  lemma {:induction false} InBelowHolder(g: Graph, n: nat, holders: set<nat>, u: nat, x: nat)
    requires u < n <= |g| && u in holders && x in g[u]
    ensures InBelow(g, n, holders, x) > 0
  {
    if u == n - 1 {
      CountZero(g[u], x);
    } else {
      InBelowHolder(g, n - 1, holders, u, x);
    }
  }

  /** A node is referenced by a set exactly when some member lists it as a child. */
  lemma InZero(g: Graph, holders: set<nat>, x: nat)
    ensures In(g, holders, x) == 0 <==> forall u :: u in holders && u < |g| ==> x !in g[u]
  {
    if In(g, holders, x) > 0 {
      var _ := InBelowPositive(g, |g|, holders, x);
    }
    forall u | u in holders && u < |g| && x in g[u]
      ensures In(g, holders, x) > 0
    {
      InBelowHolder(g, |g|, holders, u, x);
    }
  }

  lemma InMonotone(g: Graph, a: set<nat>, b: set<nat>, x: nat)
    requires a <= b
    ensures In(g, a, x) <= In(g, b, x)
  {
    InUnion(g, a, b - a, x);
    assert a + (b - a) == b;
  }

  // ---- reachability ----

  lemma ReachIncludes(g: Graph, green: set<nat>, from: set<nat>, x: nat)
    requires x in from && x < |g|
    ensures x in Reach(g, green, from)
  {
    assert Connects(g, green, [x], from, x);
  }

  lemma ReachStep(g: Graph, green: set<nat>, from: set<nat>, u: nat, k: nat)
    requires WellFormed(g) && u in Reach(g, green, from) && Edge(g, green, u, k)
    ensures k in Reach(g, green, from)
  {
    var p :| Connects(g, green, p, from, u);
    var q := p + [k];
    assert forall i :: 0 <= i < |q| - 1 ==> Edge(g, green, q[i], q[i + 1]) by {
      forall i | 0 <= i < |q| - 1
        ensures Edge(g, green, q[i], q[i + 1])
      {
        if i < |p| - 1 {
          assert Edge(g, green, p[i], p[i + 1]);
        }
      }
    }
    assert Connects(g, green, q, from, k);
  }

  lemma ReachClosed(g: Graph, green: set<nat>, from: set<nat>)
    requires WellFormed(g)
    ensures Closed(g, green, Reach(g, green, from))
  {
    forall u, k | u in Reach(g, green, from) && Edge(g, green, u, k)
      ensures k in Reach(g, green, from)
    {
      ReachStep(g, green, from, u, k);
    }
  }

  lemma {:induction false} PathStays(g: Graph, green: set<nat>, p: seq<nat>, s: set<nat>)
    requires Path(g, green, p) && p[0] in s && Closed(g, green, s)
    ensures p[|p| - 1] in s
    decreases |p|
  {
    if |p| > 1 {
      assert Edge(g, green, p[0], p[1]);
      var q := p[1..];
      forall i | 0 <= i < |q| - 1
        ensures Edge(g, green, q[i], q[i + 1])
      {
        assert Edge(g, green, p[i + 1], p[i + 2]);
      }
      PathStays(g, green, q, s);
    }
  }

  /** A closed set that holds the starting nodes holds everything they reach. */
  lemma ReachLeast(g: Graph, green: set<nat>, from: set<nat>, s: set<nat>)
    requires from <= s && Closed(g, green, s)
    ensures Reach(g, green, from) <= s
  {
    forall x | x in Reach(g, green, from)
      ensures x in s
    {
      var p :| Connects(g, green, p, from, x);
      PathStays(g, green, p, s);
    }
  }

  /** A node reached from elsewhere is somebody's child. */
  lemma ReachHolder(g: Graph, green: set<nat>, from: set<nat>, x: nat)
    requires WellFormed(g) && x in Reach(g, green, from) && x !in from
    ensures In(g, Below(|g|), x) > 0
  {
    var p :| Connects(g, green, p, from, x);
    var u := p[|p| - 2];
    assert Edge(g, green, p[|p| - 2], p[|p| - 1]);
    InZero(g, Below(|g|), x);
  }

  /** Starting from reachable nodes leads nowhere new. */
  lemma ReachMonotone(g: Graph, green: set<nat>, a: set<nat>, b: set<nat>)
    requires WellFormed(g) && a <= Reach(g, green, b)
    ensures Reach(g, green, a) <= Reach(g, green, b)
  {
    ReachClosed(g, green, b);
    ReachLeast(g, green, a, Reach(g, green, b));
  }

  // ---- what a collection is meant to find ----

  /** The listed nodes that have colour c. */
  function RootsOf(c: Color, color: seq<Color>, roots: seq<nat>): (r: set<nat>)
    ensures forall x :: x in r <==> x in roots && x < |color| && color[x] == c
  {
    set x | x in roots && x < |color| && color[x] == c
  }

  /** The nodes that a collection examines. */
  ghost function Suspects(g: Graph, color: seq<Color>, roots: seq<nat>): set<nat> {
    Reach(g, Greens(color), RootsOf(Purple, color, roots))
  }

  /** The examined nodes with more references than the examined nodes themselves hold. */
  ghost function Held(g: Graph, rc: seq<int>, s: set<nat>): (r: set<nat>)
    ensures forall x :: x in r <==> x in s && x < |rc| && rc[x] > In(g, s, x)
  {
    set x | x in s && x < |rc| && rc[x] > In(g, s, x)
  }

  /** The examined nodes kept alive from outside. */
  ghost function Live(g: Graph, color: seq<Color>, rc: seq<int>, roots: seq<nat>): set<nat> {
    var s := Suspects(g, color, roots);
    Reach(g, Greens(color), Held(g, rc, s))
  }

  /** Cyclic garbage: examined, and not kept alive from outside. */
  ghost function Garbage(g: Graph, color: seq<Color>, rc: seq<int>, roots: seq<nat>): set<nat> {
    Suspects(g, color, roots) - Live(g, color, rc, roots)
  }

  /** What the later passes walk: the garbage and whatever it still refers to. */
  ghost function Swept(g: Graph, color: seq<Color>, rc: seq<int>, roots: seq<nat>): set<nat> {
    Reach(g, Greens(color), Garbage(g, color, rc, roots))
  }
}
