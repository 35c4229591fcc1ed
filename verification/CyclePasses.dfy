/** Step-by-step facts about the recursive passes of garbage.cc: what a call has done so far and how
    visiting one more child changes it.  The passes themselves are in CycleCollector. */
module CyclePasses {
  import opened CycleGraph

  /** Every node of s has been repainted, nothing else has. */
  ghost predicate Repainted(before: seq<Color>, after: seq<Color>, s: set<nat>, c: Color) {
    && |before| == |after|
    && (forall x :: x in s ==> x < |before| && before[x] != Green)
    && (forall x: nat :: x < |before| ==> after[x] == if x in s then c else before[x])
  }

  function Signed(up: bool, n: nat): int {
    if up then n else 0 - n
  }

  /** addref or delref of k. */
  function Nudged(rc: seq<int>, k: nat, up: bool): seq<int>
    requires k < |rc|
  {
    rc[k := rc[k] + if up then 1 else -1]
  }

  /** Each reference held by a node of s has been added to, or taken off, its target's count. */
  ghost predicate Shifted(g: Graph, green: set<nat>, up: bool, before: seq<int>, after: seq<int>, s: set<nat>) {
    && |before| == |after| == |g|
    && (forall x: nat :: x < |g| ==>
          after[x] == if x in green then before[x] else before[x] + Signed(up, In(g, s, x)))
  }

  /** All children that the collector enters of the nodes of s have colour c. */
  ghost predicate KidsPainted(g: Graph, green: set<nat>, color: seq<Color>, s: set<nat>, c: Color)
    requires |color| == |g|
  {
    forall u, k: nat :: u in s && Edge(g, green, u, k) && k < |g| ==> color[k] == c
  }

  ghost predicate Sized(g: Graph, color: seq<Color>, rc: seq<int>) {
    WellFormed(g) && |color| == |rc| == |g|
  }

  /** What a completed flood of colour c from v has done: s are the nodes it painted. */
  ghost predicate Flooded(g: Graph, c: Color, up: bool, v: nat, c0: seq<Color>, r0: seq<int>, c1: seq<Color>,
      r1: seq<int>, s: set<nat>) {
    && c != Green
    && Sized(g, c0, r0) && Sized(g, c1, r1)
    && v < |g| && c1[v] == c
    && Repainted(c0, c1, s, c)
    && (forall x :: x in s ==> c0[x] != c)
    && Shifted(g, Greens(c0), up, r0, r1, s)
    && s <= Reach(g, Greens(c0), {v})
    && KidsPainted(g, Greens(c0), c1, s, c)
  }

  /** The flood from v has dealt with the first i children of v. */
  ghost predicate Flooding(g: Graph, c: Color, up: bool, v: nat, i: nat, c0: seq<Color>, r0: seq<int>, c1: seq<Color>,
      r1: seq<int>, s: set<nat>) {
    && c != Green
    && Sized(g, c0, r0) && Sized(g, c1, r1)
    && v < |g| && i <= |g[v]| && v !in s
    && Repainted(c0, c1, s + {v}, c)
    && (forall x :: x in s + {v} ==> c0[x] != c)
    && (forall x: nat :: x < |g| ==>
          r1[x] == if x in Greens(c0) then r0[x] else r0[x] + Signed(up, In(g, s, x) + Count(g[v][..i], x)))
    && s <= Reach(g, Greens(c0), {v})
    && KidsPainted(g, Greens(c0), c1, s, c)
    && (forall j :: 0 <= j < i && g[v][j] !in Greens(c0) ==> c1[g[v][j]] == c)
  }

  lemma NoHolders(g: Graph)
    ensures forall x: nat :: In(g, {}, x) == 0
  {
    forall x: nat
      ensures In(g, {}, x) == 0
    {
      InBelowEmpty(g, |g|, x);
    }
  }

  lemma SizedBounds(g: Graph, color: seq<Color>, rc: seq<int>)
    requires Sized(g, color, rc)
    ensures |color| == |rc| == |g| && WellFormed(g)
  {
  }

  lemma FloodedAlready(g: Graph, c: Color, up: bool, v: nat, c0: seq<Color>, r0: seq<int>)
    requires Sized(g, c0, r0) && v < |g| && c0[v] == c && c != Green
    ensures Flooded(g, c, up, v, c0, r0, c0, r0, {})
  {
    NoHolders(g);
  }

  lemma FloodedUnlessNeeded(g: Graph, c: Color, v: nat, c0: seq<Color>, r0: seq<int>)
    requires Sized(g, c0, r0) && v < |g| && c != Green
    ensures c0[v] == c ==> Flooded(g, c, true, v, c0, r0, c0, r0, {})
  {
    NoHolders(g);
  }

  lemma FloodStarts(g: Graph, c: Color, up: bool, v: nat, c0: seq<Color>, r0: seq<int>)
    requires Sized(g, c0, r0) && v < |g| && c0[v] != Green && c0[v] != c && c != Green
    ensures Flooding(g, c, up, v, 0, c0, r0, c0[v := c], r0, {})
    ensures WellFormed(g) && |c0| == |r0| == |g|
  {
    NoHolders(g);
  }

  lemma FloodSkipsGreen(g: Graph, c: Color, up: bool, v: nat, i: nat, c0: seq<Color>, r0: seq<int>, c1: seq<Color>,
      r1: seq<int>, s: set<nat>)
    requires Flooding(g, c, up, v, i, c0, r0, c1, r1, s) && i < |g[v]| && c1[g[v][i]] == Green
    ensures Flooding(g, c, up, v, i + 1, c0, r0, c1, r1, s)
  {
    assert g[v][..i + 1] == g[v][..i] + [g[v][i]];
  }

  /** The nodes that a flood of colour c can still paint. */
  function Unpainted(color: seq<Color>, c: Color): set<nat> {
    Below(|color|) - Painted(color, c)
  }

  lemma FloodingBounds(g: Graph, c: Color, up: bool, v: nat, i: nat, c0: seq<Color>, r0: seq<int>, c1: seq<Color>,
      r1: seq<int>, s: set<nat>)
    requires Flooding(g, c, up, v, i, c0, r0, c1, r1, s)
    ensures Sized(g, c1, r1) && |c1| == |r1| == |g| && v < |g| && i <= |g[v]|
    ensures i < |g[v]| ==> g[v][i] < |g|
    ensures Unpainted(c1, c) < Unpainted(c0, c)
  {
    assert v in s + {v};
    assert v in Unpainted(c0, c) && v !in Unpainted(c1, c);
  }

  lemma NudgeKeepsSize(g: Graph, color: seq<Color>, rc: seq<int>, k: nat, up: bool)
    requires Sized(g, color, rc) && k < |rc|
    ensures Sized(g, color, Nudged(rc, k, up))
    ensures Nudged(rc, k, up) == rc[k := rc[k] + if up then 1 else -1]
  {
  }

  /** One more child of v: its count moves by one, and the flood from it is absorbed. */
  lemma FloodVisitsKid(g: Graph, c: Color, up: bool, v: nat, i: nat, c0: seq<Color>, r0: seq<int>, c1: seq<Color>,
      r1: seq<int>, s: set<nat>, c2: seq<Color>, r2: seq<int>, t: set<nat>)
    requires Flooding(g, c, up, v, i, c0, r0, c1, r1, s) && i < |g[v]| && c1[g[v][i]] != Green
    requires Flooded(g, c, up, g[v][i], c1, Nudged(r1, g[v][i], up), c2, r2, t)
    ensures Flooding(g, c, up, v, i + 1, c0, r0, c2, r2, s + t)
  {
    var k, green := g[v][i], Greens(c0);
    assert Greens(c1) == green;
    assert g[v][..i + 1] == g[v][..i] + [k];
    assert Edge(g, green, v, k);
    ReachIncludes(g, green, {v}, v);
    ReachStep(g, green, {v}, v, k);
    ReachMonotone(g, green, {k}, {v});
    assert t !! s + {v};
    forall x: nat | x < |g| && x !in green
      ensures r2[x] == r0[x] + Signed(up, In(g, s + t, x) + Count(g[v][..i + 1], x))
    {
      InUnion(g, s, t, x);
    }
  }

  lemma FloodEnds(g: Graph, c: Color, up: bool, v: nat, c0: seq<Color>, r0: seq<int>, c1: seq<Color>, r1: seq<int>,
      s: set<nat>)
    requires v < |g| && Flooding(g, c, up, v, |g[v]|, c0, r0, c1, r1, s)
    ensures Flooded(g, c, up, v, c0, r0, c1, r1, s + {v})
  {
    assert g[v][..|g[v]|] == g[v];
    forall x: nat | x < |g|
      ensures In(g, s + {v}, x) == In(g, s, x) + Count(g[v], x)
    {
      InUnion(g, s, {v}, x);
      InSingle(g, v, x);
    }
    ReachIncludes(g, Greens(c0), {v}, v);
  }

  // ---- the passes over the root list: mark_roots and restore_white ----

  /** No count is below the number of references that the nodes themselves hold. */
  ghost predicate WellCounted(g: Graph, green: set<nat>, rc: seq<int>) {
    |rc| == |g| && forall x: nat :: x < |g| && x !in green ==> rc[x] >= In(g, Below(|g|), x)
  }

  /** Of the roots seen so far, those of colour from have been flooded with colour to. */
  ghost predicate RootsFlooded(g: Graph, from: Color, to: Color, up: bool, c0: seq<Color>, r0: seq<int>, seen: seq<nat>,
      kept: seq<nat>, c1: seq<Color>, r1: seq<int>, s: set<nat>) {
    var green := Greens(c0);
    && Sized(g, c0, r0) && Sized(g, c1, r1)
    && (forall x: nat :: x < |c0| ==> c0[x] != to)
    && Repainted(c0, c1, s, to) && Shifted(g, green, up, r0, r1, s)
    && KidsPainted(g, green, c1, s, to)
    && RootsOf(from, c0, seen) <= s
    && Elements(kept) <= RootsOf(from, c0, seen)
    && s <= Reach(g, green, Elements(kept))
  }

  lemma RootsFloodedStart(g: Graph, from: Color, to: Color, up: bool, c0: seq<Color>, r0: seq<int>)
    requires Sized(g, c0, r0) && forall x: nat :: x < |c0| ==> c0[x] != to
    ensures RootsFlooded(g, from, to, up, c0, r0, [], [], c0, r0, {})
  {
    NoHolders(g);
  }

  lemma KeptGrows(g: Graph, green: set<nat>, kept: seq<nat>, v: nat, s: set<nat>, t: set<nat>)
    requires WellFormed(g) && v < |g| && forall x :: x in kept ==> x < |g|
    requires s <= Reach(g, green, Elements(kept)) && t <= Reach(g, green, {v})
    ensures s + t <= Reach(g, green, Elements(kept + [v]))
  {
    var k0, k1 := Elements(kept), Elements(kept + [v]);
    ReachIncludes(g, green, k1, v);
    forall x | x in k0
      ensures x in Reach(g, green, k1)
    {
      ReachIncludes(g, green, k1, x);
    }
    ReachMonotone(g, green, k0, k1);
    ReachMonotone(g, green, {v}, k1);
  }

  lemma ShiftedTwice(g: Graph, green: set<nat>, up: bool, r0: seq<int>, r1: seq<int>, r2: seq<int>, s: set<nat>,
      t: set<nat>)
    requires Shifted(g, green, up, r0, r1, s) && Shifted(g, green, up, r1, r2, t) && s !! t
    ensures Shifted(g, green, up, r0, r2, s + t)
  {
    forall x: nat | x < |g| && x !in green
      ensures In(g, s + t, x) == In(g, s, x) + In(g, t, x)
    {
      InUnion(g, s, t, x);
    }
  }

  lemma RootsFloodedBounds(g: Graph, from: Color, to: Color, up: bool, c0: seq<Color>, r0: seq<int>, seen: seq<nat>,
      kept: seq<nat>, c1: seq<Color>, r1: seq<int>, s: set<nat>)
    requires RootsFlooded(g, from, to, up, c0, r0, seen, kept, c1, r1, s)
    ensures Sized(g, c1, r1) && |c1| == |r1| == |g|
  {
  }

  lemma RootFlooded(g: Graph, from: Color, to: Color, up: bool, c0: seq<Color>, r0: seq<int>, seen: seq<nat>,
      kept: seq<nat>, c1: seq<Color>, r1: seq<int>, s: set<nat>, v: nat, c2: seq<Color>, r2: seq<int>, t: set<nat>)
    requires from != to && to != Green && RootsFlooded(g, from, to, up, c0, r0, seen, kept, c1, r1, s)
    requires v < |g| && c1[v] == from && Flooded(g, to, up, v, c1, r1, c2, r2, t)
    ensures RootsFlooded(g, from, to, up, c0, r0, seen + [v], kept + [v], c2, r2, s + t)
  {
    var green := Greens(c0);
    assert Greens(c1) == green;
    assert t !! s;
    ShiftedTwice(g, green, up, r0, r1, r2, s, t);
    KeptGrows(g, green, kept, v, s, t);
    assert forall x :: x in RootsOf(from, c0, seen + [v])
                       <==> x in RootsOf(from, c0, seen) || (x == v && c0[v] == from);
  }

  lemma RootSkipped(g: Graph, from: Color, to: Color, up: bool, c0: seq<Color>, r0: seq<int>, seen: seq<nat>,
      kept: seq<nat>, c1: seq<Color>, r1: seq<int>, s: set<nat>, v: nat)
    requires from != to && RootsFlooded(g, from, to, up, c0, r0, seen, kept, c1, r1, s)
    requires v < |g| && c1[v] != from
    ensures RootsFlooded(g, from, to, up, c0, r0, seen + [v], kept, c1, r1, s)
  {
    assert forall x :: x in RootsOf(from, c0, seen + [v])
                       <==> x in RootsOf(from, c0, seen) || (x == v && c0[v] == from);
  }

  /** After the last root the flooded nodes are exactly those reachable from roots of colour from. */
  lemma RootsFloodedEnd(g: Graph, from: Color, to: Color, up: bool, c0: seq<Color>, r0: seq<int>, roots: seq<nat>,
      kept: seq<nat>, c1: seq<Color>, r1: seq<int>, s: set<nat>)
    requires RootsFlooded(g, from, to, up, c0, r0, roots, kept, c1, r1, s)
    ensures s == Reach(g, Greens(c0), RootsOf(from, c0, roots))
    ensures s == Reach(g, Greens(c0), Elements(kept))
    ensures Closed(g, Greens(c0), s)
  {
    var green, starts := Greens(c0), RootsOf(from, c0, roots);
    forall u: nat, x: nat | u in s && Edge(g, green, u, x)
      ensures x in s
    {
      assert x < |g|;
    }
    ReachLeast(g, green, starts, s);
    forall x | x in Elements(kept)
      ensures x in Reach(g, green, starts)
    {
      ReachIncludes(g, green, starts, x);
    }
    ReachMonotone(g, green, Elements(kept), starts);
  }

  /** A black root has a count of zero during the pass exactly when it had one before. */
  lemma DeadRoot(g: Graph, c0: seq<Color>, r0: seq<int>, seen: seq<nat>, kept: seq<nat>, c1: seq<Color>, r1: seq<int>,
      s: set<nat>, v: nat)
    requires RootsFlooded(g, Purple, Gray, false, c0, r0, seen, kept, c1, r1, s)
    requires WellCounted(g, Greens(c0), r0) && v < |g|
    ensures c1[v] == Black && r1[v] == 0 <==> c0[v] == Black && r0[v] == 0
  {
    if c0[v] == Black {
      if v in s {
        ReachHolder(g, Greens(c0), Elements(kept), v);
      } else {
        InZero(g, s, v);
        if In(g, s, v) > 0 {
          var u :| u in s && u < |g| && v in g[u];
          assert false by {
            assert Edge(g, Greens(c0), u, v);
          }
        }
      }
    }
  }

  predicate NoRepeats(s: seq<nat>) {
    forall i, j :: 0 <= i < j < |s| ==> s[i] != s[j]
  }

  /** The buffered flags say which nodes are on the root list, and none is on it twice. */
  ghost predicate Tracked(n: nat, roots: seq<nat>, buffered: seq<bool>) {
    && |buffered| == n && NoRepeats(roots)
    && (forall x :: x in roots ==> x < n)
    && (forall x: nat :: x < n ==> (buffered[x] <==> x in roots))
  }

  lemma TrackedRemove(n: nat, roots: seq<nat>, i: nat, buffered: seq<bool>)
    requires i < |roots| && Tracked(n, roots, buffered)
    ensures roots[i] < n && Tracked(n, roots[..i] + roots[i + 1..], buffered[roots[i] := false])
  {
    var v, r := roots[i], roots[..i] + roots[i + 1..];
    assert v in roots;
    assert forall j :: 0 <= j < |r| ==> r[j] == roots[if j < i then j else j + 1];
    assert NoRepeats(r);
    assert v !in r;
    forall x: nat
      ensures x in r <==> x in roots && x != v
    {
      if x in roots && x != v {
        var j :| 0 <= j < |roots| && roots[j] == x;
        assert r[if j < i then j else j - 1] == x;
      }
    }
  }

  /** The black roots whose count is already zero, in order: storage that only the list kept alive. */
  function Dead(roots: seq<nat>, color: seq<Color>, rc: seq<int>): seq<nat> {
    if roots == [] then []
    else
      var r, v := roots[..|roots| - 1], roots[|roots| - 1];
      Dead(r, color, rc) + if v < |color| && v < |rc| && color[v] == Black && rc[v] == 0 then [v] else []
  }

  lemma DeadAppend(roots: seq<nat>, v: nat, color: seq<Color>, rc: seq<int>)
    requires v < |color| && v < |rc|
    ensures Dead(roots + [v], color, rc) == Dead(roots, color, rc) + if color[v] == Black && rc[v] == 0 then [v] else []
  {
    assert (roots + [v])[..|roots|] == roots;
  }

  /** mark_roots has dealt with the first n of the roots it found; the first i of the list remain. */
  ghost predicate MarkingRoots(g: Graph, c0: seq<Color>, r0: seq<int>, all: seq<nat>, n: nat, c: seq<Color>,
      r: seq<int>, buffered: seq<bool>, roots: seq<nat>, i: nat, freed: seq<nat>, s: set<nat>) {
    && n <= |all| && i <= |roots| && roots[i..] == all[n..]
    && RootsFlooded(g, Purple, Gray, false, c0, r0, all[..n], roots[..i], c, r, s)
    && Tracked(|g|, roots, buffered) && WellCounted(g, Greens(c0), r0)
    && freed == Dead(all[..n], c0, r0)
  }

  lemma MarkingStarts(g: Graph, c0: seq<Color>, r0: seq<int>, buffered: seq<bool>, all: seq<nat>)
    requires Sized(g, c0, r0) && WellCounted(g, Greens(c0), r0) && Tracked(|g|, all, buffered)
    requires forall x: nat :: x < |g| ==> c0[x] != Gray
    ensures MarkingRoots(g, c0, r0, all, 0, c0, r0, buffered, all, 0, [], {})
  {
    RootsFloodedStart(g, Purple, Gray, false, c0, r0);
  }

  lemma MarkingBounds(g: Graph, c0: seq<Color>, r0: seq<int>, all: seq<nat>, n: nat, c: seq<Color>, r: seq<int>,
      buffered: seq<bool>, roots: seq<nat>, i: nat, freed: seq<nat>, s: set<nat>)
    requires MarkingRoots(g, c0, r0, all, n, c, r, buffered, roots, i, freed, s)
    ensures Sized(g, c, r) && Sized(g, c0, r0) && |buffered| == |g| && i <= |roots|
    ensures |roots| - i == |all| - n
    ensures i < |roots| ==> roots[i] < |g|
  {
    assert |roots[i..]| == |all[n..]|;
    assert i < |roots| ==> roots[i] in roots;
  }

  lemma MarkingKeeps(g: Graph, c0: seq<Color>, r0: seq<int>, all: seq<nat>, n: nat, c: seq<Color>, r: seq<int>,
      buffered: seq<bool>, roots: seq<nat>, i: nat, freed: seq<nat>, s: set<nat>, c1: seq<Color>, r1: seq<int>,
      t: set<nat>)
    requires MarkingRoots(g, c0, r0, all, n, c, r, buffered, roots, i, freed, s) && i < |roots|
    requires roots[i] < |g| && c[roots[i]] == Purple && Flooded(g, Gray, false, roots[i], c, r, c1, r1, t)
    ensures MarkingRoots(g, c0, r0, all, n + 1, c1, r1, buffered, roots, i + 1, freed, s + t)
  {
    var v := roots[i];
    assert all[n..][0] == roots[i..][0] == v;
    assert all[..n + 1] == all[..n] + [v] && roots[..i + 1] == roots[..i] + [v];
    assert roots[i + 1..] == all[n + 1..] by {
      assert roots[i + 1..] == roots[i..][1..];
      assert all[n + 1..] == all[n..][1..];
    }
    DeadAppend(all[..n], v, c0, r0);
    RootFlooded(g, Purple, Gray, false, c0, r0, all[..n], roots[..i], c, r, s, v, c1, r1, t);
  }

  lemma MarkingRemoves(g: Graph, c0: seq<Color>, r0: seq<int>, all: seq<nat>, n: nat, c: seq<Color>, r: seq<int>,
      buffered: seq<bool>, roots: seq<nat>, i: nat, freed: seq<nat>, s: set<nat>)
    requires MarkingRoots(g, c0, r0, all, n, c, r, buffered, roots, i, freed, s) && i < |roots|
    requires roots[i] < |g| && c[roots[i]] != Purple
    ensures var v := roots[i];
            MarkingRoots(g, c0, r0, all, n + 1, c, r, buffered[v := false], roots[..i] + roots[i + 1..], i,
                         if c[v] == Black && r[v] == 0 then freed + [v] else freed, s)
  {
    var v := roots[i];
    assert all[n..][0] == roots[i..][0] == v;
    assert all[..n + 1] == all[..n] + [v];
    DeadAppend(all[..n], v, c0, r0);
    RootSkipped(g, Purple, Gray, false, c0, r0, all[..n], roots[..i], c, r, s, v);
    DeadRoot(g, c0, r0, all[..n], roots[..i], c, r, s, v);
    TrackedRemove(|g|, roots, i, buffered);
    assert (roots[..i] + roots[i + 1..])[..i] == roots[..i];
    assert (roots[..i] + roots[i + 1..])[i..] == all[n + 1..];
  }

  lemma MarkingEnds(g: Graph, c0: seq<Color>, r0: seq<int>, all: seq<nat>, n: nat, c: seq<Color>, r: seq<int>,
      buffered: seq<bool>, roots: seq<nat>, freed: seq<nat>, s: set<nat>)
    requires MarkingRoots(g, c0, r0, all, n, c, r, buffered, roots, |roots|, freed, s)
    ensures s == Suspects(g, c0, all) && Closed(g, Greens(c0), s)
    ensures Reach(g, Greens(c0), Elements(roots)) == s
    ensures Elements(roots) <= RootsOf(Purple, c0, all)
    ensures freed == Dead(all, c0, r0)
  {
    assert |roots[|roots|..]| == 0;
    assert all[..n] == all && roots[..|roots|] == roots;
    RootsFloodedEnd(g, Purple, Gray, false, c0, r0, all, roots, c, r, s);
  }

  // ---- scan ----

  ghost function Blacks(s: set<nat>, color: seq<Color>): (r: set<nat>)
    ensures forall x :: x in r <==> x in s && x < |color| && color[x] == Black
  {
    set x | x in s && x < |color| && color[x] == Black
  }

  /** The region s between calls of scan: r0 are the counts before the collection. */
  ghost predicate ScanOk(g: Graph, green: set<nat>, s: set<nat>, r0: seq<int>, c: seq<Color>, r: seq<int>) {
    && Sized(g, c, r) && |r0| == |g| && Greens(c) == green && Closed(g, green, s)
    && (forall x :: x in s ==> x < |g| && c[x] in {Gray, White, Black})
    && Closed(g, green, Blacks(s, c))
    && (forall x: nat :: x < |g| && x !in green ==> r[x] == r0[x] - In(g, s - Blacks(s, c), x))
    && (forall x: nat :: x < |g| && x in green ==> r[x] == r0[x])
    && (forall x :: x in s && c[x] == White ==> r0[x] <= In(g, s, x))
    && Blacks(s, c) <= Reach(g, green, Held(g, r0, s))
  }

  ghost predicate SameOutside(s: set<nat>, c0: seq<Color>, c1: seq<Color>) {
    |c0| == |c1| && forall x: nat :: x < |c0| && x !in s ==> c1[x] == c0[x]
  }

  ghost predicate KidsNotGray(g: Graph, green: set<nat>, c: seq<Color>, u: nat)
    requires |c| == |g|
  {
    forall k: nat :: Edge(g, green, u, k) && k < |g| ==> c[k] != Gray
  }

  /** From c0 to c1 some greys were settled, and each new white has no grey child left. */
  ghost predicate Settled(g: Graph, green: set<nat>, s: set<nat>, except: set<nat>, c0: seq<Color>, c1: seq<Color>) {
    && |c0| == |c1| == |g|
    && (forall x :: x in s && x < |g| && c1[x] == Gray ==> c0[x] == Gray)
    && (forall x :: x in s && x < |g| && c1[x] == White && c0[x] != White && x !in except ==>
          KidsNotGray(g, green, c1, x))
  }

  lemma ScanBlackStep(g: Graph, green: set<nat>, s: set<nat>, r0: seq<int>, c: seq<Color>, r: seq<int>, v: nat,
      c1: seq<Color>, r1: seq<int>, t: set<nat>)
    requires green == Greens(c) && ScanOk(g, green, s, r0, c, r) && v in s && c[v] == Gray && r[v] > 0
    requires Flooded(g, Black, true, v, c, r, c1, r1, t)
    ensures Scanned(g, s, r0, v, c, c1, r1)
  {
    var b := Blacks(s, c);
    ReachLeast(g, green, {v}, s);
    assert t <= s && Blacks(s, c1) == b + t && t !! b;
    forall x: nat | x < |g| && x !in green
      ensures In(g, s - b, x) == In(g, s - (b + t), x) + In(g, t, x)
    {
      InUnion(g, s - (b + t), t, x);
      assert s - (b + t) + t == s - b;
    }
    assert Closed(g, green, b + t) by {
      forall u: nat, k: nat | u in b + t && Edge(g, green, u, k)
        ensures k in b + t
      {
        assert k < |g|;
        if u in t {
          ReachStep(g, green, {v}, u, k);
        }
      }
    }
    HeldFromOutside(g, green, s, r0, c, r, v);
    ReachMonotone(g, green, {v}, Held(g, r0, s));
    assert Greens(c1) == green;
    assert ScanOk(g, green, s, r0, c1, r1);
  }

  /** A grey node with a positive trial count is held from outside, or by a node that is. */
  lemma HeldFromOutside(g: Graph, green: set<nat>, s: set<nat>, r0: seq<int>, c: seq<Color>, r: seq<int>, v: nat)
    requires ScanOk(g, green, s, r0, c, r) && v in s && r[v] > 0 && v !in green
    ensures v in Reach(g, green, Held(g, r0, s))
  {
    var b, held := Blacks(s, c), Held(g, r0, s);
    InUnion(g, s - b, b, v);
    assert s - b + b == s;
    if r0[v] > In(g, s, v) {
      ReachIncludes(g, green, held, v);
    } else {
      assert In(g, b, v) > 0;
      var u := InBelowPositive(g, |g|, b, v);
      ReachStep(g, green, held, u, v);
    }
  }

  /** What a completed call of scan on v has done. */
  ghost predicate Scanned(g: Graph, s: set<nat>, r0: seq<int>, v: nat, c0: seq<Color>, c1: seq<Color>, r1: seq<int>) {
    && ScanOk(g, Greens(c0), s, r0, c1, r1)
    && Settled(g, Greens(c0), s, {}, c0, c1) && SameOutside(s, c0, c1)
    && v < |g| && c1[v] != Gray
  }

  /** scan has painted v white and dealt with its first i children. */
  ghost predicate Scanning(g: Graph, s: set<nat>, r0: seq<int>, v: nat, i: nat, c0: seq<Color>, c1: seq<Color>,
      r1: seq<int>) {
    && ScanOk(g, Greens(c0), s, r0, c1, r1)
    && Settled(g, Greens(c0), s, {v}, c0, c1) && SameOutside(s, c0, c1)
    && v in s && v < |g| && c0[v] == Gray && c1[v] != Gray && i <= |g[v]|
    && (forall j :: 0 <= j < i && g[v][j] !in Greens(c0) ==> c1[g[v][j]] != Gray)
  }

  lemma ScanWhiteStarts(g: Graph, s: set<nat>, r0: seq<int>, c: seq<Color>, r: seq<int>, v: nat)
    requires ScanOk(g, Greens(c), s, r0, c, r) && v in s && c[v] == Gray && r[v] <= 0
    ensures Scanning(g, s, r0, v, 0, c, c[v := White], r)
  {
    var c1 := c[v := White];
    assert Blacks(s, c1) == Blacks(s, c);
    assert Greens(c1) == Greens(c);
    InMonotone(g, s - Blacks(s, c), s, v);
  }

  lemma ScanningKid(g: Graph, s: set<nat>, r0: seq<int>, v: nat, i: nat, c0: seq<Color>, c: seq<Color>, r: seq<int>)
    requires Scanning(g, s, r0, v, i, c0, c, r) && i < |g[v]|
    ensures |c| == |r| == |g| && v < |g| && g[v][i] < |g|
    ensures c[g[v][i]] == Green ==> Scanning(g, s, r0, v, i + 1, c0, c, r)
    ensures c[g[v][i]] != Green ==> ScanOk(g, Greens(c), s, r0, c, r) && g[v][i] in s
    ensures Painted(c, Gray) < Painted(c0, Gray)
  {
    if c[g[v][i]] != Green {
      assert Edge(g, Greens(c0), v, g[v][i]);
    }
    assert v in Painted(c0, Gray) && v !in Painted(c, Gray);
  }

  lemma ScannedKid(g: Graph, s: set<nat>, r0: seq<int>, v: nat, i: nat, c0: seq<Color>, c: seq<Color>, r: seq<int>,
      c1: seq<Color>, r1: seq<int>)
    requires Scanning(g, s, r0, v, i, c0, c, r) && i < |g[v]|
    requires Scanned(g, s, r0, g[v][i], c, c1, r1)
    ensures Scanning(g, s, r0, v, i + 1, c0, c1, r1)
  {
    SettledChains(g, Greens(c0), s, {v}, c0, c, c1);
    forall j | 0 <= j <= i && g[v][j] !in Greens(c0)
      ensures c1[g[v][j]] != Gray
    {
      assert Edge(g, Greens(c0), v, g[v][j]);
    }
  }

  lemma ScanWhiteEnds(g: Graph, s: set<nat>, r0: seq<int>, v: nat, c0: seq<Color>, c: seq<Color>, r: seq<int>)
    requires v < |g| && Scanning(g, s, r0, v, |g[v]|, c0, c, r)
    ensures Scanned(g, s, r0, v, c0, c, r)
  {
    assert KidsNotGray(g, Greens(c0), c, v);
  }

  lemma SettledChains(g: Graph, green: set<nat>, s: set<nat>, except: set<nat>, c0: seq<Color>, c1: seq<Color>,
      c2: seq<Color>)
    requires Closed(g, green, s)
    requires Settled(g, green, s, except, c0, c1) && Settled(g, green, s, {}, c1, c2)
    ensures Settled(g, green, s, except, c0, c2)
  {
  }

  lemma ScanBounds(g: Graph, s: set<nat>, r0: seq<int>, c: seq<Color>, r: seq<int>)
    requires ScanOk(g, Greens(c), s, r0, c, r)
    ensures Sized(g, c, r) && |c| == |r| == |g|
    ensures forall x :: x in s ==> x < |g| && c[x] != Green
  {
  }

  lemma ScanSettled(g: Graph, s: set<nat>, r0: seq<int>, c: seq<Color>, r: seq<int>, v: nat)
    requires ScanOk(g, Greens(c), s, r0, c, r) && v in s && c[v] != Gray
    ensures Scanned(g, s, r0, v, c, c, r)
  {
  }

  // ---- scan_roots ----

  ghost predicate ScanningRoots(g: Graph, s: set<nat>, r0: seq<int>, roots: seq<nat>, i: nat, c0: seq<Color>,
      c1: seq<Color>, r1: seq<int>) {
    && ScanOk(g, Greens(c0), s, r0, c1, r1)
    && Settled(g, Greens(c0), s, {}, c0, c1) && SameOutside(s, c0, c1)
    && i <= |roots| && Elements(roots) <= s
    && (forall j :: 0 <= j < i ==> roots[j] in s && c1[roots[j]] != Gray)
  }

  lemma ScanRootsStarts(g: Graph, c0: seq<Color>, r0: seq<int>, c: seq<Color>, r: seq<int>, s: set<nat>,
      roots: seq<nat>)
    requires Sized(g, c0, r0) && Repainted(c0, c, s, Gray) && Shifted(g, Greens(c0), false, r0, r, s)
    requires Closed(g, Greens(c0), s) && s == Reach(g, Greens(c0), Elements(roots))
    requires forall x :: x in roots ==> x < |g|
    ensures Greens(c) == Greens(c0)
    ensures ScanningRoots(g, s, r0, roots, 0, c, c, r)
  {
    assert Blacks(s, c) == {};
    assert s - {} == s;
    assert Greens(c) == Greens(c0);
    forall x | x in Elements(roots)
      ensures x in s
    {
      ReachIncludes(g, Greens(c0), Elements(roots), x);
    }
  }

  lemma ScanningRootsBounds(g: Graph, s: set<nat>, r0: seq<int>, roots: seq<nat>, i: nat, c0: seq<Color>, c: seq<Color>,
      r: seq<int>)
    requires ScanningRoots(g, s, r0, roots, i, c0, c, r) && i < |roots|
    ensures ScanOk(g, Greens(c), s, r0, c, r) && roots[i] in s
  {
    assert roots[i] in Elements(roots);
  }

  lemma ScannedRoot(g: Graph, s: set<nat>, r0: seq<int>, roots: seq<nat>, i: nat, c0: seq<Color>, c: seq<Color>,
      r: seq<int>, c1: seq<Color>, r1: seq<int>)
    requires ScanningRoots(g, s, r0, roots, i, c0, c, r) && i < |roots|
    requires Scanned(g, s, r0, roots[i], c, c1, r1)
    ensures ScanningRoots(g, s, r0, roots, i + 1, c0, c1, r1)
  {
    SettledChains(g, Greens(c0), s, {}, c0, c, c1);
  }

  /** When every root has been scanned the whites are exactly the nodes not kept alive from outside. */
  lemma ScanRootsEnds(g: Graph, s: set<nat>, r0: seq<int>, c0: seq<Color>, c: seq<Color>, r: seq<int>, roots: seq<nat>)
    requires ScanningRoots(g, s, r0, roots, |roots|, c0, c, r)
    requires forall x :: x in s ==> x < |c0| && c0[x] == Gray
    requires s == Reach(g, Greens(c0), Elements(roots))
    ensures var live := Reach(g, Greens(c0), Held(g, r0, s));
            && (forall x :: x in s ==> c[x] == if x in live then Black else White)
            && Blacks(s, c) == live
            && (forall x: nat :: x < |g| && x !in Greens(c0) ==> r[x] == r0[x] - In(g, s - live, x))
  {
    var green := Greens(c0);
    var done := set x | x in s && c[x] != Gray;
    forall u: nat, k: nat | u in done && Edge(g, green, u, k)
      ensures k in done
    {
      assert k < |g| && k in s;
      if c[u] == Black {
        assert k in Blacks(s, c);
      } else {
        assert KidsNotGray(g, green, c, u);
      }
    }
    ReachLeast(g, green, Elements(roots), done);
    var held := Held(g, r0, s);
    assert held <= Blacks(s, c);
    ReachLeast(g, green, held, Blacks(s, c));
  }

  /** White nodes are reached from white roots: anything reached through a black node is black. */
  lemma WhiteRootsSuffice(g: Graph, green: set<nat>, s: set<nat>, live: set<nat>, c: seq<Color>, roots: seq<nat>)
    requires WellFormed(g) && |c| == |g| && Closed(g, green, live) && live <= s
    requires s == Reach(g, green, Elements(roots))
    requires forall x: nat :: x < |g| ==> (c[x] == White <==> x in s - live)
    ensures Reach(g, green, RootsOf(White, c, roots)) == Reach(g, green, s - live)
  {
    var w := RootsOf(White, c, roots);
    var both := live + Reach(g, green, w);
    ReachClosed(g, green, w);
    forall x | x in Elements(roots) && x < |g|
      ensures x in both
    {
      ReachIncludes(g, green, Elements(roots), x);
      if x in w {
        ReachIncludes(g, green, w, x);
      }
    }
    forall x | x in s
      ensures x in both
    {
      var p :| Connects(g, green, p, Elements(roots), x);
      if |p| > 1 {
        assert Edge(g, green, p[0], p[1]);
      }
      PathStays(g, green, p, both);
    }
    ReachMonotone(g, green, s - live, w);
    forall x | x in w
      ensures x in Reach(g, green, s - live)
    {
      ReachIncludes(g, green, s - live, x);
    }
    ReachMonotone(g, green, w, s - live);
  }

  // ---- collect_roots ----

  /** q lists the nodes of s once each. */
  predicate Lists(q: seq<nat>, s: set<nat>) {
    NoRepeats(q) && Elements(q) == s
  }

  /** Queueing a node takes a reference to it. */
  ghost predicate Referenced(r0: seq<int>, r1: seq<int>, s: set<nat>) {
    && |r0| == |r1|
    && (forall x: nat :: x < |r0| ==> r1[x] == r0[x] + if x in s then 1 else 0)
  }

  ghost predicate KidsDone(g: Graph, green: set<nat>, c: seq<Color>, buffered: seq<bool>, s: set<nat>)
    requires |c| == |buffered| == |g|
  {
    forall u, k: nat :: u in s && Edge(g, green, u, k) && k < |g| ==> c[k] != Pink || buffered[k]
  }

  /** A stretch of collect_white: the pink nodes of s are black again and the anonymous ones among
      them, except those of open, have been queued. */
  ghost predicate Collected(g: Graph, anon: set<nat>, buffered: seq<bool>, c0: seq<Color>, r0: seq<int>, c1: seq<Color>,
      r1: seq<int>, q: seq<nat>, s: set<nat>, open: set<nat>) {
    && Sized(g, c0, r0) && Sized(g, c1, r1) && |buffered| == |g|
    && Repainted(c0, c1, s + open, Black) && s !! open
    && (forall x :: x in s + open ==> c0[x] == Pink && !buffered[x])
    && Lists(q, s * anon) && Referenced(r0, r1, s * anon)
    && KidsDone(g, Greens(c0), c1, buffered, s)
  }

  lemma CollectedNothing(g: Graph, anon: set<nat>, buffered: seq<bool>, c0: seq<Color>, r0: seq<int>)
    requires Sized(g, c0, r0) && |buffered| == |g|
    ensures Collected(g, anon, buffered, c0, r0, c0, r0, [], {}, {})
  {
  }

  lemma CollectOpens(g: Graph, anon: set<nat>, buffered: seq<bool>, c0: seq<Color>, r0: seq<int>, v: nat)
    requires Sized(g, c0, r0) && |buffered| == |g|
    requires v < |g| && c0[v] == Pink && !buffered[v]
    ensures Collecting(g, anon, buffered, v, 0, c0, r0, c0[v := Black], r0, [], {})
  {
  }

  lemma ListsJoin(q: seq<nat>, s: set<nat>, q': seq<nat>, s': set<nat>)
    requires Lists(q, s) && Lists(q', s') && s !! s'
    ensures Lists(q + q', s + s')
  {
    var w := q + q';
    forall i, j | 0 <= i < j < |w|
      ensures w[i] != w[j]
    {
      if i < |q| <= j {
        assert w[i] in Elements(q) && w[j] in Elements(q');
      }
    }
  }

  lemma CollectJoins(g: Graph, anon: set<nat>, buffered: seq<bool>, c0: seq<Color>, r0: seq<int>, c1: seq<Color>,
      r1: seq<int>, q: seq<nat>, s: set<nat>, open: set<nat>, c2: seq<Color>, r2: seq<int>, q': seq<nat>, s': set<nat>)
    requires Collected(g, anon, buffered, c0, r0, c1, r1, q, s, open)
    requires Collected(g, anon, buffered, c1, r1, c2, r2, q', s', {})
    ensures Collected(g, anon, buffered, c0, r0, c2, r2, q + q', s + s', open)
  {
    assert Greens(c1) == Greens(c0);
    assert s' + {} == s' && s' !! s + open;
    ListsJoin(q, s * anon, q', s' * anon);
    assert (s + s') * anon == s * anon + s' * anon;
  }

  lemma CollectCloses(g: Graph, anon: set<nat>, buffered: seq<bool>, c0: seq<Color>, r0: seq<int>, c1: seq<Color>,
      r1: seq<int>, q: seq<nat>, s: set<nat>, v: nat)
    requires v < |g| && Collecting(g, anon, buffered, v, |g[v]|, c0, r0, c1, r1, q, s)
    ensures |r1| == |c1| == |g| && c1[v] == Black
    ensures v in anon ==> Collected(g, anon, buffered, c0, r0, c1, r1[v := r1[v] + 1], q + [v], s + {v}, {})
    ensures v !in anon ==> Collected(g, anon, buffered, c0, r0, c1, r1, q, s + {v}, {})
  {
    if v in anon {
      ListsJoin(q, s * anon, [v], {v});
      assert (s + {v}) * anon == s * anon + {v};
    } else {
      assert (s + {v}) * anon == s * anon;
    }
    assert s + {v} + {} == s + {v} && v in s + {v};
  }

  /** collect_white has painted v black and dealt with its first i children. */
  ghost predicate Collecting(g: Graph, anon: set<nat>, buffered: seq<bool>, v: nat, i: nat, c0: seq<Color>,
      r0: seq<int>, c1: seq<Color>, r1: seq<int>, q: seq<nat>, s: set<nat>) {
    && v < |g| && i <= |g[v]|
    && Collected(g, anon, buffered, c0, r0, c1, r1, q, s, {v})
    && (forall j :: 0 <= j < i && g[v][j] !in Greens(c0) ==> c1[g[v][j]] != Pink || buffered[g[v][j]])
  }

  lemma CollectingKid(g: Graph, anon: set<nat>, buffered: seq<bool>, v: nat, i: nat, c0: seq<Color>, r0: seq<int>,
      c1: seq<Color>, r1: seq<int>, q: seq<nat>, s: set<nat>)
    requires Collecting(g, anon, buffered, v, i, c0, r0, c1, r1, q, s) && i < |g[v]|
    ensures Sized(g, c1, r1) && |c1| == |r1| == |g| && v < |g| && g[v][i] < |g|
    ensures c1[g[v][i]] == Green ==> Collecting(g, anon, buffered, v, i + 1, c0, r0, c1, r1, q, s)
    ensures Painted(c1, Pink) < Painted(c0, Pink)
  {
    assert v in s + {v};
    assert v in Painted(c0, Pink) && v !in Painted(c1, Pink);
  }

  lemma CollectedKid(g: Graph, anon: set<nat>, buffered: seq<bool>, v: nat, i: nat, c0: seq<Color>, r0: seq<int>,
      c1: seq<Color>, r1: seq<int>, q: seq<nat>, s: set<nat>, c2: seq<Color>, r2: seq<int>, q': seq<nat>, s': set<nat>)
    requires Collecting(g, anon, buffered, v, i, c0, r0, c1, r1, q, s) && i < |g[v]|
    requires Collected(g, anon, buffered, c1, r1, c2, r2, q', s', {})
    requires c2[g[v][i]] != Pink || buffered[g[v][i]]
    ensures Collecting(g, anon, buffered, v, i + 1, c0, r0, c2, r2, q + q', s + s')
  {
    CollectJoins(g, anon, buffered, c0, r0, c1, r1, q, s, {v}, c2, r2, q', s');
  }

  /** collect_roots has taken the first n of all off the list. */
  ghost predicate CollectingRoots(g: Graph, anon: set<nat>, buffered: seq<bool>, c0: seq<Color>, r0: seq<int>,
      c1: seq<Color>, r1: seq<int>, q: seq<nat>, s: set<nat>, all: seq<nat>, n: nat, roots: seq<nat>) {
    && Sized(g, c0, r0) && Sized(g, c1, r1) && n <= |all| && roots == all[n..]
    && Tracked(|g|, roots, buffered)
    && Repainted(c0, c1, s, Black) && (forall x :: x in s ==> c0[x] == Pink)
    && Lists(q, s * anon) && Referenced(r0, r1, s * anon)
    && KidsDone(g, Greens(c0), c1, buffered, s)
    && (forall x :: x in all ==> x < |g|)
    && (forall j :: 0 <= j < n ==> all[j] in all && c1[all[j]] != Pink)
  }

  /** Taking v off the list: only v may now be both pink and unbuffered where a child must not be. */
  lemma CollectingRemoves(g: Graph, anon: set<nat>, buffered: seq<bool>, c0: seq<Color>, r0: seq<int>, c1: seq<Color>,
      r1: seq<int>, q: seq<nat>, s: set<nat>, all: seq<nat>, n: nat, roots: seq<nat>)
    requires CollectingRoots(g, anon, buffered, c0, r0, c1, r1, q, s, all, n, roots) && roots != []
    ensures n < |all| && roots[0] == all[n] && roots[1..] == all[n + 1..] && all[n] in all
    ensures roots[0] < |g| == |buffered| == |c1| == |r1| && Sized(g, c1, r1)
    ensures Tracked(|g|, roots[1..], buffered[roots[0] := false])
  {
    TrackedRemove(|g|, roots, 0, buffered);
    assert roots[..0] + roots[1..] == roots[1..];
  }

  lemma CollectedRoot(g: Graph, anon: set<nat>, buffered: seq<bool>, c0: seq<Color>, r0: seq<int>, c1: seq<Color>,
      r1: seq<int>, q: seq<nat>, s: set<nat>, all: seq<nat>, n: nat, roots: seq<nat>, c2: seq<Color>, r2: seq<int>,
      q': seq<nat>, s': set<nat>)
    requires CollectingRoots(g, anon, buffered, c0, r0, c1, r1, q, s, all, n, roots) && roots != []
    requires roots[0] < |g| && |buffered| == |g|
    requires Collected(g, anon, buffered[roots[0] := false], c1, r1, c2, r2, q', s', {})
    requires c2[roots[0]] != Pink
    ensures CollectingRoots(g, anon, buffered[roots[0] := false], c0, r0, c2, r2, q + q', s + s', all, n + 1,
        roots[1..])
  {
    CollectingRemoves(g, anon, buffered, c0, r0, c1, r1, q, s, all, n, roots);
    assert Greens(c1) == Greens(c0);
    assert s' + {} == s' && s' !! s;
    ListsJoin(q, s * anon, q', s' * anon);
    assert (s + s') * anon == s * anon + s' * anon;
  }

  lemma CollectingEnds(g: Graph, anon: set<nat>, buffered: seq<bool>, c0: seq<Color>, r0: seq<int>, c1: seq<Color>,
      r1: seq<int>, q: seq<nat>, s: set<nat>, all: seq<nat>, n: nat)
    requires CollectingRoots(g, anon, buffered, c0, r0, c1, r1, q, s, all, n, [])
    requires Painted(c0, Pink) == Reach(g, Greens(c0), RootsOf(Pink, c0, all))
    ensures s == Painted(c0, Pink)
  {
    var green, pink := Greens(c0), Painted(c0, Pink);
    assert all[n..] == [] && n == |all|;
    ReachClosed(g, green, RootsOf(Pink, c0, all));
    forall u: nat, k: nat | u in s && Edge(g, green, u, k)
      ensures k in s
    {
      assert k < |g| && k in pink;
      assert c1[k] != Pink;
    }
    forall x | x in RootsOf(Pink, c0, all)
      ensures x in s
    {
      var j :| 0 <= j < |all| && all[j] == x;
      assert c1[all[j]] != Pink;
    }
    ReachLeast(g, green, RootsOf(Pink, c0, all), s);
  }

  ghost predicate PinkCounted(color: seq<Color>, rc: seq<int>)
    requires |color| == |rc|
  {
    forall x: nat :: x < |color| && color[x] == Pink ==> rc[x] > 0
  }

  lemma PinkStaysCounted(g: Graph, anon: set<nat>, buffered: seq<bool>, v: nat, i: nat, c0: seq<Color>, r0: seq<int>,
      c1: seq<Color>, r1: seq<int>, q: seq<nat>, s: set<nat>)
    requires |c0| == |r0| && Collecting(g, anon, buffered, v, i, c0, r0, c1, r1, q, s) && PinkCounted(c0, r0)
    ensures |c1| == |r1| == |g| && PinkCounted(c1, r1) && v < |g| && r1[v] > 0
  {
    assert v in s + {v};
  }

  lemma PinkLeft(g: Graph, anon: set<nat>, buffered: seq<bool>, c0: seq<Color>, r0: seq<int>, c1: seq<Color>,
      r1: seq<int>, q: seq<nat>, s: set<nat>, all: seq<nat>, n: nat, roots: seq<nat>)
    requires |c0| == |r0| && CollectingRoots(g, anon, buffered, c0, r0, c1, r1, q, s, all, n, roots)
        && PinkCounted(c0, r0)
    ensures |c1| == |r1| && PinkCounted(c1, r1)
  {
  }
}
