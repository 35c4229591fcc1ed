/** What the passes of garbage.cc add up to: how a whole collection compares with the graph it started
    from, and exactly when it leaves live nodes alone. */
module CycleTheorems {
  import opened CycleGraph
  import opened CyclePasses

  /** Every count covers the references held by the nodes and by the recycling queue. */
  ghost predicate CountsCover(g: Graph, green: set<nat>, rc: seq<int>, queue: seq<nat>) {
    && |rc| == |g|
    && (forall x: nat :: x < |g| && x !in green ==>
          rc[x] >= In(g, Below(|g|), x) + if x in queue then 1 else 0)
  }

  /** What mark_roots and scan_roots have established: no grey is left, the suspects are white or
      black according to whether they are garbage, and counts lack the references held by garbage. */
  ghost predicate Trial(g: Graph, c0: seq<Color>, r0: seq<int>, roots0: seq<nat>, c1: seq<Color>, r1: seq<int>) {
    var s, w := Suspects(g, c0, roots0), Garbage(g, c0, r0, roots0);
    && Sized(g, c1, r1) && |c0| == |g|
    && (forall x: nat :: x < |g| ==> c1[x] == if x in w then White else if x in s then Black else c0[x])
    && Shifted(g, Greens(c0), false, r0, r1, w)
  }

  /** What mark_roots alone has established. */
  ghost predicate RootsMarked(g: Graph, c0: seq<Color>, r0: seq<int>, roots0: seq<nat>, c1: seq<Color>, r1: seq<int>,
      roots: seq<nat>) {
    var s := Suspects(g, c0, roots0);
    && Repainted(c0, c1, s, Gray)
    && Shifted(g, Greens(c0), false, r0, r1, s)
    && Closed(g, Greens(c0), s)
    && Reach(g, Greens(c0), Elements(roots)) == s
    && Elements(roots) <= RootsOf(Purple, c0, roots0)
  }

  /** What a collection does to counts and colours, and which nodes it queues. */
  ghost predicate CollectionResult(g: Graph, anon: set<nat>, c0: seq<Color>, r0: seq<int>, roots0: seq<nat>,
      c1: seq<Color>, r1: seq<int>, q: seq<nat>) {
    var s, w, p := Suspects(g, c0, roots0), Garbage(g, c0, r0, roots0), Swept(g, c0, r0, roots0);
    && Sized(g, c0, r0) && Sized(g, c1, r1)
    && (forall x: nat :: x < |g| ==> c1[x] == if x in s then Black else c0[x])
    && (forall x: nat :: x < |g| ==>
          r1[x] == if x in Greens(c0) then r0[x]
                   else r0[x] - In(g, w, x) + In(g, p, x) + if x in p * anon then 1 else 0)
    && Lists(q, p * anon)
  }

  /** No garbage node refers to a node that the collector enters and that is not garbage. */
  ghost predicate NoLiveChild(g: Graph, green: set<nat>, w: set<nat>) {
    Closed(g, green, w)
  }

  lemma NothingToCollect(g: Graph, anon: set<nat>, c0: seq<Color>, r0: seq<int>)
    requires Sized(g, c0, r0)
    ensures CollectionResult(g, anon, c0, r0, [], c0, r0, [])
    ensures Dead([], c0, r0) == []
  {
    var green := Greens(c0);
    ReachLeast(g, green, RootsOf(Purple, c0, []), {});
    assert Suspects(g, c0, []) == {};
    assert Garbage(g, c0, r0, []) == {};
    ReachLeast(g, green, {}, {});
    assert Swept(g, c0, r0, []) == {};
    NoHolders(g);
    assert {} * anon == {};
  }

  /** What restore_white alone has established. */
  ghost predicate RootsRestored(g: Graph, roots: seq<nat>, c0: seq<Color>, r0: seq<int>, c1: seq<Color>, r1: seq<int>) {
    var s := Reach(g, Greens(c0), RootsOf(White, c0, roots));
    Repainted(c0, c1, s, Pink) && Shifted(g, Greens(c0), true, r0, r1, s)
  }

  /** What collect_roots needs: the pink nodes are those reachable from pink roots, and are all counted. */
  ghost predicate Collectable(g: Graph, color: seq<Color>, rc: seq<int>, roots: seq<nat>) {
    && Sized(g, color, rc) && PinkCounted(color, rc)
    && Painted(color, Pink) == Reach(g, Greens(color), RootsOf(Pink, color, roots))
  }

  /** What collect_roots alone has established. */
  ghost predicate RootsCollected(anon: set<nat>, c0: seq<Color>, r0: seq<int>, c1: seq<Color>, r1: seq<int>,
      q: seq<nat>) {
    var s := Painted(c0, Pink);
    Repainted(c0, c1, s, Black) && Lists(q, s * anon) && Referenced(r0, r1, s * anon)
  }

  /** Between collections every count covers the references from other nodes, and a purple node has one. */
  ghost predicate Startable(g: Graph, color: seq<Color>, rc: seq<int>) {
    && Sized(g, color, rc) && CountsCover(g, Greens(color), rc, [])
    && (forall x: nat :: x < |g| ==> color[x] in {Green, Yellow, Black, Purple})
    && (forall x: nat :: x < |g| && color[x] == Purple ==> rc[x] > 0)
  }

  // ---- what each pass over the root list has established ----

  lemma StartableBounds(g: Graph, color: seq<Color>, rc: seq<int>)
    requires Startable(g, color, rc)
    ensures Sized(g, color, rc) && WellCounted(g, Greens(color), rc) && |color| == |rc| == |g|
    ensures forall x: nat :: x < |g| ==> color[x] != Gray
  {
  }

  lemma MarkedRootsHold(g: Graph, c0: seq<Color>, r0: seq<int>, all: seq<nat>, n: nat, c: seq<Color>, r: seq<int>,
      buffered: seq<bool>, roots: seq<nat>, freed: seq<nat>, s: set<nat>)
    requires MarkingRoots(g, c0, r0, all, n, c, r, buffered, roots, |roots|, freed, s)
    ensures RootsMarked(g, c0, r0, all, c, r, roots) && Tracked(|g|, roots, buffered)
    ensures freed == Dead(all, c0, r0)
  {
    MarkingEnds(g, c0, r0, all, n, c, r, buffered, roots, freed, s);
  }

  lemma MarkedToScan(g: Graph, c0: seq<Color>, r0: seq<int>, roots0: seq<nat>, c: seq<Color>, r: seq<int>,
      roots: seq<nat>)
    requires Sized(g, c0, r0) && RootsMarked(g, c0, r0, roots0, c, r, roots)
    ensures ScanningRoots(g, Suspects(g, c0, roots0), r0, roots, 0, c, c, r)
  {
    ScanRootsStarts(g, c0, r0, c, r, Suspects(g, c0, roots0), roots);
  }

  lemma TrialHolds(g: Graph, c0: seq<Color>, r0: seq<int>, roots0: seq<nat>, cm: seq<Color>, rm: seq<int>,
      roots: seq<nat>, c: seq<Color>, r: seq<int>)
    requires Sized(g, c0, r0) && RootsMarked(g, c0, r0, roots0, cm, rm, roots)
    requires ScanningRoots(g, Suspects(g, c0, roots0), r0, roots, |roots|, cm, c, r)
    ensures Trial(g, c0, r0, roots0, c, r)
  {
    assert Greens(cm) == Greens(c0);
    ScanRootsEnds(g, Suspects(g, c0, roots0), r0, cm, c, r, roots);
  }

  lemma RestoredHolds(g: Graph, c0: seq<Color>, r0: seq<int>, roots: seq<nat>, white: seq<nat>, c: seq<Color>,
      r: seq<int>, s: set<nat>)
    requires RootsFlooded(g, White, Pink, true, c0, r0, roots, white, c, r, s)
    ensures RootsRestored(g, roots, c0, r0, c, r)
  {
    RootsFloodedEnd(g, White, Pink, true, c0, r0, roots, white, c, r, s);
  }

  lemma CollectingStarts(g: Graph, anon: set<nat>, buffered: seq<bool>, c: seq<Color>, r: seq<int>, roots: seq<nat>)
    requires Tracked(|g|, roots, buffered) && Collectable(g, c, r, roots)
    ensures CollectingRoots(g, anon, buffered, c, r, c, r, [], {}, roots, 0, roots)
    ensures |c| == |r| && PinkCounted(c, r)
  {
    CollectedNothing(g, anon, buffered, c, r);
    assert {} * anon == {};
  }

  lemma CollectedHolds(g: Graph, anon: set<nat>, buffered: seq<bool>, c0: seq<Color>, r0: seq<int>, c1: seq<Color>,
      r1: seq<int>, q: seq<nat>, s: set<nat>, all: seq<nat>, n: nat)
    requires CollectingRoots(g, anon, buffered, c0, r0, c1, r1, q, s, all, n, []) && Collectable(g, c0, r0, all)
    ensures RootsCollected(anon, c0, r0, c1, r1, q) && Tracked(|g|, [], buffered)
  {
    CollectingEnds(g, anon, buffered, c0, r0, c1, r1, q, s, all, n);
  }

  // ---- from trial deletion to the sweep ----

  /** The sweep starts at white roots but covers all garbage and whatever it refers to. */
  lemma SweptFromRoots(g: Graph, c0: seq<Color>, r0: seq<int>, roots0: seq<nat>, roots: seq<nat>, c1: seq<Color>,
      r1: seq<int>, c2: seq<Color>, r2: seq<int>)
    requires Startable(g, c0, r0) && Trial(g, c0, r0, roots0, c1, r1)
    requires Reach(g, Greens(c0), Elements(roots)) == Suspects(g, c0, roots0)
    requires RootsRestored(g, roots, c1, r1, c2, r2)
    ensures Greens(c1) == Greens(c0) == Greens(c2)
    ensures Reach(g, Greens(c1), RootsOf(White, c1, roots)) == Swept(g, c0, r0, roots0)
    ensures Painted(c2, Pink) == Swept(g, c0, r0, roots0)
    ensures Collectable(g, c2, r2, roots)
  {
    var green, s, p := Greens(c0), Suspects(g, c0, roots0), Swept(g, c0, r0, roots0);
    var live, w := Live(g, c0, r0, roots0), Garbage(g, c0, r0, roots0);
    SuspectsNotGreen(g, c0, r0, roots0);
    assert Greens(c1) == green;
    ReachClosed(g, green, Held(g, r0, s));
    LiveSuspects(g, c0, r0, roots0);
    WhiteRootsSuffice(g, green, s, live, c1, roots);
    assert p == Reach(g, green, RootsOf(White, c1, roots));
    assert Greens(c2) == green;
    var pinks := RootsOf(Pink, c2, roots);
    forall x | x in RootsOf(White, c1, roots)
      ensures x in Reach(g, green, pinks)
    {
      ReachIncludes(g, green, RootsOf(White, c1, roots), x);
      ReachIncludes(g, green, pinks, x);
    }
    ReachMonotone(g, green, RootsOf(White, c1, roots), pinks);
    ReachMonotone(g, green, pinks, RootsOf(White, c1, roots));
    SuspectsCounted(g, c0, r0, roots0);
    SweptCounts(g, c0, r0, roots0, r1, r2);
  }

  lemma SuspectsNotGreen(g: Graph, c0: seq<Color>, r0: seq<int>, roots0: seq<nat>)
    requires Sized(g, c0, r0)
    ensures Suspects(g, c0, roots0) !! Greens(c0)
  {
    var green, purple := Greens(c0), RootsOf(Purple, c0, roots0);
    forall x | x in Suspects(g, c0, roots0)
      ensures x !in green
    {
      var p :| Connects(g, green, p, purple, x);
      if |p| > 1 {
        assert Edge(g, green, p[|p| - 2], p[|p| - 1]);
      }
    }
  }

  lemma LiveSuspects(g: Graph, c0: seq<Color>, r0: seq<int>, roots0: seq<nat>)
    requires Sized(g, c0, r0)
    ensures Live(g, c0, r0, roots0) <= Suspects(g, c0, roots0)
    ensures Closed(g, Greens(c0), Live(g, c0, r0, roots0))
    ensures Closed(g, Greens(c0), Suspects(g, c0, roots0))
    ensures Garbage(g, c0, r0, roots0) <= Swept(g, c0, r0, roots0) <= Suspects(g, c0, roots0)
    ensures Closed(g, Greens(c0), Swept(g, c0, r0, roots0))
  {
    var green, s, w := Greens(c0), Suspects(g, c0, roots0), Garbage(g, c0, r0, roots0);
    ReachClosed(g, green, RootsOf(Purple, c0, roots0));
    ReachClosed(g, green, Held(g, r0, s));
    ReachClosed(g, green, w);
    ReachLeast(g, green, Held(g, r0, s), s);
    ReachLeast(g, green, w, s);
    forall x | x in w
      ensures x in Swept(g, c0, r0, roots0)
    {
      ReachIncludes(g, green, w, x);
    }
  }

  /** Every suspect had a reference before the collection. */
  lemma SuspectsCounted(g: Graph, c0: seq<Color>, r0: seq<int>, roots0: seq<nat>)
    requires Sized(g, c0, r0) && CountsCover(g, Greens(c0), r0, [])
    requires forall x: nat :: x < |g| && c0[x] == Purple ==> r0[x] > 0
    ensures forall x :: x in Suspects(g, c0, roots0) ==> x < |g| && r0[x] > 0
  {
    SuspectsNotGreen(g, c0, r0, roots0);
    forall x | x in Suspects(g, c0, roots0)
      ensures r0[x] > 0
    {
      if x !in RootsOf(Purple, c0, roots0) {
        ReachHolder(g, Greens(c0), RootsOf(Purple, c0, roots0), x);
      }
    }
  }

  lemma SweptCounts(g: Graph, c0: seq<Color>, r0: seq<int>, roots0: seq<nat>, r1: seq<int>, r2: seq<int>)
    requires Sized(g, c0, r0)
    requires Shifted(g, Greens(c0), false, r0, r1, Garbage(g, c0, r0, roots0))
    requires Shifted(g, Greens(c0), true, r1, r2, Swept(g, c0, r0, roots0))
    ensures forall x: nat :: x < |g| ==> r2[x] >= r0[x]
  {
    LiveSuspects(g, c0, r0, roots0);
    forall x: nat | x < |g|
      ensures r2[x] >= r0[x]
    {
      InMonotone(g, Garbage(g, c0, r0, roots0), Swept(g, c0, r0, roots0), x);
    }
  }

  /** The four passes in a row. */
  lemma ResultHolds(g: Graph, anon: set<nat>, c0: seq<Color>, r0: seq<int>, roots0: seq<nat>, roots: seq<nat>,
      c1: seq<Color>, r1: seq<int>, c2: seq<Color>, r2: seq<int>, c3: seq<Color>, r3: seq<int>, q: seq<nat>)
    requires Startable(g, c0, r0) && Trial(g, c0, r0, roots0, c1, r1)
    requires Reach(g, Greens(c0), Elements(roots)) == Suspects(g, c0, roots0)
    requires RootsRestored(g, roots, c1, r1, c2, r2)
    requires RootsCollected(anon, c2, r2, c3, r3, q)
    ensures CollectionResult(g, anon, c0, r0, roots0, c3, r3, q)
  {
    SweptFromRoots(g, c0, r0, roots0, roots, c1, r1, c2, r2);
    LiveSuspects(g, c0, r0, roots0);
    SuspectsNotGreen(g, c0, r0, roots0);
  }

  // ---- what trial deletion finds ----

  /** Garbage is the largest set of suspects whose references all come from within the set: it is
      such a set, and it contains every other. */
  lemma GarbageIsLargestClosedIsland(g: Graph, c0: seq<Color>, r0: seq<int>, roots0: seq<nat>, u: set<nat>)
    requires Sized(g, c0, r0) && CountsCover(g, Greens(c0), r0, [])
    ensures forall x :: x in Garbage(g, c0, r0, roots0) ==> x < |g| && r0[x] == In(g, Garbage(g, c0, r0, roots0), x)
    ensures u <= Suspects(g, c0, roots0) && (forall x :: x in u && x < |g| ==> r0[x] <= In(g, u, x))
            ==> u <= Garbage(g, c0, r0, roots0)
  {
    var green, s := Greens(c0), Suspects(g, c0, roots0);
    var live, w := Live(g, c0, r0, roots0), Garbage(g, c0, r0, roots0);
    LiveSuspects(g, c0, r0, roots0);
    SuspectsNotGreen(g, c0, r0, roots0);
    forall x | x in w
      ensures r0[x] == In(g, w, x)
    {
      assert x !in Held(g, r0, s) by {
        if x in Held(g, r0, s) {
          ReachIncludes(g, green, Held(g, r0, s), x);
        }
      }
      InZero(g, live, x);
      assert In(g, live, x) == 0 by {
        if In(g, live, x) != 0 {
          var h :| h in live && h < |g| && x in g[h];
          assert Edge(g, green, h, x);
        }
      }
      InUnion(g, w, live, x);
      assert w + live == s;
      InMonotone(g, s, Below(|g|), x);
    }
    if u <= s && (forall x :: x in u && x < |g| ==> r0[x] <= In(g, u, x)) {
      IslandAvoidsLive(g, c0, r0, roots0, u);
    }
  }

  lemma IslandAvoidsLive(g: Graph, c0: seq<Color>, r0: seq<int>, roots0: seq<nat>, u: set<nat>)
    requires Sized(g, c0, r0) && CountsCover(g, Greens(c0), r0, [])
    requires u <= Suspects(g, c0, roots0) && forall x :: x in u && x < |g| ==> r0[x] <= In(g, u, x)
    ensures u <= Garbage(g, c0, r0, roots0)
  {
    var green, s := Greens(c0), Suspects(g, c0, roots0);
    LiveSuspects(g, c0, r0, roots0);
    SuspectsNotGreen(g, c0, r0, roots0);
    var out := s - u;
    forall h: nat, x: nat | h in out && Edge(g, green, h, x)
      ensures x in out
    {
      assert x in s;
      if x in u {
        InUnion(g, u, Below(|g|) - u, x);
        assert u + (Below(|g|) - u) == Below(|g|);
        InZero(g, Below(|g|) - u, x);
      }
    }
    forall x | x in Held(g, r0, s)
      ensures x in out
    {
      InMonotone(g, u, s, x);
    }
    ReachLeast(g, green, Held(g, r0, s), out);
  }

  // ---- when the sweep does what it is meant to do ----

  /** The sweep stays within the garbage exactly when no garbage node has a live child. */
  lemma SweptExactly(g: Graph, c0: seq<Color>, r0: seq<int>, roots0: seq<nat>)
    requires Sized(g, c0, r0)
    ensures Swept(g, c0, r0, roots0) == Garbage(g, c0, r0, roots0)
            <==> NoLiveChild(g, Greens(c0), Garbage(g, c0, r0, roots0))
  {
    var green, w := Greens(c0), Garbage(g, c0, r0, roots0);
    LiveSuspects(g, c0, r0, roots0);
    if NoLiveChild(g, green, w) {
      ReachLeast(g, green, w, w);
    }
  }

  /** The sweep gives back exactly the references that trial deletion took, on every node that the
      collector enters. */
  ghost predicate CountsRestored(g: Graph, c0: seq<Color>, r0: seq<int>, roots0: seq<nat>) {
    forall x: nat :: x < |g| && x !in Greens(c0) ==>
      In(g, Swept(g, c0, r0, roots0), x) == In(g, Garbage(g, c0, r0, roots0), x)
  }

  ghost predicate Childless(g: Graph, green: set<nat>, u: nat) {
    forall k: nat :: !Edge(g, green, u, k)
  }

  /** Every live child of a garbage node is itself without children that the collector enters. */
  ghost predicate LiveChildrenChildless(g: Graph, green: set<nat>, w: set<nat>) {
    forall u: nat, k: nat :: u in w && k !in w && Edge(g, green, u, k) ==> Childless(g, green, k)
  }

  /** Counts come back right exactly when every live child of a garbage node is childless. */
  lemma RestoredExactly(g: Graph, c0: seq<Color>, r0: seq<int>, roots0: seq<nat>)
    requires Sized(g, c0, r0)
    ensures CountsRestored(g, c0, r0, roots0)
            <==> LiveChildrenChildless(g, Greens(c0), Garbage(g, c0, r0, roots0))
  {
    var green, w, p := Greens(c0), Garbage(g, c0, r0, roots0), Swept(g, c0, r0, roots0);
    LiveSuspects(g, c0, r0, roots0);
    forall x: nat
      ensures In(g, p, x) == In(g, w, x) + In(g, p - w, x)
    {
      InUnion(g, w, p - w, x);
      assert w + (p - w) == p;
    }
    if CountsRestored(g, c0, r0, roots0) {
      forall u: nat, k: nat | u in w && k !in w && Edge(g, green, u, k)
        ensures Childless(g, green, k)
      {
        assert k in p - w;
        forall j: nat
          ensures !Edge(g, green, k, j)
        {
          if Edge(g, green, k, j) {
            InZero(g, p - w, j);
          }
        }
      }
    }
    if LiveChildrenChildless(g, green, w) {
      SweptBeyond(g, green, w);
      forall x: nat | x < |g| && x !in green
        ensures In(g, p - w, x) == 0
      {
        InZero(g, p - w, x);
        forall h | h in p - w && h < |g|
          ensures x !in g[h]
        {
          assert !Edge(g, green, h, x);
        }
      }
    }
  }

  /** If live children are childless, the sweep goes one step beyond the garbage and no further. */
  lemma SweptBeyond(g: Graph, green: set<nat>, w: set<nat>)
    requires WellFormed(g) && LiveChildrenChildless(g, green, w) && forall x :: x in w ==> x < |g|
    ensures forall x :: x in Reach(g, green, w) - w ==> Childless(g, green, x)
  {
    var reach := set x | x in Reach(g, green, w) && (x in w || Childless(g, green, x));
    forall u: nat, k: nat | u in reach && Edge(g, green, u, k)
      ensures k in reach
    {
      ReachStep(g, green, w, u, k);
      assert u in w;
    }
    forall x | x in w
      ensures x in reach
    {
      ReachIncludes(g, green, w, x);
    }
    ReachLeast(g, green, w, reach);
  }

  /** Under that hypothesis a collection only queues garbage, leaves every count as it was but for the
      reference each queued node gains, and leaves the collector ready for the next run. */
  lemma CleanCollection(g: Graph, anon: set<nat>, c0: seq<Color>, r0: seq<int>, roots0: seq<nat>, queue: seq<nat>,
      c1: seq<Color>, r1: seq<int>, q: seq<nat>)
    requires Sized(g, c0, r0) && CountsCover(g, Greens(c0), r0, queue) && NoRepeats(queue)
    requires CollectionResult(g, anon, c0, r0, roots0, c1, r1, q)
    requires NoLiveChild(g, Greens(c0), Garbage(g, c0, r0, roots0))
    ensures Lists(q, Garbage(g, c0, r0, roots0) * anon)
    ensures forall x: nat :: x < |g| ==> r1[x] == r0[x] + if x in q then 1 else 0
    ensures NoRepeats(queue + q)
    ensures Greens(c1) == Greens(c0) && CountsCover(g, Greens(c1), r1, queue + q)
  {
    var green, s, w := Greens(c0), Suspects(g, c0, roots0), Garbage(g, c0, r0, roots0);
    SweptExactly(g, c0, r0, roots0);
    LiveSuspects(g, c0, r0, roots0);
    SuspectsNotGreen(g, c0, r0, roots0);
    assert Greens(c1) == green;
    forall x | x in w
      ensures x !in queue
    {
      if x in queue {
        InMonotone(g, s, Below(|g|), x);
        ReachIncludes(g, green, Held(g, r0, s), x);
      }
    }
    assert Elements(q) == w * anon;
    forall i, j | 0 <= i < j < |queue + q|
      ensures (queue + q)[i] != (queue + q)[j]
    {
      if i < |queue| <= j {
        assert (queue + q)[j] in Elements(q);
      }
    }
  }

  /** The queue holds exactly the anonymous garbage if and only if the sweep meets no other anonymous object. */
  lemma QueuedExactly(g: Graph, anon: set<nat>, c0: seq<Color>, r0: seq<int>, roots0: seq<nat>, c1: seq<Color>,
      r1: seq<int>, q: seq<nat>)
    requires CollectionResult(g, anon, c0, r0, roots0, c1, r1, q)
    ensures Lists(q, Garbage(g, c0, r0, roots0) * anon)
            <==> forall x :: x in Swept(g, c0, r0, roots0) && x in anon ==> x in Garbage(g, c0, r0, roots0)
  {
    var w, p := Garbage(g, c0, r0, roots0), Swept(g, c0, r0, roots0);
    LiveSuspects(g, c0, r0, roots0);
    if Lists(q, w * anon) {
      forall x | x in p && x in anon ensures x in w {
        assert x in p * anon;
        assert x in Elements(q);
      }
    } else {
      assert !(p * anon <= w * anon);
    }
  }

  /** The state between collections. */
  ghost predicate AtRest(g: Graph, color: seq<Color>, rc: seq<int>, buffered: seq<bool>, roots: seq<nat>,
      queue: seq<nat>) {
    && Sized(g, color, rc) && Tracked(|g|, roots, buffered)
    && (forall x: nat :: x < |g| ==> color[x] in {Green, Yellow, Black, Purple})
    && (forall x: nat :: x < |g| && color[x] == Purple ==> rc[x] > 0 && x in roots)
    && CountsCover(g, Greens(color), rc, queue)
    && NoRepeats(queue)
  }

  lemma RestStarts(g: Graph, color: seq<Color>, rc: seq<int>, buffered: seq<bool>, roots: seq<nat>, queue: seq<nat>)
    requires AtRest(g, color, rc, buffered, roots, queue)
    ensures Startable(g, color, rc) && Tracked(|g|, roots, buffered)
  {
  }

  lemma TrackedBounds(n: nat, roots: seq<nat>, buffered: seq<bool>)
    requires Tracked(n, roots, buffered)
    ensures forall x :: x in roots ==> x < n
  {
  }

  lemma MarkedSpan(g: Graph, c0: seq<Color>, r0: seq<int>, roots0: seq<nat>, c1: seq<Color>, r1: seq<int>,
      roots: seq<nat>)
    requires RootsMarked(g, c0, r0, roots0, c1, r1, roots)
    ensures Reach(g, Greens(c0), Elements(roots)) == Suspects(g, c0, roots0)
  {
  }

  lemma TrialSized(g: Graph, c0: seq<Color>, r0: seq<int>, roots0: seq<nat>, c1: seq<Color>, r1: seq<int>)
    requires Startable(g, c0, r0) && Trial(g, c0, r0, roots0, c1, r1)
    ensures Sized(g, c1, r1) && forall x: nat :: x < |g| ==> c1[x] != Pink
  {
  }

  lemma RestAgain(g: Graph, anon: set<nat>, c0: seq<Color>, r0: seq<int>, b0: seq<bool>, roots0: seq<nat>,
      queue: seq<nat>, c1: seq<Color>, r1: seq<int>, b1: seq<bool>, q: seq<nat>)
    requires AtRest(g, c0, r0, b0, roots0, queue) && Tracked(|g|, [], b1)
    requires CollectionResult(g, anon, c0, r0, roots0, c1, r1, q)
    ensures NoLiveChild(g, Greens(c0), Garbage(g, c0, r0, roots0)) ==> AtRest(g, c1, r1, b1, [], queue + q)
  {
    forall x: nat | x < |g| && c0[x] == Purple
      ensures x in Suspects(g, c0, roots0)
    {
      ReachIncludes(g, Greens(c0), RootsOf(Purple, c0, roots0), x);
    }
    if NoLiveChild(g, Greens(c0), Garbage(g, c0, r0, roots0)) {
      CleanCollection(g, anon, c0, r0, roots0, queue, c1, r1, q);
    }
  }

  /** A one-node garbage cycle that refers to a live list holding an anonymous object. */
  ghost predicate Hazard(g: Graph, color: seq<Color>, rc: seq<int>, roots: seq<nat>) {
    && g == [[0, 1], [2], []] && color == [Purple, Black, Black] && rc == [1, 2, 1] && roots == [0]
  }

  lemma HazardCounts(g: Graph, s: set<nat>)
    requires g == [[0, 1], [2], []]
    ensures In(g, s, 0) == In(g, s, 1) == if 0 in s then 1 else 0
    ensures In(g, s, 2) == if 1 in s then 1 else 0
  {
    forall x: nat
      ensures Count([0, 1], x) == (if x == 0 then 1 else 0) + if x == 1 then 1 else 0
      ensures Count([2], x) == if x == 2 then 1 else 0
    {
      assert [0, 1][..1] == [0] && [0][..0] == [] && [2][..0] == [];
      assert Count([0], x) == if x == 0 then 1 else 0;
    }
    forall x: nat | x < 3
      ensures In(g, s, x) == (if 0 in s then Count([0, 1], x) else 0) + (if 1 in s then Count([2], x) else 0)
    {
      assert InBelow(g, 1, s, x) == if 0 in s then Count(g[0], x) else 0;
      assert InBelow(g, 2, s, x) == InBelow(g, 1, s, x) + if 1 in s then Count(g[1], x) else 0;
      assert InBelow(g, 3, s, x) == InBelow(g, 2, s, x) + if 2 in s then Count(g[2], x) else 0;
    }
  }

  lemma HazardReach(g: Graph, from: set<nat>)
    requires g == [[0, 1], [2], []]
    ensures from == {0} ==> Reach(g, {}, from) == {0, 1, 2}
    ensures from == {1} ==> Reach(g, {}, from) == {1, 2}
  {
    if from == {0} {
      ReachIncludes(g, {}, from, 0);
      ReachStep(g, {}, from, 0, 1);
      ReachStep(g, {}, from, 1, 2);
    } else if from == {1} {
      ReachIncludes(g, {}, from, 1);
      ReachStep(g, {}, from, 1, 2);
      ReachLeast(g, {}, from, {1, 2});
    }
  }

  lemma HazardFindings(g: Graph, color: seq<Color>, rc: seq<int>, roots: seq<nat>)
    requires Hazard(g, color, rc, roots)
    ensures Greens(color) == {} && Garbage(g, color, rc, roots) == {0}
  {
    assert Greens(color) == {};
    assert RootsOf(Purple, color, roots) == {0};
    HazardReach(g, {0});
    HazardCounts(g, {0, 1, 2});
    assert Held(g, rc, {0, 1, 2}) == {1};
    HazardReach(g, {1});
  }

  /** The hypothesis is needed.  In Hazard the list is swept, and the object it holds is counted once
      too often and then queued, although neither is garbage. */
  lemma SweepCanHitLiveNodes(g: Graph, color: seq<Color>, rc: seq<int>, roots: seq<nat>)
    requires Hazard(g, color, rc, roots)
    ensures AtRest(g, color, rc, [true, false, false], roots, [])
    ensures 2 !in Garbage(g, color, rc, roots) && 2 in Swept(g, color, rc, roots)
    ensures In(g, Swept(g, color, rc, roots), 2) == In(g, Garbage(g, color, rc, roots), 2) + 1
  {
    HazardFindings(g, color, rc, roots);
    HazardReach(g, {0});
    HazardCounts(g, {0, 1, 2});
    HazardCounts(g, {0});
    HazardCounts(g, Below(3));
  }

  /** An anonymous object that refers to itself and to a live anonymous object without references of its own. */
  ghost predicate Neighbours(g: Graph, color: seq<Color>, rc: seq<int>, roots: seq<nat>) {
    g == [[0, 1], []] && color == [Purple, Black] && rc == [1, 2] && roots == [0]
  }

  lemma NeighbourCounts(g: Graph, s: set<nat>)
    requires g == [[0, 1], []]
    ensures In(g, s, 0) == In(g, s, 1) == if 0 in s then 1 else 0
  {
    forall x: nat ensures Count([0, 1], x) == (if x == 0 then 1 else 0) + if x == 1 then 1 else 0 {
      assert [0, 1][..1] == [0] && [0][..0] == [];
      assert Count([0], x) == if x == 0 then 1 else 0;
    }
    forall x: nat ensures In(g, s, x) == if 0 in s then Count([0, 1], x) else 0 {
      assert InBelow(g, 1, s, x) == if 0 in s then Count(g[0], x) else 0;
      assert InBelow(g, 2, s, x) == InBelow(g, 1, s, x) + if 1 in s then Count(g[1], x) else 0;
    }
  }

  lemma NeighbourReach(g: Graph, from: set<nat>)
    requires g == [[0, 1], []]
    ensures from == {0} ==> Reach(g, {}, from) == {0, 1}
    ensures from == {1} ==> Reach(g, {}, from) == {1}
  {
    if from == {0} {
      ReachIncludes(g, {}, from, 0);
      ReachStep(g, {}, from, 0, 1);
    } else if from == {1} {
      ReachIncludes(g, {}, from, 1);
      ReachLeast(g, {}, from, {1});
    }
  }

  /** All counts come back right, and the live object is queued all the same. */
  lemma LiveObjectQueued(g: Graph, color: seq<Color>, rc: seq<int>, roots: seq<nat>)
    requires Neighbours(g, color, rc, roots)
    ensures AtRest(g, color, rc, [true, false], roots, [])
    ensures LiveChildrenChildless(g, Greens(color), Garbage(g, color, rc, roots))
    ensures 1 in Swept(g, color, rc, roots) && 1 !in Garbage(g, color, rc, roots)
  {
    assert Greens(color) == {};
    assert RootsOf(Purple, color, roots) == {0};
    NeighbourReach(g, {0});
    NeighbourCounts(g, {0, 1});
    NeighbourCounts(g, Below(2));
    assert Held(g, rc, {0, 1}) == {1};
    NeighbourReach(g, {1});
    assert Garbage(g, color, rc, roots) == {0};
  }
}
