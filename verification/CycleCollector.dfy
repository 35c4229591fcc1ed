/** The trial-deletion collector of garbage.cc: colours, counts, buffered flags and the list of
    possible roots are updated in place by recursive passes over the object graph. */
module CycleCollector {
  import opened CycleGraph
  import opened CyclePasses
  import opened CycleTheorems

  class Collector {
    const kids: Graph
    const anon: set<nat>
    var color: seq<Color>
    var rc: seq<int>
    var buffered: seq<bool>
    var roots: seq<nat>
    var queue: seq<nat>
    var freed: seq<nat>

    /** gc_possible_root: v has just lost a reference, and others remain. */
    method PossibleRoot(v: nat)
      requires AtRest(kids, color, rc, buffered, roots, queue) && v < |kids| && rc[v] > 0
      modifies this`color, this`buffered, this`roots
      ensures AtRest(kids, color, rc, buffered, roots, queue)
      ensures color == if old(color)[v] in {Purple, Green, Yellow} then old(color) else old(color)[v := Purple]
      ensures roots == if old(color)[v] in {Purple, Green, Yellow} || v in old(roots) then old(roots)
          else old(roots) + [v]
    {
      var c := color[v];
      if c != Purple && c != Green && c != Yellow {
        color := color[v := Purple];
        assert Greens(color) == Greens(old(color));
        if !buffered[v] {
          buffered := buffered[v := true];
          roots := roots + [v];
        }
      }
    }

    method MarkGray(v: nat) returns (ghost s: set<nat>)
      requires Sized(kids, color, rc) && v < |kids| && color[v] != Green
      modifies this`color, this`rc
      ensures Flooded(kids, Gray, false, v, old(color), old(rc), color, rc, s)
      decreases Unpainted(color, Gray)
    {
      hide *;
      SizedBounds(kids, color, rc);
      ghost var r0, c0 := rc, color;
      if color[v] != Gray {
        FloodStarts(kids, Gray, false, v, color, rc);
        s := {};
        color := color[v := Gray];
        for i := 0 to |kids[v]|
          invariant Flooding(kids, Gray, false, v, i, c0, r0, color, rc, s)
        {
          FloodingBounds(kids, Gray, false, v, i, c0, r0, color, rc, s);
          var k := kids[v][i];
          ghost var r1, c1 := rc, color;
          if color[k] != Green {
            rc := rc[k := rc[k] - 1];
            NudgeKeepsSize(kids, c1, r1, k, false);
            var t := MarkGray(k);
            FloodVisitsKid(kids, Gray, false, v, i, c0, r0, c1, r1, s, color, rc, t);
            s := s + t;
          } else {
            FloodSkipsGreen(kids, Gray, false, v, i, c0, r0, color, rc, s);
          }
        }
        FloodEnds(kids, Gray, false, v, c0, r0, color, rc, s);
        s := s + {v};
      } else {
        s := {};
        FloodedAlready(kids, Gray, false, v, color, rc);
      }
    }

    method MarkRoots()
      requires Startable(kids, color, rc) && Tracked(|kids|, roots, buffered)
      modifies this`color, this`rc, this`buffered, this`roots, this`freed
      ensures RootsMarked(kids, old(color), old(rc), old(roots), color, rc, roots)
      ensures Tracked(|kids|, roots, buffered)
      ensures freed == old(freed) + Dead(old(roots), old(color), old(rc))
    {
      hide *;
      ghost var s, c0, r0, all, freed0 := {}, color, rc, roots, freed;
      StartableBounds(kids, color, rc);
      var i := 0;
      ghost var n, dead := 0, [];
      MarkingStarts(kids, c0, r0, buffered, all);
      while i < |roots|
        invariant MarkingRoots(kids, c0, r0, all, n, color, rc, buffered, roots, i, dead, s)
        invariant freed == freed0 + dead
        decreases |all| - n
      {
        var v := roots[i];
        MarkingBounds(kids, c0, r0, all, n, color, rc, buffered, roots, i, dead, s);
        if color[v] == Purple {
          ghost var c1, r1 := color, rc;
          var t := MarkGray(v);
          MarkingKeeps(kids, c0, r0, all, n, c1, r1, buffered, roots, i, dead, s, color, rc, t);
          s := s + t;
          i := i + 1;
        } else {
          MarkingRemoves(kids, c0, r0, all, n, color, rc, buffered, roots, i, dead, s);
          roots := roots[..i] + roots[i + 1..];
          buffered := buffered[v := false];
          if color[v] == Black && rc[v] == 0 {
            freed := freed + [v];
            dead := dead + [v];
          }
        }
        n := n + 1;
      }
      MarkingBounds(kids, c0, r0, all, n, color, rc, buffered, roots, i, dead, s);
      MarkedRootsHold(kids, c0, r0, all, n, color, rc, buffered, roots, dead, s);
    }

    method ScanBlack(v: nat) returns (ghost s: set<nat>)
      requires Sized(kids, color, rc) && v < |kids| && color[v] != Green && color[v] != Black
      modifies this`color, this`rc
      ensures Flooded(kids, Black, true, v, old(color), old(rc), color, rc, s)
      decreases Unpainted(color, Black)
    {
      hide *;
      ghost var r0, c0 := rc, color;
      FloodStarts(kids, Black, true, v, color, rc);
      s := {};
      color := color[v := Black];
      for i := 0 to |kids[v]|
        invariant Flooding(kids, Black, true, v, i, c0, r0, color, rc, s)
      {
        FloodingBounds(kids, Black, true, v, i, c0, r0, color, rc, s);
        var k := kids[v][i];
        ghost var r1, c1 := rc, color;
        if color[k] != Green {
          rc := rc[k := rc[k] + 1];
          NudgeKeepsSize(kids, c1, r1, k, true);
          ghost var t := {};
          FloodedUnlessNeeded(kids, Black, k, color, rc);
          if color[k] != Black {
            t := ScanBlack(k);
          }
          FloodVisitsKid(kids, Black, true, v, i, c0, r0, c1, r1, s, color, rc, t);
          s := s + t;
        } else {
          FloodSkipsGreen(kids, Black, true, v, i, c0, r0, color, rc, s);
        }
      }
      FloodEnds(kids, Black, true, v, c0, r0, color, rc, s);
      s := s + {v};
    }

    method Scan(v: nat, ghost s: set<nat>, ghost r0: seq<int>)
      requires ScanOk(kids, Greens(color), s, r0, color, rc) && v in s
      modifies this`color, this`rc
      ensures Scanned(kids, s, r0, v, old(color), color, rc)
      decreases Painted(color, Gray)
    {
      hide *;
      ScanBounds(kids, s, r0, color, rc);
      ghost var c0, rc0 := color, rc;
      if color[v] == Gray {
        if rc[v] > 0 {
          var t := ScanBlack(v);
          ScanBlackStep(kids, Greens(c0), s, r0, c0, rc0, v, color, rc, t);
        } else {
          ScanWhiteStarts(kids, s, r0, color, rc, v);
          color := color[v := White];
          for i := 0 to |kids[v]|
            invariant Scanning(kids, s, r0, v, i, c0, color, rc)
          {
            var k := kids[v][i];
            ghost var c1, r1 := color, rc;
            ScanningKid(kids, s, r0, v, i, c0, color, rc);
            if color[k] != Green {
              Scan(k, s, r0);
              ScannedKid(kids, s, r0, v, i, c0, c1, r1, color, rc);
            }
          }
          ScanWhiteEnds(kids, s, r0, v, c0, color, rc);
        }
      } else {
        ScanSettled(kids, s, r0, color, rc, v);
      }
    }

    /** scan_roots, and what trial deletion has found once it is done. */
    method ScanRoots(ghost c0: seq<Color>, ghost r0: seq<int>, ghost roots0: seq<nat>)
      requires Sized(kids, c0, r0)
      requires RootsMarked(kids, c0, r0, roots0, color, rc, roots)
      modifies this`color, this`rc
      ensures Trial(kids, c0, r0, roots0, color, rc)
    {
      hide *;
      ghost var s, cm, rm := Suspects(kids, c0, roots0), color, rc;
      MarkedToScan(kids, c0, r0, roots0, color, rc, roots);
      for i := 0 to |roots|
        invariant ScanningRoots(kids, s, r0, roots, i, cm, color, rc)
      {
        ghost var c1, r1 := color, rc;
        ScanningRootsBounds(kids, s, r0, roots, i, cm, color, rc);
        Scan(roots[i], s, r0);
        ScannedRoot(kids, s, r0, roots, i, cm, c1, r1, color, rc);
      }
      TrialHolds(kids, c0, r0, roots0, cm, rm, roots, color, rc);
    }

    method ScanWhite(v: nat) returns (ghost s: set<nat>)
      requires Sized(kids, color, rc) && v < |kids| && color[v] != Green && color[v] != Pink
      modifies this`color, this`rc
      ensures Flooded(kids, Pink, true, v, old(color), old(rc), color, rc, s)
      decreases Unpainted(color, Pink)
    {
      hide *;
      ghost var r0, c0 := rc, color;
      FloodStarts(kids, Pink, true, v, color, rc);
      s := {};
      color := color[v := Pink];
      for i := 0 to |kids[v]|
        invariant Flooding(kids, Pink, true, v, i, c0, r0, color, rc, s)
      {
        FloodingBounds(kids, Pink, true, v, i, c0, r0, color, rc, s);
        var k := kids[v][i];
        ghost var r1, c1 := rc, color;
        if color[k] != Green {
          rc := rc[k := rc[k] + 1];
          NudgeKeepsSize(kids, c1, r1, k, true);
          ghost var t := {};
          FloodedUnlessNeeded(kids, Pink, k, color, rc);
          if color[k] != Pink {
            t := ScanWhite(k);
          }
          FloodVisitsKid(kids, Pink, true, v, i, c0, r0, c1, r1, s, color, rc, t);
          s := s + t;
        } else {
          FloodSkipsGreen(kids, Pink, true, v, i, c0, r0, color, rc, s);
        }
      }
      FloodEnds(kids, Pink, true, v, c0, r0, color, rc, s);
      s := s + {v};
    }

    /** restore_white: everything reachable from the white roots is turned pink and gives back its
        references, whether it was white or not. */
    method RestoreWhite()
      requires Sized(kids, color, rc) && (forall x: nat :: x < |kids| ==> color[x] != Pink)
      requires forall x :: x in roots ==> x < |kids|
      modifies this`color, this`rc
      ensures RootsRestored(kids, roots, old(color), old(rc), color, rc)
    {
      hide *;
      SizedBounds(kids, color, rc);
      ghost var s, c0, r0, white := {}, color, rc, [];
      RootsFloodedStart(kids, White, Pink, true, c0, r0);
      for i := 0 to |roots|
        invariant RootsFlooded(kids, White, Pink, true, c0, r0, roots[..i], white, color, rc, s)
      {
        var v := roots[i];
        assert v in roots && roots[..i + 1] == roots[..i] + [v];
        RootsFloodedBounds(kids, White, Pink, true, c0, r0, roots[..i], white, color, rc, s);
        if color[v] == White {
          ghost var c1, r1 := color, rc;
          var t := ScanWhite(v);
          RootFlooded(kids, White, Pink, true, c0, r0, roots[..i], white, c1, r1, s, v, color, rc, t);
          s := s + t;
          white := white + [v];
        } else {
          RootSkipped(kids, White, Pink, true, c0, r0, roots[..i], white, color, rc, s, v);
        }
      }
      assert roots[..|roots|] == roots;
      RestoredHolds(kids, c0, r0, roots, white, color, rc, s);
    }

    method CollectWhite(v: nat) returns (ghost q: seq<nat>, ghost s: set<nat>)
      requires Sized(kids, color, rc) && |buffered| == |kids| && v < |kids|
      requires PinkCounted(color, rc)
      modifies this`color, this`rc, this`queue
      ensures Collected(kids, anon, buffered, old(color), old(rc), color, rc, q, s, {})
      ensures queue == old(queue) + q
      ensures color[v] != Pink || buffered[v]
      decreases Painted(color, Pink)
    {
      hide *;
      SizedBounds(kids, color, rc);
      q, s := [], {};
      ghost var r0, c0, q0 := rc, color, queue;
      if color[v] == Pink && !buffered[v] {
        CollectOpens(kids, anon, buffered, color, rc, v);
        color := color[v := Black];
        for i := 0 to |kids[v]|
          invariant Collecting(kids, anon, buffered, v, i, c0, r0, color, rc, q, s)
          invariant queue == q0 + q
        {
          var k := kids[v][i];
          CollectingKid(kids, anon, buffered, v, i, c0, r0, color, rc, q, s);
          PinkStaysCounted(kids, anon, buffered, v, i, c0, r0, color, rc, q, s);
          if color[k] != Green {
            ghost var c1, r1 := color, rc;
            ghost var q', t;
            q', t := CollectWhite(k);
            CollectedKid(kids, anon, buffered, v, i, c0, r0, c1, r1, q, s, color, rc, q', t);
            q, s := q + q', s + t;
          }
        }
        CollectCloses(kids, anon, buffered, c0, r0, color, rc, q, s, v);
        PinkStaysCounted(kids, anon, buffered, v, |kids[v]|, c0, r0, color, rc, q, s);
        if v in anon {
          assert rc[v] != 0;
          queue := queue + [v];
          rc := rc[v := rc[v] + 1];
          q := q + [v];
        }
        s := s + {v};
      } else {
        CollectedNothing(kids, anon, buffered, color, rc);
      }
    }

    method CollectRoots() returns (ghost q: seq<nat>)
      requires Tracked(|kids|, roots, buffered) && Collectable(kids, color, rc, roots)
      modifies this`color, this`rc, this`buffered, this`roots, this`queue
      ensures RootsCollected(anon, old(color), old(rc), color, rc, q) && queue == old(queue) + q
      ensures roots == [] && Tracked(|kids|, roots, buffered)
    {
      hide *;
      ghost var s, c0, r0, q0, all, n := {}, color, rc, queue, roots, 0;
      q := [];
      CollectingStarts(kids, anon, buffered, color, rc, roots);
      while roots != []
        invariant CollectingRoots(kids, anon, buffered, c0, r0, color, rc, q, s, all, n, roots)
        invariant queue == q0 + q
        decreases |roots|
      {
        var v := roots[0];
        ghost var b1, c1, r1, roots1 := buffered, color, rc, roots;
        CollectingRemoves(kids, anon, buffered, c0, r0, color, rc, q, s, all, n, roots);
        PinkLeft(kids, anon, buffered, c0, r0, color, rc, q, s, all, n, roots);
        roots := roots[1..];
        buffered := buffered[v := false];
        ghost var q', t;
        q', t := CollectWhite(v);
        CollectedRoot(kids, anon, b1, c0, r0, c1, r1, q, s, all, n, roots1, color, rc, q', t);
        q, s, n := q + q', s + t, n + 1;
      }
      CollectedHolds(kids, anon, buffered, c0, r0, color, rc, q, s, all, n);
    }

    /** gc_collect.  The result holds on every graph; whether it is what was meant is RestoredExactly,
        QueuedExactly and CleanCollection of CycleTheorems. */
    method Collect() returns (ghost q: seq<nat>)
      requires AtRest(kids, color, rc, buffered, roots, queue)
      modifies this
      ensures CollectionResult(kids, anon, old(color), old(rc), old(roots), color, rc, q)
      ensures queue == old(queue) + q
      ensures roots == [] && Tracked(|kids|, roots, buffered)
      ensures freed == old(freed) + Dead(old(roots), old(color), old(rc))
      ensures NoLiveChild(kids, Greens(old(color)), Garbage(kids, old(color), old(rc), old(roots)))
          ==> AtRest(kids, color, rc, buffered, roots, queue)
    {
      hide *;
      ghost var c0, r0, b0, roots0, queue0 := color, rc, buffered, roots, queue;
      q := [];
      RestStarts(kids, color, rc, buffered, roots, queue);
      if roots == [] {
        NothingToCollect(kids, anon, color, rc);
        return;
      }
      MarkRoots();
      MarkedSpan(kids, c0, r0, roots0, color, rc, roots);
      ScanRoots(c0, r0, roots0);
      TrialSized(kids, c0, r0, roots0, color, rc);
      TrackedBounds(|kids|, roots, buffered);
      ghost var c1, r1, kept := color, rc, roots;
      RestoreWhite();
      SweptFromRoots(kids, c0, r0, roots0, kept, c1, r1, color, rc);
      ghost var c2, r2 := color, rc;
      q := CollectRoots();
      ResultHolds(kids, anon, c0, r0, roots0, kept, c1, r1, c2, r2, color, rc, q);
      RestAgain(kids, anon, c0, r0, b0, roots0, queue0, color, rc, buffered, q);
    }
  }
}
