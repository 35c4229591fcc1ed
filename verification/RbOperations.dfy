/** What the rest of the server sees of a map: insertion, copying and comparison. */
module RbOperations {
  import opened RbTree
  import opened RbInsert
  import opened RbHeap
  import opened RbMap
  import opened RbTraversal

  /** The finite map that a sequence of items stands for. */
  ghost function AsMap(items: seq<Pair>): map<int, Pair> {
    if items == [] then map[]
    else AsMap(items[..|items| - 1])[items[|items| - 1].key.rank := items[|items| - 1]]
  }

  lemma {:induction false} AsMapHas(items: seq<Pair>, rank: int)
    requires Sorted(items)
    ensures rank in AsMap(items) <==> !Absent(items, rank)
    ensures forall i :: 0 <= i < |items| && items[i].key.rank == rank ==> AsMap(items)[rank] == items[i]
    decreases |items|
  {
    if items != [] {
      var n := |items| - 1;
      AsMapHas(items[..n], rank);
      if items[n].key.rank != rank && !Absent(items, rank) {
        var i :| 0 <= i < |items| && items[i].key.rank == rank;
        assert items[..n][i].key.rank == rank;
      }
      forall i | 0 <= i < |items| && items[i].key.rank == rank ensures AsMap(items)[rank] == items[i] {
        if i < n {
          assert items[..n][i] == items[i];
        }
      }
    }
  }

  /** The item of the rank is one of the items. */
  lemma AsMapAt(items: seq<Pair>, i: nat)
    requires Sorted(items) && i < |items|
    ensures items[i].key.rank in AsMap(items) && AsMap(items)[items[i].key.rank] == items[i]
  {
    hide AsMap;
    AsMapHas(items, items[i].key.rank);
  }

  lemma AsMapOne(items: seq<Pair>, rank: int) returns (i: nat)
    requires Sorted(items) && rank in AsMap(items)
    ensures i < |items| && items[i].key.rank == rank && AsMap(items)[rank] == items[i]
  {
    hide AsMap;
    AsMapHas(items, rank);
    i :| 0 <= i < |items| && items[i].key.rank == rank;
  }

  lemma InsertedMap(items: seq<Pair>, item: Pair, now: seq<Pair>)
    requires Sorted(items) && Sorted(now) && Inserted(items, item, now)
    ensures AsMap(now) == AsMap(items)[item.key.rank := item]
  {
    hide AsMap, Sorted, AllBelow, AllAbove;
    var i :| 0 <= i <= |items| && now == items[..i] + [item] + items[i..] && AllBelow(items[..i], item.key.rank)
             && AllAbove(items[i..], item.key.rank);
    var was, after := AsMap(items)[item.key.rank := item], AsMap(now);
    forall rank: int | rank in after ensures rank in was && was[rank] == after[rank] {
      var j := AsMapOne(now, rank);
      if j < i {
        AsMapAt(items, j);
        BelowItem(items, i, item, j);
      } else if j > i {
        AsMapAt(items, j - 1);
        AboveItem(items, i, item, j - 1);
      }
    }
    forall rank: int | rank in was ensures rank in after {
      AsMapAt(now, i);
      if rank != item.key.rank {
        var j := AsMapOne(items, rank);
        AsMapAt(now, if j < i then j else j + 1);
      }
    }
  }

  lemma BelowItem(items: seq<Pair>, i: nat, item: Pair, j: nat)
    requires j < i <= |items| && AllBelow(items[..i], item.key.rank)
    ensures items[j].key.rank < item.key.rank
  {
    assert items[..i][j] == items[j];
  }

  lemma AboveItem(items: seq<Pair>, i: nat, item: Pair, j: nat)
    requires i <= j < |items| && AllAbove(items[i..], item.key.rank)
    ensures items[j].key.rank > item.key.rank
  {
    assert items[i..][j - i] == items[j];
  }

  lemma ErasedMap(items: seq<Pair>, rank: int, now: seq<Pair>)
    requires Sorted(items) && Sorted(now) && Erased(items, rank, now)
    ensures AsMap(now) == AsMap(items) - {rank}
  {
    hide AsMap, Sorted;
    var i :| 0 <= i < |items| && items[i].key.rank == rank && now == items[..i] + items[i + 1..];
    var was, after := AsMap(items) - {rank}, AsMap(now);
    forall k: int | k in after ensures k in was && was[k] == after[k] {
      var j := AsMapOne(now, k);
      AsMapAt(items, if j < i then j else j + 1);
      SortedApart(items, i, if j < i then j else j + 1);
    }
    forall k: int | k in was ensures k in after {
      var j := AsMapOne(items, k);
      AsMapAt(now, if j < i then j else j - 1);
    }
  }

  lemma SortedApart(items: seq<Pair>, i: nat, j: nat)
    requires Sorted(items) && i < |items| && j < |items| && i != j
    ensures items[i].key.rank != items[j].key.rank
  {
  }

  /** Two trees with the same map hold the same items. */
  lemma {:induction false} SameMapSameItems(a: seq<Pair>, b: seq<Pair>)
    requires Sorted(a) && Sorted(b) && AsMap(a) == AsMap(b)
    ensures a == b
    decreases |a|
  {
    if a == [] {
      if b != [] {
        AsMapAt(b, 0);
      }
    } else {
      var x := a[|a| - 1];
      AsMapHas(a, x.key.rank);
      AsMapHas(b, x.key.rank);
      var j :| 0 <= j < |b| && b[j].key.rank == x.key.rank;
      var y := b[|b| - 1];
      AsMapHas(a, y.key.rank);
      AsMapHas(b, y.key.rank);
      var i :| 0 <= i < |a| && a[i].key.rank == y.key.rank;
      assert j == |b| - 1;
      LastOut(a);
      LastOut(b);
      SameMapSameItems(a[..|a| - 1], b[..|b| - 1]);
    }
  }

  lemma LastOut(a: seq<Pair>)
    requires Sorted(a) && a != []
    ensures Sorted(a[..|a| - 1]) && AsMap(a[..|a| - 1]) == AsMap(a) - {a[|a| - 1].key.rank}
  {
    var n := |a| - 1;
    AsMapHas(a[..n], a[n].key.rank);
    assert Absent(a[..n], a[n].key.rank);
  }

  /** mapinsert: the old item of the key is taken out and the new one put in. */
  method MapInsert(m: RbMap, item: Pair)
    requires m.Valid()
    modifies m
    ensures m.Valid() && AsMap(Items(m.tree)) == old(AsMap(Items(m.tree)))[item.key.rank := item]
  {
    hide RedBlack, In, Distinct, AsMap, Erased, Inserted, Absent;
    var rank := item.key.rank;
    ghost var items := Items(m.tree);
    var erased := m.RbErase(rank);
    ghost var mid := Items(m.tree);
    if erased {
      ErasedMap(items, rank, mid);
    }
    m.RbInsert(item);
    InsertedMap(mid, item, Items(m.tree));
    if erased {
      assert (AsMap(items) - {rank})[rank := item] == AsMap(items)[rank := item];
    }
  }

  /** maplookup, by way of rbfind. */
  method MapLookup(m: RbMap, rank: int) returns (found: bool, value: Value)
    requires m.Valid()
    ensures found <==> rank in AsMap(Items(m.tree))
    ensures found ==> value == AsMap(Items(m.tree))[rank].value
  {
    hide RedBlack, AsMap, Absent, Around, Leads, Items, Sorted;
    ghost var way, sub := Top, m.tree;
    var it := m.root;
    LeadsTop(m.tree);
    AroundTop(rank);
    ReadHere(m.heap, way, sub, m.tree);
    AsMapHas(Items(m.tree), rank);
    found, value := false, 0;
    while it != NIL && m.heap[it].item.key.rank != rank
      invariant it == Root(sub) && Leads(way, sub, m.tree) && Around(way, rank) && (it != NIL <==> sub.N?)
      invariant it != NIL ==> it in m.heap && m.heap[it].item == sub.item
      decreases sub
    {
      ReadHere(m.heap, way, sub, m.tree);
      var dir := m.heap[it].item.key.rank < rank;
      SearchDown(way, sub, m.tree, rank);
      LeadsDown(way, sub, m.tree, dir);
      it := Link(m.heap[it], dir);
      way, sub := Down(sub, dir, way), Child(sub, dir);
      ReadHere(m.heap, way, sub, m.tree);
    }
    if it != NIL {
      SearchFinds(way, sub, m.tree, rank);
      FoundItem(way, sub, m.tree);
      found, value := true, m.heap[it].item.value;
    } else {
      SearchEnds(way, m.tree, rank);
    }
  }

  lemma FoundItem(p: Path, t: Tree, whole: Tree)
    requires t.N? && Leads(p, t, whole)
    ensures exists i :: 0 <= i < |Items(whole)| && Items(whole)[i] == t.item
  {
    ItemsPlug(p, t);
    var i := |Before(p)| + |Items(t.left)|;
    assert Items(whole)[i] == t.item;
  }

  lemma AppendLast(done: seq<Pair>, rest: seq<Pair>, item: Pair, now: seq<Pair>)
    requires rest != [] && item == rest[0] && Sorted(done + rest) && Inserted(done, item, now) && Sorted(done)
        && Sorted(now)
    ensures now == done + [item] && now + rest[1..] == done + rest
  {
    hide AsMap, Inserted, Sorted;
    InsertedMap(done, item, now);
    AsMapLast(done, item);
    SortedPart(done, rest);
    SameMapSameItems(now, done + [item]);
    assert [item] + rest[1..] == rest;
  }

  lemma AsMapLast(done: seq<Pair>, item: Pair)
    ensures AsMap(done + [item]) == AsMap(done)[item.key.rank := item]
  {
    assert (done + [item])[..|done|] == done;
  }

  lemma SortedPart(done: seq<Pair>, rest: seq<Pair>)
    requires rest != [] && Sorted(done + rest)
    ensures Sorted(done + [rest[0]])
  {
    var all, more := done + rest, done + [rest[0]];
    forall i, j | 0 <= i < j < |more| ensures more[i].key.rank < more[j].key.rank {
      assert more[i] == all[i] && more[j] == all[j];
    }
  }

  lemma NotYet(done: seq<Pair>, rest: seq<Pair>)
    requires rest != [] && Sorted(done + rest)
    ensures Absent(done, rest[0].key.rank)
  {
    var all := done + rest;
    forall i | 0 <= i < |done| ensures done[i].key.rank != rest[0].key.rank {
      assert all[i] == done[i] && all[|done|] == rest[0];
    }
  }

  /** map_dup: a traversal of one tree fills another. */
  method MapDup(m: RbMap) returns (copy: RbMap)
    requires m.Valid() && m.size < 0xffff_ffff
    ensures fresh(copy) && copy.Valid() && Items(copy.tree) == Items(m.tree) && copy.size == m.size
  {
    hide RedBlack, In, Distinct, Items, Inserted, Absent, Coming, Leads, Height, Sorted;
    copy := new RbMap();
    var trav := new Traversal(m);
    trav.First();
    assert Items(copy.tree) + trav.Rest() == Items(m.tree);
    while trav.it != NIL
      invariant trav.Valid() && trav.owner == m && copy.Valid() && fresh(copy) && fresh(trav) && fresh(trav.path)
      invariant Items(copy.tree) + trav.Rest() == Items(m.tree)
      decreases |trav.Rest()|
    {
      ghost var done, rest := Items(copy.tree), trav.Rest();
      CurrentItem(trav);
      NotYet(done, rest);
      var item := m.heap[trav.it].item;
      copy.RbInsert(item);
      AppendLast(done, rest, item, Items(copy.tree));
      trav.Next();
    }
    assert trav.Rest() == [];
  }

  lemma CurrentItem(trav: Traversal)
    requires trav.Valid() && trav.it != NIL
    ensures trav.it in trav.owner.heap && trav.Rest() != [] && trav.owner.heap[trav.it].item == trav.Rest()[0]
  {
    ReadHere(trav.owner.heap, trav.way, trav.sub, trav.owner.tree);
  }
}
