/** Properties of the database: every object's values are laid out by its ancestor list, and stay so when
    properties are added and deleted. */
module DbProperties {
  import opened Options
  import opened DbGraph
  import opened DbLinks
  import opened DbAncestors
  import opened DbDescendants
  import opened DbLayout
  import opened DbSlots
  import opened DbJoin
  import opened DbChparent
  import opened DbCone
  import opened DbHybrid
  import opened DbGifts
  import opened DbFixing

  lemma AncHead(db: Db, rk: Ranks, defs: Defs, o: int)
    requires Ranked(db, rk) && o in db
    ensures o in Anc(db, rk, o) && Offset(defs, Anc(db, rk, o), o) == 0 && NoDup(Anc(db, rk, o))
  {
    AncNoDup(db, rk, o);
    assert Anc(db, rk, o)[0] == o;
  }

  /** The values of one object after root has been given one more property: w in the new slot, and every
      other slot as it was. */
  ghost predicate Added(defs: Defs, anc: seq<int>, before: seq<Pval>, root: int, name: string, w: Pval,
      after: seq<Pval>) {
    && root in anc && root in defs && |before| == Total(defs, anc)
    && var more := defs[root := defs[root] + [name]];
       && |after| == Total(more, anc)
       && forall a, j: nat :: a in anc && j < Len(more, a) ==>
            Slot(more, anc, after, a, j) == if a == root && j == |defs[root]| then w else Slot(defs, anc, before, a, j)
  }

  lemma AddedIs(defs: Defs, anc: seq<int>, before: seq<Pval>, root: int, name: string, w: Pval)
    requires NoDup(anc) && root in anc && root in defs && |before| == Total(defs, anc)
    ensures Offset(defs, anc, root) + |defs[root]| <= |before|
    ensures Added(defs, anc, before, root, name, w, InsertAt(before, Offset(defs, anc, root) + |defs[root]|, w))
  {
    OffsetFits(defs, anc, root);
    var more, now := defs[root := defs[root] + [name]], InsertAt(before, Offset(defs, anc, root) + |defs[root]|, w);
    InsertKeeps(defs, anc, before, root, name, w, root, 0);
    forall a, j: nat | a in anc && j < Len(more, a)
      ensures Slot(more, anc, now, a, j) == if a == root && j == |defs[root]| then w else Slot(defs, anc, before, a, j)
    {
      InsertKeeps(defs, anc, before, root, name, w, a, j);
    }
  }

  /** The values of one object after root has lost its i-th property. */
  ghost predicate Deleted(defs: Defs, anc: seq<int>, before: seq<Pval>, root: int, i: nat, after: seq<Pval>) {
    && root in anc && root in defs && i < |defs[root]| && |before| == Total(defs, anc)
    && var less := defs[root := defs[root][..i] + defs[root][i + 1..]];
       && |after| == Total(less, anc)
       && forall a, j: nat :: a in anc && j < Len(less, a) ==>
            Slot(less, anc, after, a, j) == Slot(defs, anc, before, a, if a == root && j >= i then j + 1 else j)
  }

  lemma DeletedIs(defs: Defs, anc: seq<int>, before: seq<Pval>, root: int, i: nat)
    requires NoDup(anc) && root in anc && root in defs && i < |defs[root]| && |before| == Total(defs, anc)
    ensures Offset(defs, anc, root) + i < |before|
    ensures Deleted(defs, anc, before, root, i, RemoveAt(before, Offset(defs, anc, root) + i))
  {
    OffsetFits(defs, anc, root);
    var names := defs[root][..i] + defs[root][i + 1..];
    var less, now := defs[root := names], RemoveAt(before, Offset(defs, anc, root) + i);
    TotalMore(defs, anc, root, names);
    forall a, j: nat | a in anc && j < Len(less, a)
      ensures Slot(less, anc, now, a, j) == Slot(defs, anc, before, a, if a == root && j >= i then j + 1 else j)
    {
      RemoveKeeps(defs, anc, before, root, i, a, j);
    }
  }

  /** With the c flag the value belongs to the object's owner. */
  function OwnedBy(v: Pval, owner: int): Pval {
    if v.chown then v.(owner := owner) else v
  }

  lemma SameOffset(db: Db, rk: Ranks, defs: Defs, root: int, names: seq<string>, o: int)
    requires Ranked(db, rk) && o in db && root in defs && root in Anc(db, rk, o)
    ensures Offset(defs[root := names], Anc(db, rk, o), root) == Offset(defs, Anc(db, rk, o), root)
  {
    AncNoDup(db, rk, o);
    OffsetMore(defs, Anc(db, rk, o), root, names, root);
    BeforeSelf(Anc(db, rk, o), root);
  }

  lemma SameTotal(db: Db, rk: Ranks, defs: Defs, root: int, names: seq<string>, o: int)
    requires Ranked(db, rk) && o in db && root in defs && root !in Anc(db, rk, o)
    ensures Total(defs[root := names], Anc(db, rk, o)) == Total(defs, Anc(db, rk, o))
  {
    AncNoDup(db, rk, o);
    TotalMore(defs, Anc(db, rk, o), root, names);
  }

  /** The objects that have the other as an ancestor, itself included. */
  ghost predicate Under(db: Db, rk: Ranks, o: int, root: int)
    requires Ranked(db, rk) && o in db
  {
    root in Anc(db, rk, o)
  }

  lemma UnderIs(db: Db, rk: Ranks, o: int, root: int)
    requires Ranked(db, rk) && o in db && root in db
    ensures Under(db, rk, o, root) <==> Reaches(db, rk, o, root)
  {
    AncNoDup(db, rk, o);
  }

  class PropertyDb {
    var graph: Db
    var defs: Defs
    var vals: Vals
    var owners: map<int, int>
    ghost var ranks: Ranks
    ghost var top: nat

    ghost predicate Valid()
      reads this
    {
      Ranked(graph, ranks) && Linked(graph) && LaidOut(graph, ranks, defs, vals) && owners.Keys == graph.Keys
        && Bounded(graph, ranks, top)
    }

    constructor ()
      ensures Valid() && graph == map[]
    {
      graph, defs, vals, owners, ranks, top := map[], map[], map[], map[], map[], 0;
    }

    /** properties_offset: where the properties of the target start, or -1 if it is no ancestor. */
    method PropertiesOffset(target: int, o: int) returns (offset: int)
      requires Ranked(graph, ranks) && o in graph && defs.Keys == graph.Keys
      ensures offset == if target in Anc(graph, ranks, o) then Offset(defs, Anc(graph, ranks, o), target) else -1
    {
      var lister := new Lister(graph);
      var list := lister.Ancestors(o, true, ranks);
      offset := 0;
      assert list == Anc(graph, ranks, o);
      assert list[0..] == list;
      for i := 0 to |list|
        invariant 0 <= offset && target !in list[..i]
        invariant target in list ==>
                                     target in list[i..] && Offset(defs, list, target)
                                     == offset + Offset(defs, list[i..], target)
      {
        assert list[i..][1..] == list[i + 1..];
        if list[i] == target {
          return;
        }
        offset := offset + |defs[list[i]]|;
      }
      assert list[..|list|] == list;
      offset := -1;
    }

    /** insert_prop2: one value at the place; with the c flag the object's owner owns it. */
    method InsertProp(o: int, pos: nat, v: Pval)
      requires o in vals && o in owners && pos <= |vals[o]|
      modifies this`vals
      ensures vals == old(vals)[o := InsertAt(old(vals)[o], pos, OwnedBy(v, owners[o]))]
    {
      var w := if v.chown then v.(owner := owners[o]) else v;
      vals := vals[o := vals[o][..pos] + [w] + vals[o][pos..]];
    }

    method RemoveProp(o: int, pos: nat)
      requires o in vals && pos < |vals[o]|
      modifies this`vals
      ensures vals == old(vals)[o := RemoveAt(old(vals)[o], pos)]
    {
      vals := vals[o := vals[o][..pos] + vals[o][pos + 1..]];
    }

    /** db_add_propdef, once the name has been found free: the new slot holds the value on the object and is
        clear below it; no other slot of any object changes. */
    method AddPropdef(root: int, name: string, v: Pval)
      requires Valid() && root in graph
      modifies this`defs, this`vals
      ensures Valid() && defs == old(defs)[root := old(defs)[root] + [name]]
      ensures forall o :: o in graph && Under(graph, ranks, o, root) ==>
        var w := OwnedBy(if o == root then v else v.(value := None), owners[o]);
        Added(old(defs), Anc(graph, ranks, o), old(vals)[o], root, name, w, vals[o])
      ensures forall o :: o in graph && !Under(graph, ranks, o, root) ==> vals[o] == old(vals)[o]
    {
      hide Anc, Total, Offset, Added, Reaches, NoDup, Linked, Ranked, Under, LaidOutAt;
      ghost var defs0, vals0 := defs, vals;
      var pos := |defs[root]|;
      var list := Descendants(graph, root, ranks, top);
      LaidOutHere(graph, ranks, defs0, vals0, root, root);
      AncHead(graph, ranks, defs0, root);
      AddedIs(defs0, Anc(graph, ranks, root), vals0[root], root, name, OwnedBy(v, owners[root]));
      defs := defs[root := defs[root] + [name]];
      InsertProp(root, pos, v);
      var clear := v.(value := None);
      InsertBelow(root, pos, list, clear, name, defs0, vals0);
      AllAdded(graph, ranks, defs0, vals0, vals, root, name, v, owners, list);
      AllLaidOut(graph, ranks, defs0, vals0, defs, vals, root) by {
        forall o | o in graph && Under(graph, ranks, o, root) ensures |vals[o]| == Total(defs, Anc(graph, ranks, o)) {
          var w := OwnedBy(if o == root then v else clear, owners[o]);
          AddedTotal(defs0, Anc(graph, ranks, o), vals0[o], root, name, w, vals[o]);
        }
      }
    }

    /** insert_prop_recursively, below the object itself. */
    method InsertBelow(root: int, pos: nat, list: seq<int>, clear: Pval, ghost name: string, ghost defs0: Defs,
        ghost vals0: Vals)
      requires Ranked(graph, ranks) && root in graph && LaidOut(graph, ranks, defs0, vals0) && owners.Keys == graph.Keys
      requires defs == defs0[root := defs0[root] + [name]] && pos == |defs0[root]| && vals.Keys == graph.Keys
      requires NoDup(list) && forall x :: x in list ==> x in graph && x != root && Reaches(graph, ranks, x, root)
      requires forall o :: o in graph && o != root ==> vals[o] == vals0[o]
      modifies this`vals
      ensures vals.Keys == graph.Keys
      ensures forall k :: 0 <= k < |list| ==>
        Added(defs0, Anc(graph, ranks, list[k]), vals0[list[k]], root, name, OwnedBy(clear, owners[list[k]]),
          vals[list[k]])
      ensures forall o :: o in graph && o !in list ==> vals[o] == old(vals)[o]
    {
      hide *;
      LaidOutKeys(graph, ranks, defs0, vals0);
      var offsets := Offsets(root, list, defs0, defs0[root] + [name]);
      ProgressStarts(vals, list);
      for i := 0 to |list|
        invariant Progress(vals.Keys, graph.Keys, old(vals), vals, list, i)
        invariant forall k :: 0 <= k < i
                              ==> AddedAt(graph, ranks, defs0, vals0, vals, owners, root, name, clear, list[k])
      {
        var d := list[i];
        assert d in list;
        ghost var before := vals;
        LaidOutHere(graph, ranks, defs0, vals0, d, root);
        ProgressHere(graph.Keys, old(vals), vals, list, i, d);
        AddedIs(defs0, Anc(graph, ranks, d), vals0[d], root, name, OwnedBy(clear, owners[d]));
        InsertProp(d, offsets[i] + pos, clear);
        ProgressNext(graph.Keys, old(vals), before, vals, list, i);
        AddedHere(graph, ranks, defs0, vals0, vals, owners, root, name, clear, d);
        AddedStill(graph, ranks, defs0, vals0, before, vals, owners, root, name, clear, list, i);
      }
      ProgressEnds(graph.Keys, old(vals), vals, list);
      AllAddedAt(graph, ranks, defs0, vals0, vals, owners, root, name, clear, list);
    }

    /** The places of the root's properties in all of these, taken before any of them changes. */
    method Offsets(root: int, list: seq<int>, ghost defs0: Defs, ghost names: seq<string>) returns (offsets: seq<nat>)
      requires Ranked(graph, ranks) && root in graph && root in defs0 && defs.Keys == graph.Keys
          && defs == defs0[root := names]
      requires forall x :: x in list ==> x in graph && Reaches(graph, ranks, x, root)
      ensures |offsets| == |list|
      ensures forall i :: 0 <= i < |list| ==>
        root in Anc(graph, ranks, list[i]) && offsets[i] == Offset(defs0, Anc(graph, ranks, list[i]), root)
    {
      hide Anc, Offset, Reaches, Ranked;
      offsets := [];
      for i := 0 to |list|
        invariant |offsets| == i
        invariant forall k :: 0 <= k < i ==>
          root in Anc(graph, ranks, list[k]) && offsets[k] == Offset(defs0, Anc(graph, ranks, list[k]), root)
      {
        var d := list[i];
        assert d in list;
        UnderIs(graph, ranks, d, root);
        SameOffset(graph, ranks, defs0, root, names, list[i]);
        var offset := PropertiesOffset(root, list[i]);
        offsets := offsets + [offset];
      }
    }

    /** db_delete_propdef for the i-th property: its slot goes from the object and everything below it, and no
        other slot of any object changes. */
    method DeletePropdef(root: int, i: nat)
      requires Valid() && root in graph && i < |defs[root]|
      modifies this`defs, this`vals
      ensures Valid() && defs == old(defs)[root := old(defs)[root][..i] + old(defs)[root][i + 1..]]
      ensures forall o :: o in graph && Under(graph, ranks, o, root) ==>
        Deleted(old(defs), Anc(graph, ranks, o), old(vals)[o], root, i, vals[o])
      ensures forall o :: o in graph && !Under(graph, ranks, o, root) ==> vals[o] == old(vals)[o]
    {
      hide Anc, Total, Offset, Deleted, Reaches, NoDup, Linked, Ranked, Under, LaidOutAt;
      ghost var defs0, vals0 := defs, vals;
      var names := defs[root][..i] + defs[root][i + 1..];
      var list := Descendants(graph, root, ranks, top);
      LaidOutHere(graph, ranks, defs0, vals0, root, root);
      AncHead(graph, ranks, defs0, root);
      DeletedIs(defs0, Anc(graph, ranks, root), vals0[root], root, i);
      defs := defs[root := names];
      RemoveProp(root, i);
      RemoveBelow(root, i, list, defs0, vals0);
      AllDeleted(graph, ranks, defs0, vals0, vals, root, i, list);
      AllLaidOut(graph, ranks, defs0, vals0, defs, vals, root) by {
        forall o | o in graph && Under(graph, ranks, o, root) ensures |vals[o]| == Total(defs, Anc(graph, ranks, o)) {
          DeletedTotal(defs0, Anc(graph, ranks, o), vals0[o], root, i, vals[o]);
        }
      }
    }

    /** remove_prop_recursively, below the object itself. */
    method RemoveBelow(root: int, i: nat, list: seq<int>, ghost defs0: Defs, ghost vals0: Vals)
      requires Ranked(graph, ranks) && root in graph && LaidOut(graph, ranks, defs0, vals0) && i < |defs0[root]|
      requires defs == defs0[root := defs0[root][..i] + defs0[root][i + 1..]] && vals.Keys == graph.Keys
      requires NoDup(list) && forall x :: x in list ==> x in graph && x != root && Reaches(graph, ranks, x, root)
      requires forall o :: o in graph && o != root ==> vals[o] == vals0[o]
      modifies this`vals
      ensures vals.Keys == graph.Keys
      ensures forall k :: 0 <= k < |list|
                          ==> Deleted(defs0, Anc(graph, ranks, list[k]), vals0[list[k]], root, i, vals[list[k]])
      ensures forall o :: o in graph && o !in list ==> vals[o] == old(vals)[o]
    {
      hide *;
      LaidOutKeys(graph, ranks, defs0, vals0);
      var offsets := Offsets(root, list, defs0, defs[root]);
      ProgressStarts(vals, list);
      for n := 0 to |list|
        invariant Progress(vals.Keys, graph.Keys, old(vals), vals, list, n)
        invariant forall k :: 0 <= k < n ==> DeletedAt(graph, ranks, defs0, vals0, vals, root, i, list[k])
      {
        var d := list[n];
        assert d in list;
        ghost var before := vals;
        LaidOutHere(graph, ranks, defs0, vals0, d, root);
        ProgressHere(graph.Keys, old(vals), vals, list, n, d);
        DeletedIs(defs0, Anc(graph, ranks, d), vals0[d], root, i);
        RemoveProp(d, offsets[n] + i);
        ProgressNext(graph.Keys, old(vals), before, vals, list, n);
        DeletedHere(graph, ranks, defs0, vals0, vals, root, i, d);
        DeletedStill(graph, ranks, defs0, vals0, before, vals, root, i, list, n);
      }
      ProgressEnds(graph.Keys, old(vals), vals, list);
      AllDeletedAt(graph, ranks, defs0, vals0, vals, root, i, list);
    }

    // ---- changing parents ----

    /** dbpriv_fix_properties_after_chparent for one object: its values by the new list. */
    method Relay(me: int, was: seq<int>, now: seq<int>)
      requires Ranked(graph, ranks) && me in graph && defs.Keys == graph.Keys && vals.Keys == graph.Keys
          && owners.Keys == graph.Keys
      requires now == Anc(graph, ranks, me) && |vals[me]| == Total(defs, was) && me in was
          && (forall x :: x in was ==> x in defs)
      requires forall p :: p in graph[me].parents ==>
        p in graph && (|vals[p]| == Total(defs, Anc(graph, ranks, p)) || forall y ::
          y in Anc(graph, ranks, p) ==> y in was)
      modifies this`vals
      ensures vals.Keys == graph.Keys && (forall o :: o in graph && o != me ==> vals[o] == old(vals)[o])
      ensures Relaid(defs, was, now, old(vals)[me], vals[me])
      ensures Given(graph, ranks, defs, old(vals), owners[me], me, was, now, vals[me])
    {
      hide Anc, Total, Offset, Relaid, PartOk, Reaches, NoDup, Ranked, Len, Given, Gives, Giver;
      var after := [];
      RelaidNone(defs, was, vals[me]);
      GivenNone(graph, ranks, defs, vals, owners[me], me, was);
      AncOnce(graph, ranks, me);
      for i := 0 to |now|
        invariant vals == old(vals) && Relaid(defs, was, now[..i], vals[me], after)
        invariant Given(graph, ranks, defs, vals, owners[me], me, was, now[..i], after)
      {
        var a := now[i];
        NotEarlier(now, i);
        var part := OnePart(me, was, now, a);
        RelaidMore(defs, was, now[..i], a, vals[me], after, part);
        GivenMore(graph, ranks, defs, vals, owners[me], me, was, now[..i], a, after, part);
        assert now[..i] + [a] == now[..i + 1];
        after := after + part;
      }
      assert now[..|now|] == now;
      vals := vals[me := after];
    }

    /** The values for one definer: copied, or clear with owner and permissions as the parent has them. */
    method OnePart(me: int, was: seq<int>, now: seq<int>, a: int) returns (part: seq<Pval>)
      requires Ranked(graph, ranks) && me in graph && defs.Keys == graph.Keys && vals.Keys == graph.Keys
          && owners.Keys == graph.Keys
      requires now == Anc(graph, ranks, me) && a in now && |vals[me]| == Total(defs, was) && me in was
          && (forall x :: x in was ==> x in defs)
      requires forall p :: p in graph[me].parents ==>
        p in graph && (|vals[p]| == Total(defs, Anc(graph, ranks, p)) || forall y ::
          y in Anc(graph, ranks, p) ==> y in was)
      ensures PartOk(defs, was, vals[me], a, part) && |part| == Len(defs, a)
      ensures a !in was ==> forall j: nat :: j < |part| ==>
        Gives(graph, ranks, defs, vals, Giver(graph, ranks, graph[me].parents, a), a, j, owners[me], part[j])
    {
      hide Anc, Total, Offset, Reaches, NoDup, Ranked, Giver;
      AncOnce(graph, ranks, me);
      if a in was {
        OffsetFits(defs, was, a);
        var offset := OffsetIn(was, a);
        part := vals[me][offset..offset + |defs[a]|];
      } else {
        var p, offset := ParentWith(me, a);
        OffsetFits(defs, Anc(graph, ranks, p), a);
        part := [];
        for j := 0 to |defs[a]|
          invariant |part| == j && forall k :: 0 <= k < j ==> part[k] == Inherited(vals[p][offset + k], owners[me])
        {
          var pv := vals[p][offset + j];
          part := part + [Pval(None, if pv.chown then owners[me] else pv.owner, pv.chown, pv.perms)];
        }
      }
    }

    method OffsetIn(list: seq<int>, a: int) returns (offset: nat)
      requires a in list && forall x :: x in list ==> x in defs
      ensures offset == Offset(defs, list, a)
    {
      offset := 0;
      var i := 0;
      assert list[0..] == list;
      while list[i] != a
        invariant i < |list| && a in list[i..] && Offset(defs, list, a) == offset + Offset(defs, list[i..], a)
        decreases |list| - i
      {
        assert list[i] in list;
        assert list[i..][1..] == list[i + 1..];
        offset := offset + |defs[list[i]]|;
        i := i + 1;
      }
    }

    /** db_change_parents, once the names have been found free.  The answer is whether the check of every visited
        object's number of values holds, which it does exactly when every descendant with more than one parent inside
        the cone inherits properties from the same objects as before.  If it also inherits them in the same order, every
        list of values below the object is laid out by the new ancestors: what was inherited before and still is keeps
        its value, and what is new is clear. */
    method ChangeParents(x: int, ps: seq<int>) returns (ok: bool)
      requires Valid() && x in graph
          && (forall i :: 0 <= i < |ps| ==> ps[i] in graph && !Reaches(graph, ranks, ps[i], x))
      modifies this`graph, this`vals, this`ranks, this`top
      ensures graph == Moved(old(graph), x, ps)
      ensures var m := Move(old(graph), old(ranks), graph, ranks, x);
              && MoveOk(m) && (ok <==> Keeps(m, defs))
              && (Calm(m, defs) ==> ok && AllRelaid(m, defs, old(vals), vals) && AllGiven(m, defs, owners, vals))
              && (ok ==> Untouched(m, old(vals), vals))
      ensures ok ==> Valid()
    {
      hide *;
      ValidParts();
      ghost var vals0 := vals;
      var was, now;
      ghost var m;
      was, now, m := Relinked(x, ps);
      NothingFixed(m, defs, vals);
      NoGifts(m, defs, owners, vals);
      TopFirst(m, defs);
      ghost var fixed, seen;
      ok, fixed, seen := Fix(x, was, now, x, m, vals0, {}, {});
      if ok {
        FixedAll(m, fixed, seen, vals0);
      }
      CalmOrNot(m, defs);
    }

    /** The parents are changed, and both ancestor lists taken. */
    method Relinked(x: int, ps: seq<int>) returns (was: seq<int>, now: seq<int>, ghost m: Move)
      requires Ranked(graph, ranks) && Linked(graph) && Bounded(graph, ranks, top) && x in graph
      requires forall i :: 0 <= i < |ps| ==> ps[i] in graph && !Reaches(graph, ranks, ps[i], x)
      modifies this`graph, this`ranks, this`top
      ensures graph == Moved(old(graph), x, ps) && m == Move(old(graph), old(ranks), graph, ranks, x) && MoveOk(m)
      ensures was == Was(m, x) && now == Anc(m.db1, m.rk1, x) && graph.Keys == old(graph).Keys
      ensures Ranked(graph, ranks) && Linked(graph) && Bounded(graph, ranks, top)
    {
      hide *;
      ghost var db0, rk0 := graph, ranks;
      var lister := new Lister(graph);
      was := lister.Ancestors(x, true, ranks);
      IsAnc(graph, ranks, x, was);
      MovedRanked(graph, ranks, x, ps);
      MovedLinked(graph, x, ps);
      MovedSame(graph, x, ps);
      MovedBounded(graph, ranks, x, ps, top);
      graph := Moved(graph, x, ps);
      ranks, top := Lifted(db0, rk0, x, ps), top + Limit(rk0, ps);
      lister := new Lister(graph);
      now := lister.Ancestors(x, true, ranks);
      IsAnc(graph, ranks, x, now);
      m := Move(db0, rk0, graph, ranks, x);
      MoveIsOk(m, ps);
      MoveKeys(m);
      ListsAre(m, x);
    }

    /** The run has got through. */
    lemma FixedAll(m: Move, fixed: set<int>, seen: set<(int, int)>, vals0: Vals)
      requires MoveOk(m) && graph == m.db1 && ranks == m.rk1 && owners.Keys == graph.Keys && Linked(graph)
          && Bounded(graph, ranks, top)
      requires Fixing(m, defs, vals0, vals, fixed) && Evidence(m, defs, fixed, seen)
          && Gifts(m, defs, owners, vals, fixed)
      requires (forall o :: o in fixed <==> o in {} || Inside(m.db0, m.rk0, o, m.x)) && AllSeen(m, m.x, seen)
      ensures Valid() && Keeps(m, defs) && Untouched(m, vals0, vals)
      ensures Calm(m, defs) ==> AllRelaid(m, defs, vals0, vals) && AllGiven(m, defs, owners, vals)
    {
      hide *;
      ConeIs(m, fixed);
      MoveKeys(m);
      AllFixed(m, defs, vals0, vals, fixed);
      EvidenceKeeps(m, defs, fixed, seen);
      if Calm(m, defs) {
        GiftsEnd(m, defs, owners, vals, fixed);
      }
      NowValid();
    }

    lemma ValidParts()
      requires Valid()
      ensures Ranked(graph, ranks) && Linked(graph) && LaidOut(graph, ranks, defs, vals) && owners.Keys == graph.Keys
          && Bounded(graph, ranks, top)
    {
    }

    lemma NowValid()
      requires Ranked(graph, ranks) && Linked(graph) && LaidOut(graph, ranks, defs, vals) && owners.Keys == graph.Keys
          && Bounded(graph, ranks, top)
      ensures Valid()
    {
    }

    /** The object and, child by child, everything below it. */
    method Fix(me: int, was: seq<int>, now: seq<int>, ghost from: int, ghost m: Move, ghost vals0: Vals,
        ghost fixed: set<int>, ghost seen: set<(int, int)>) returns (ok: bool, ghost after: set<int>,
        ghost seen': set<(int, int)>)
      requires MoveOk(m) && graph == m.db1 && ranks == m.rk1 && owners.Keys == graph.Keys && Linked(graph)
          && Bounded(graph, ranks, top)
      requires Fixing(m, defs, vals0, vals, fixed) && Visitable(m, defs, me, was) && me in m.db1
          && now == Anc(m.db1, m.rk1, me)
      requires Revisited(m, defs, fixed, me) && Readable(m, fixed, me, was) && Evidence(m, defs, fixed, seen)
      requires Gifts(m, defs, owners, vals, fixed)
      modifies this`vals
      ensures Keeps(m, defs) ==> ok
      ensures ok ==> Fixing(m, defs, vals0, vals, after) && Evidence(m, defs, after, seen')
                     && Gifts(m, defs, owners, vals, after)
      ensures ok ==> forall o :: o in after <==> o in fixed || Inside(m.db0, m.rk0, o, me)
      ensures ok ==> seen <= seen' && (from, me) in seen' && AllSeen(m, me, seen')
      decreases if me in m.rk1 then Gap(top, m.rk1[me]) else 0
    {
      hide *;
      VisitStart(m, defs, vals0, vals, fixed, me, was);
      Checked(m, defs, vals0, vals, fixed, me, was);
      after, seen' := fixed + {me}, seen + {(from, me)};
      if |vals[me]| != Total(defs, was) {
        ok := false;
        return;
      }
      MoreEvidence(m, defs, fixed, seen, from, me);
      ParentsReadable(m, defs, vals0, vals, fixed, me, was);
      Relay(me, was, now);
      ListsAre(m, me);
      FixedOne(m, defs, vals0, old(vals), vals, fixed, me, was);
      GiftsOne(m, defs, owners, vals0, old(vals), vals, fixed, me, was);
      var kids := graph[me].children;
      assert kids[..0] == [];
      NoKids(m, fixed, me, seen');
      var i := 0;
      while i < |kids|
        invariant i <= |kids| && Fixing(m, defs, vals0, vals, after) && Evidence(m, defs, after, seen')
            && Gifts(m, defs, owners, vals, after)
        invariant FixedKids(m, fixed, me, kids[..i], after) && SeenKids(m, me, kids[..i], seen')
        invariant seen <= seen' && (from, me) in seen'
      {
        var c := kids[i];
        KidFacts(m, defs, me, was, kids, i, fixed, after, top);
        KidIs(m, me, c);
        ghost var before, before' := after, seen';
        var older, newer := ChildLists(c, me, was, now, m);
        ok, after, seen' := Fix(c, older, newer, me, m, vals0, after, seen');
        if !ok {
          return;
        }
        MoreKids(m, fixed, me, kids, i, before, after, before', seen');
        i := i + 1;
      }
      assert kids[..|kids|] == kids;
      VisitableIs(m, defs, me, was);
      AllKids(m, fixed, me, kids, after, seen');
      ok := true;
    }

    /** The old and the new ancestor list of a child, from those of its parents.  Where the parent is not the
        object being fixed, the list of the changed graph serves for both. */
    method ChildLists(c: int, me: int, was: seq<int>, now: seq<int>, ghost m: Move)
        returns (older: seq<int>, newer: seq<int>)
      requires MoveOk(m) && graph == m.db1 && ranks == m.rk1 && c in graph && c in m.db0 && c != m.x && me in m.db0
          && me in m.db1
      requires now == Anc(m.db1, m.rk1, me) && AllIn(m, m.db0[c].parents)
      ensures older == ListFor(m, c, me, was) && newer == Anc(m.db1, m.rk1, c)
    {
      hide MoveOk, Anc, Joint, AddAll, Ranked, Linked, Inside, Visit, Below, Reaches, Older;
      ChildJoint(m, c);
      ListsAre(m, c);
      ListsAre(m, me);
      older, newer := [c], [c];
      var ids := graph[c].parents;
      assert ids[0..] == ids;
      for i := 0 to |ids|
        invariant AllIn(m, ids[i..]) && Older(m, older, ids[i..], me, was) == ListFor(m, c, me, was)
        invariant JointNow(m, newer, ids[i..]) == Now(m, c)
      {
        var p := ids[i];
        OlderStep(m, older, newer, ids, i, me, was);
        if p == me {
          older, newer := AddAll(older, was), AddAll(newer, now);
        } else {
          var all := AllOf(p, m);
          older, newer := AddAll(older, all), AddAll(newer, all);
        }
      }
      assert ids[|ids|..] == [];
      OlderEnd(m, older, newer, me, was);
    }

    method AllOf(p: int, ghost m: Move) returns (all: seq<int>)
      requires MoveOk(m) && graph == m.db1 && ranks == m.rk1 && p in m.db0 && p in m.db1
      ensures all == Now(m, p)
    {
      hide Anc, Visit, Below, Linked, Inside, Reaches;
      var lister := new Lister(graph);
      all := lister.Ancestors(p, true, ranks);
      IsAnc(graph, ranks, p, all);
    }

    /** The first parent that has a among its ancestors, and where a's properties start there. */
    method ParentWith(me: int, a: int) returns (p: int, offset: nat)
      requires Ranked(graph, ranks) && me in graph && defs.Keys == graph.Keys && a in Anc(graph, ranks, me) && a != me
      requires forall p :: p in graph[me].parents ==> p in graph
      ensures p in graph[me].parents && p in graph && a in Anc(graph, ranks, p)
          && offset == Offset(defs, Anc(graph, ranks, p), a)
      ensures p == Giver(graph, ranks, graph[me].parents, a)
    {
      hide Anc, Offset, Ranked, Giver;
      var ids := graph[me].parents;
      SomeParent(graph, ranks, me, a);
      var i := 0;
      while true
        invariant 0 <= i <= |ids| && forall k :: 0 <= k < i ==> a !in Anc(graph, ranks, ids[k])
        invariant exists k :: i <= k < |ids| && a in Anc(graph, ranks, ids[k])
        decreases |ids| - i
      {
        p := ids[i];
        assert p in ids;
        var n := PropertiesOffset(a, p);
        if n > -1 {
          offset := n;
          GiverIs(graph, ranks, ids, a, i);
          return;
        }
        i := i + 1;
      }
    }
  }

  // ---- one descendant after the other ----

  /** Only the first n of the list have changed. */
  ghost predicate Progress(keys: set<int>, all: set<int>, was: Vals, vals: Vals, list: seq<int>, n: nat) {
    keys == all && vals.Keys == all && was.Keys == all && NoDup(list) && n <= |list|
    && forall o :: o in all && o !in list[..n] ==> vals[o] == was[o]
  }

  lemma ProgressStarts(vals: Vals, list: seq<int>)
    requires NoDup(list)
    ensures Progress(vals.Keys, vals.Keys, vals, vals, list, 0)
  {
  }

  lemma ProgressHere(all: set<int>, was: Vals, vals: Vals, list: seq<int>, n: nat, d: int)
    requires Progress(vals.Keys, all, was, vals, list, n) && n < |list| && d == list[n] && d in all
    ensures d in vals && d in was && vals[d] == was[d]
  {
    NotEarlier(list, n);
  }

  lemma ProgressNext(all: set<int>, was: Vals, before: Vals, vals: Vals, list: seq<int>, n: nat)
    requires Progress(before.Keys, all, was, before, list, n) && n < |list| && list[n] in all
    requires list[n] in vals && vals == before[list[n] := vals[list[n]]]
    ensures Progress(vals.Keys, all, was, vals, list, n + 1)
  {
    assert list[..n + 1] == list[..n] + [list[n]];
  }

  lemma ProgressEnds(all: set<int>, was: Vals, vals: Vals, list: seq<int>)
    requires Progress(vals.Keys, all, was, vals, list, |list|)
    ensures vals.Keys == all && was.Keys == all && forall o :: o in all && o !in list ==> vals[o] == was[o]
  {
    assert list[..|list|] == list;
  }

  ghost predicate AddedAt(db: Db, rk: Ranks, defs: Defs, vals0: Vals, vals: Vals, owners: map<int, int>, root: int,
      name: string, clear: Pval, d: int)
    requires Ranked(db, rk)
  {
    d in db && d in vals0 && d in vals && d in owners
      && Added(defs, Anc(db, rk, d), vals0[d], root, name, OwnedBy(clear, owners[d]), vals[d])
  }

  lemma AddedHere(db: Db, rk: Ranks, defs: Defs, vals0: Vals, vals: Vals, owners: map<int, int>, root: int,
      name: string, clear: Pval, d: int)
    requires Ranked(db, rk) && d in db && d in vals0 && d in vals && d in owners
    requires Added(defs, Anc(db, rk, d), vals0[d], root, name, OwnedBy(clear, owners[d]), vals[d])
    ensures AddedAt(db, rk, defs, vals0, vals, owners, root, name, clear, d)
  {
  }

  lemma AddedStill(db: Db, rk: Ranks, defs: Defs, vals0: Vals, before: Vals, vals: Vals, owners: map<int, int>,
      root: int, name: string, clear: Pval, list: seq<int>, n: nat)
    requires Ranked(db, rk) && n < |list| && NoDup(list) && list[n] in vals && vals == before[list[n] := vals[list[n]]]
    requires forall k :: 0 <= k < n ==> AddedAt(db, rk, defs, vals0, before, owners, root, name, clear, list[k])
    ensures forall k :: 0 <= k < n ==> AddedAt(db, rk, defs, vals0, vals, owners, root, name, clear, list[k])
  {
    hide Anc, Added, Ranked;
  }

  lemma AllAddedAt(db: Db, rk: Ranks, defs: Defs, vals0: Vals, vals: Vals, owners: map<int, int>, root: int,
      name: string, clear: Pval, list: seq<int>)
    requires Ranked(db, rk)
        && forall k :: 0 <= k < |list| ==> AddedAt(db, rk, defs, vals0, vals, owners, root, name, clear, list[k])
    ensures forall k :: 0 <= k < |list| ==>
              list[k] in db && list[k] in vals0 && list[k] in vals && list[k] in owners
              && Added(defs, Anc(db, rk, list[k]), vals0[list[k]], root, name, OwnedBy(clear, owners[list[k]]),
                vals[list[k]])
  {
    hide Anc, Added, Ranked;
  }

  ghost predicate DeletedAt(db: Db, rk: Ranks, defs: Defs, vals0: Vals, vals: Vals, root: int, i: nat, d: int)
    requires Ranked(db, rk)
  {
    d in db && d in vals0 && d in vals && Deleted(defs, Anc(db, rk, d), vals0[d], root, i, vals[d])
  }

  lemma DeletedHere(db: Db, rk: Ranks, defs: Defs, vals0: Vals, vals: Vals, root: int, i: nat, d: int)
    requires Ranked(db, rk) && d in db && d in vals0 && d in vals
        && Deleted(defs, Anc(db, rk, d), vals0[d], root, i, vals[d])
    ensures DeletedAt(db, rk, defs, vals0, vals, root, i, d)
  {
  }

  lemma DeletedStill(db: Db, rk: Ranks, defs: Defs, vals0: Vals, before: Vals, vals: Vals, root: int, i: nat,
      list: seq<int>, n: nat)
    requires Ranked(db, rk) && n < |list| && NoDup(list) && list[n] in vals && vals == before[list[n] := vals[list[n]]]
    requires forall k :: 0 <= k < n ==> DeletedAt(db, rk, defs, vals0, before, root, i, list[k])
    ensures forall k :: 0 <= k < n ==> DeletedAt(db, rk, defs, vals0, vals, root, i, list[k])
  {
    hide Anc, Deleted, Ranked;
  }

  lemma AllDeletedAt(db: Db, rk: Ranks, defs: Defs, vals0: Vals, vals: Vals, root: int, i: nat, list: seq<int>)
    requires Ranked(db, rk) && forall k :: 0 <= k < |list| ==> DeletedAt(db, rk, defs, vals0, vals, root, i, list[k])
    ensures forall k :: 0 <= k < |list| ==>
              list[k] in db && list[k] in vals0 && list[k] in vals
              && Deleted(defs, Anc(db, rk, list[k]), vals0[list[k]], root, i, vals[list[k]])
  {
    hide Anc, Deleted, Ranked;
  }

  // ---- changing parents ----

  lemma ListsAre(m: Move, o: int)
    requires MoveOk(m) && o in m.db0
    ensures Was(m, o) == Anc(m.db0, m.rk0, o) && Now(m, o) == Anc(m.db1, m.rk1, o)
  {
  }

  lemma MoveKeys(m: Move)
    requires MoveOk(m)
    ensures m.db0.Keys == m.db1.Keys && Ranked(m.db0, m.rk0) && Ranked(m.db1, m.rk1) && m.x in m.db0 && m.x in m.db1
  {
  }

  lemma KidIs(m: Move, me: int, c: int)
    requires MoveOk(m) && IsKid(m, me, c)
    ensures c in m.db0 && c in m.db1 && c != m.x && me in m.db0 && me in m.db1
  {
    hide Inside, Ranked;
    Parents(m, c);
  }

  lemma ConeIs(m: Move, fixed: set<int>)
    requires MoveOk(m) && forall o :: o in fixed <==> o in {} || Inside(m.db0, m.rk0, o, m.x)
    ensures forall o :: o in fixed <==> In(m, o)
  {
  }

  lemma CalmOrNot(m: Move, defs: Defs)
    requires MoveOk(m)
    ensures Calm(m, defs) ==> Keeps(m, defs)
  {
    if Calm(m, defs) {
      CalmKeeps(m, defs);
    }
  }

  /** What the check at the start of a visit tells. */
  lemma Checked(m: Move, defs: Defs, vals0: Vals, vals: Vals, fixed: set<int>, me: int, was: seq<int>)
    requires Fixing(m, defs, vals0, vals, fixed) && Visitable(m, defs, me, was) && Revisited(m, defs, fixed, me)
    ensures me in vals && me in m.db0 && (me in fixed ==> Unmoved(m, defs, me))
    ensures Keeps(m, defs) ==> |vals[me]| == Total(defs, was)
    ensures |vals[me]| == Total(defs, was) && Wide(m, me)
        ==> if me in fixed then NoLoss(m, defs, me) else NoGain(m, defs, me)
  {
    hide Anc, Total, Definers, Keeps, Calm, NoLoss, NoGain, OneInside, Unmoved;
    if me in fixed {
      assert Inside(m.db0, m.rk0, me, me);
      LaterCheck(m, defs, vals0, vals, fixed, me, was);
    } else {
      FirstCheck(m, defs, vals0, vals, fixed, me, was);
    }
  }

  /** Root and everything below it. */
  lemma AllAdded(db: Db, rk: Ranks, defs: Defs, vals: Vals, vals': Vals, root: int, name: string, v: Pval,
      owners: map<int, int>, list: seq<int>)
    requires Ranked(db, rk) && root in db && vals.Keys == db.Keys && vals'.Keys == db.Keys && owners.Keys == db.Keys
    requires forall x :: x in list <==> x in db && x != root && Reaches(db, rk, x, root)
    requires Added(defs, Anc(db, rk, root), vals[root], root, name, OwnedBy(v, owners[root]), vals'[root])
    requires forall k :: 0 <= k < |list| ==>
      Added(defs, Anc(db, rk, list[k]), vals[list[k]], root, name, OwnedBy(v.(value := None), owners[list[k]]),
        vals'[list[k]])
    requires forall o :: o in db && o !in list && o != root ==> vals'[o] == vals[o]
    ensures forall o :: o in db && Under(db, rk, o, root) ==>
      Added(defs, Anc(db, rk, o), vals[o], root, name, OwnedBy(if o == root then v else v.(value := None), owners[o]),
        vals'[o])
    ensures forall o :: o in db && !Under(db, rk, o, root) ==> vals'[o] == vals[o]
  {
    hide Anc, Added, Reaches, Ranked, Under;
    forall o | o in db
      ensures Under(db, rk, o, root) ==>
        Added(defs, Anc(db, rk, o), vals[o], root, name, OwnedBy(if o == root then v else v.(value := None), owners[o]),
          vals'[o])
      ensures !Under(db, rk, o, root) ==> vals'[o] == vals[o]
    {
      UnderIs(db, rk, o, root);
      ReachesSelf(db, rk, root);
      if o in list {
        var k :| 0 <= k < |list| && list[k] == o;
      }
    }
  }

  lemma ReachesSelf(db: Db, rk: Ranks, o: int)
    requires Ranked(db, rk) && o in db
    ensures Reaches(db, rk, o, o)
  {
  }

  lemma AllDeleted(db: Db, rk: Ranks, defs: Defs, vals: Vals, vals': Vals, root: int, i: nat, list: seq<int>)
    requires Ranked(db, rk) && root in db && vals.Keys == db.Keys && vals'.Keys == db.Keys
    requires forall x :: x in list <==> x in db && x != root && Reaches(db, rk, x, root)
    requires Deleted(defs, Anc(db, rk, root), vals[root], root, i, vals'[root])
    requires forall k :: 0 <= k < |list| ==> Deleted(defs, Anc(db, rk, list[k]), vals[list[k]], root, i, vals'[list[k]])
    requires forall o :: o in db && o !in list && o != root ==> vals'[o] == vals[o]
    ensures forall o :: o in db && Under(db, rk, o, root) ==> Deleted(defs, Anc(db, rk, o), vals[o], root, i, vals'[o])
    ensures forall o :: o in db && !Under(db, rk, o, root) ==> vals'[o] == vals[o]
  {
    hide Anc, Deleted, Reaches, Ranked, Under;
    forall o | o in db
      ensures Under(db, rk, o, root) ==> Deleted(defs, Anc(db, rk, o), vals[o], root, i, vals'[o])
      ensures !Under(db, rk, o, root) ==> vals'[o] == vals[o]
    {
      UnderIs(db, rk, o, root);
      ReachesSelf(db, rk, root);
      if o in list {
        var k :| 0 <= k < |list| && list[k] == o;
      }
    }
  }

  lemma AllLaidOut(db: Db, rk: Ranks, defs: Defs, vals: Vals, defs': Defs, vals': Vals, root: int)
    requires Ranked(db, rk) && LaidOut(db, rk, defs, vals) && root in defs && root in defs' && vals'.Keys == db.Keys
    requires defs' == defs[root := defs'[root]]
    requires forall o :: o in db && Under(db, rk, o, root) ==> |vals'[o]| == Total(defs', Anc(db, rk, o))
    requires forall o :: o in db && !Under(db, rk, o, root) ==> vals'[o] == vals[o]
    ensures LaidOut(db, rk, defs', vals')
  {
    hide Anc, Total, Ranked, Under;
    forall o | o in db ensures LaidOutAt(db, rk, defs', vals', o) {
      StillLaidOut(db, rk, defs, vals, defs', vals', root, o);
    }
  }

  /** What is known of an object below root. */
  lemma LaidOutHere(db: Db, rk: Ranks, defs: Defs, vals: Vals, o: int, root: int)
    requires Ranked(db, rk) && LaidOut(db, rk, defs, vals) && o in db && root in db
        && (o == root || Reaches(db, rk, o, root))
    ensures |vals[o]| == Total(defs, Anc(db, rk, o)) && NoDup(Anc(db, rk, o)) && root in Anc(db, rk, o)
  {
    AncNoDup(db, rk, o);
    assert LaidOutAt(db, rk, defs, vals, o);
    assert Reaches(db, rk, root, root);
  }

  lemma StillLaidOut(db: Db, rk: Ranks, defs: Defs, vals: Vals, defs': Defs, vals': Vals, root: int, o: int)
    requires Ranked(db, rk) && LaidOut(db, rk, defs, vals) && o in db && root in defs && root in defs' && o in vals'
    requires defs' == defs[root := defs'[root]]
    requires !Under(db, rk, o, root) ==> vals'[o] == vals[o]
    ensures !Under(db, rk, o, root) ==> LaidOutAt(db, rk, defs', vals', o)
  {
    assert LaidOutAt(db, rk, defs, vals, o);
    if !Under(db, rk, o, root) {
      SameTotal(db, rk, defs, root, defs'[root], o);
    }
  }

  lemma AncOnce(db: Db, rk: Ranks, o: int)
    requires Ranked(db, rk) && o in db
    ensures NoDup(Anc(db, rk, o)) && forall x :: x in Anc(db, rk, o) ==> x in db
  {
    AncNoDup(db, rk, o);
  }

  lemma SomeParent(db: Db, rk: Ranks, me: int, a: int)
    requires Ranked(db, rk) && me in db && a in Anc(db, rk, me) && a != me
        && forall p :: p in db[me].parents ==> p in db
    ensures exists k :: 0 <= k < |db[me].parents| && a in Anc(db, rk, db[me].parents[k])
  {
    AncNoDup(db, rk, me);
    var k :| 0 <= k < |db[me].parents| && db[me].parents[k] in db && Reaches(db, rk, db[me].parents[k], a);
    AncNoDup(db, rk, db[me].parents[k]);
  }

  lemma LaidOutKeys(db: Db, rk: Ranks, defs: Defs, vals: Vals)
    requires Ranked(db, rk) && LaidOut(db, rk, defs, vals)
    ensures defs.Keys == db.Keys && vals.Keys == db.Keys
  {
  }

  lemma NotEarlier(list: seq<int>, i: nat)
    requires NoDup(list) && i < |list|
    ensures list[i] !in list[..i]
  {
  }

  lemma AddedTotal(defs: Defs, anc: seq<int>, before: seq<Pval>, root: int, name: string, w: Pval, after: seq<Pval>)
    requires Added(defs, anc, before, root, name, w, after)
    ensures root in defs && |after| == Total(defs[root := defs[root] + [name]], anc)
  {
  }

  lemma DeletedTotal(defs: Defs, anc: seq<int>, before: seq<Pval>, root: int, i: nat, after: seq<Pval>)
    requires Deleted(defs, anc, before, root, i, after)
    ensures root in defs && i < |defs[root]|
        && |after| == Total(defs[root := defs[root][..i] + defs[root][i + 1..]], anc)
  {
  }
}
