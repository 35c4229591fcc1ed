/** The verbs of the database and the cache in front of them: whatever is asked and whatever is changed, the
    cache answers what the search without it would. */
module DbVerbs {
  import opened Options
  import opened DbNames
  import opened DbGraph
  import opened DbLinks

  const VC_SIZE: nat := 7507

  /** A cached answer; no hit is an answer too. */
  datatype Entry = Entry(hash: nat, holder: int, name: string, hit: Option<Hit>)

  /** An entry belongs to an object that defines verbs, and holds what the search from there finds. */
  ghost predicate EntryOk(db: Db, rk: Ranks, e: Entry)
    requires Ranked(db, rk)
  {
    e.holder in db && db[e.holder].verbs != [] && e.hit == SearchObj(db, rk, e.name, e.holder)
  }

  ghost predicate ChainOk(db: Db, rk: Ranks, chain: seq<Entry>)
    requires Ranked(db, rk)
  {
    forall i :: 0 <= i < |chain| ==> EntryOk(db, rk, chain[i])
  }

  /** An object without verbs and without children changes nothing that is cached. */
  lemma ChainApart(db: Db, rk: Ranks, db': Db, rk': Ranks, x: int, chain: seq<Entry>)
    requires Ranked(db, rk) && Ranked(db', rk') && ApartFrom(db, db', x) && (x in db ==> db[x].verbs == [])
        && ChainOk(db, rk, chain)
    ensures ChainOk(db', rk', chain)
  {
    forall i | 0 <= i < |chain| ensures EntryOk(db', rk', chain[i]) {
      var e := chain[i];
      assert EntryOk(db, rk, e);
      assert SameFor(db, db', e.holder);
      SearchApart(db, rk, db', rk', e.name, e.holder, x);
    }
  }

  lemma NobodysParent(db: Db, x: int, o: int)
    requires Linked(db) && o in db && (x !in db || db[x].children == [])
    ensures x !in db[o].parents
  {
  }

  lemma MovedApart(db: Db, x: int, ps: seq<int>)
    requires x in db && Linked(db) && db[x].children == [] && forall i :: 0 <= i < |ps| ==> ps[i] in db
    ensures ApartFrom(db, Moved(db, x, ps), x)
  {
    hide Moved;
    forall o | o != x ensures SameFor(db, Moved(db, x, ps), o) {
      if o in db {
        MovedAt(db, x, ps, o);
      }
    }
    forall o | o in db && o != x ensures x !in db[o].parents {
      NobodysParent(db, x, o);
    }
  }

  lemma NewApart(db: Db, x: int)
    requires Linked(db) && x !in db
    ensures ApartFrom(db, db[x := Obj([], [], [])], x) && Linked(db[x := Obj([], [], [])])
  {
    var db' := db[x := Obj([], [], [])];
    forall o | o in db && o != x ensures x !in db[o].parents {
      NobodysParent(db, x, o);
    }
    forall o, c | o in db' ensures c in db'[o].children <==> c in db' && o in db'[c].parents {
      if c == x && o in db {
        assert x in db[o].children ==> x in db;
      }
      if o == x && c in db {
        NobodysParent(db, x, c);
      }
    }
  }

  lemma NewRanked(db: Db, rk: Ranks, x: int)
    requires Ranked(db, rk) && Linked(db) && x !in db
    ensures Ranked(db[x := Obj([], [], [])], rk[x := 0])
  {
    var db', rk' := db[x := Obj([], [], [])], rk[x := 0];
    forall o | o in db' ensures RankedAt(db', rk', o) {
      if o in db {
        assert RankedAt(db, rk, o);
        NobodysParent(db, x, o);
      }
    }
  }

  /** Other verbs, same graph. */
  lemma VerbsChanged(db: Db, rk: Ranks, o: int, verbs: seq<Verb>)
    requires Ranked(db, rk) && Linked(db) && o in db
    ensures Ranked(db[o := db[o].(verbs := verbs)], rk) && Linked(db[o := db[o].(verbs := verbs)])
  {
    var db' := db[o := db[o].(verbs := verbs)];
    forall x | x in db' ensures RankedAt(db', rk, x) {
      assert RankedAt(db, rk, x);
    }
  }

  /** A barren orphan may go. */
  lemma Destroyed(db: Db, rk: Ranks, o: int)
    requires Ranked(db, rk) && Linked(db) && o in db && db[o].parents == [] && db[o].children == []
    ensures Ranked(db - {o}, rk) && Linked(db - {o})
  {
    var db' := db - {o};
    forall x | x in db' ensures RankedAt(db', rk, x) && o !in db[x].parents {
      assert RankedAt(db, rk, x);
      NobodysParent(db, o, x);
    }
    forall x, c | x in db' ensures c in db'[x].children <==> c in db' && x in db'[c].parents {
      if c == o {
        assert o in db[x].children <==> x in db[o].parents;
      }
    }
  }

  class Database {
    var objects: Db
    /** How str_hash and the object are combined. */
    const mix: (nat, int) -> nat
    const table: array<seq<Entry>>
    ghost var ranks: Ranks

    ghost predicate Valid()
      reads this, table
    {
      && Ranked(objects, ranks) && Linked(objects) && table.Length == VC_SIZE
      && forall i :: 0 <= i < table.Length ==> ChainOk(objects, ranks, table[i])
    }

    constructor (mix: (nat, int) -> nat)
      ensures Valid() && objects == map[] && fresh(table)
    {
      this.mix, this.objects, this.ranks := mix, map[], map[];
      this.table := new seq<Entry>[VC_SIZE](i => []);
    }

    /** find_verbdef_by_name. */
    method FindVerbdef(o: int, name: string) returns (r: Option<nat>)
      requires o in objects
      ensures r == OwnFrom(objects[o].verbs, name, 0)
    {
      var verbs := objects[o].verbs;
      var i := 0;
      while i < |verbs| && !Callable(verbs[i], name)
        invariant i <= |verbs| && OwnFrom(verbs, name, 0) == OwnFrom(verbs, name, i)
      {
        i := i + 1;
      }
      r := if i < |verbs| then Some(i) else None;
    }

    /** find_callable_verbdef: the object itself, and then its ancestors with a stack and no marks. */
    method FindCallableVerbdef(start: int, name: string) returns (r: Option<Hit>)
      requires Ranked(objects, ranks) && start in objects
      ensures r == SearchObj(objects, ranks, name, start)
    {
      hide SearchObj, Search, Todo, Ranked;
      var v := FindVerbdef(start, name);
      OwnOrAbove(objects, ranks, name, start);
      if v.Some? {
        return Some(Hit(start, v.value));
      }
      var stack := objects[start].parents;
      while stack != []
        invariant SearchObj(objects, ranks, name, start) == Search(objects, ranks, name, stack)
        decreases Todo(objects, ranks, stack)
      {
        var o := stack[0];
        PopStack(objects, ranks, name, stack);
        if o !in objects {
          stack := stack[1..];
        } else {
          OwnOrAbove(objects, ranks, name, o);
          PushParents(objects, ranks, name, stack);
          v := FindVerbdef(o, name);
          if v.Some? {
            return Some(Hit(o, v.value));
          }
          stack := objects[o].parents + stack[1..];
        }
      }
      NoStack(objects, ranks, name);
      r := None;
    }

    /** The position in the chain of an entry for the object and the name. */
    method InChain(bucket: nat, hash: nat, o: int, name: string) returns (k: Option<nat>)
      requires bucket < table.Length
      ensures k.Some? ==> k.value < |table[bucket]| && table[bucket][k.value].holder == o
                          && SameName(name, table[bucket][k.value].name)
      ensures k.None? ==> forall i :: 0 <= i < |table[bucket]| ==>
        table[bucket][i].hash != hash || table[bucket][i].holder != o || !SameName(name, table[bucket][i].name)
    {
      var chain := table[bucket];
      for i := 0 to |chain|
        invariant forall j :: 0 <= j < i
                              ==> chain[j].hash != hash || chain[j].holder != o || !SameName(name, chain[j].name)
      {
        if chain[i].hash == hash && chain[i].holder == o && SameName(name, chain[i].name) {
          return Some(i);
        }
      }
      k := None;
    }

    /** db_find_callable_verb: whatever is in the cache, the answer is that of the plain search. */
    method FindCallableVerb(recv: int, name: string) returns (r: Option<Hit>)
      requires Valid()
      modifies table
      ensures Valid() && r == if recv in objects then SearchObj(objects, ranks, name, recv) else None
    {
      hide Search, Todo, SearchObj;
      SearchOne(objects, ranks, name, recv);
      var stack := [recv];
      while stack != []
        invariant Valid() && Search(objects, ranks, name, [recv]) == Search(objects, ranks, name, stack)
        decreases Todo(objects, ranks, stack)
      {
        var o := stack[0];
        PopStack(objects, ranks, name, stack);
        if o !in objects {
          stack := stack[1..];
        } else if objects[o].verbs == [] {
          PushParents(objects, ranks, name, stack);
          stack := objects[o].parents + stack[1..];
        } else {
          var hit := CachedSearch(o, name);
          if hit.Some? {
            return hit;
          }
          stack := stack[1..];
        }
      }
      NoStack(objects, ranks, name);
      r := None;
    }

    /** The cache at an object with verbs; a miss is searched for and remembered, found or not. */
    method CachedSearch(o: int, name: string) returns (r: Option<Hit>)
      requires Valid() && o in objects && objects[o].verbs != []
      modifies table
      ensures Valid() && r == SearchObj(objects, ranks, name, o)
    {
      hide SearchObj, Ranked, Linked;
      var hash := mix(StrHash(name), o);
      var bucket := hash % VC_SIZE;
      assert bucket < VC_SIZE by { assert VC_SIZE == 7507; }
      var k := InChain(bucket, hash, o, name);
      if k.Some? {
        var e := table[bucket][k.value];
        assert EntryOk(objects, ranks, e);
        SearchFolds(objects, ranks, name, e.name, o);
        return e.hit;
      }
      r := FindCallableVerbdef(o, name);
      table[bucket] := [Entry(hash, o, name, r)] + table[bucket];
      assert EntryOk(objects, ranks, Entry(hash, o, name, r));
    }

    /** db_priv_affected_callable_verb_lookup: everything is forgotten. */
    method FlushCache()
      requires table.Length == VC_SIZE
      modifies table
      ensures forall i :: 0 <= i < table.Length ==> table[i] == []
    {
      for i := 0 to table.Length
        invariant forall j :: 0 <= j < i ==> table[j] == []
      {
        table[i] := [];
      }
    }

    method SetVerbs(o: int, verbs: seq<Verb>)
      requires Valid() && o in objects
      modifies this`objects, table
      ensures Valid() && objects == old(objects)[o := old(objects)[o].(verbs := verbs)]
    {
      FlushCache();
      VerbsChanged(objects, ranks, o, verbs);
      objects := objects[o := objects[o].(verbs := verbs)];
    }

    /** db_add_verb: at the end of the list; the answer is its number. */
    method AddVerb(o: int, v: Verb) returns (count: nat)
      requires Valid() && o in objects
      modifies this`objects, table
      ensures Valid() && objects == old(objects)[o := old(objects)[o].(verbs := old(objects)[o].verbs + [v])]
      ensures count == |objects[o].verbs|
    {
      count := |objects[o].verbs| + 1;
      SetVerbs(o, objects[o].verbs + [v]);
    }

    /** db_delete_verb. */
    method DeleteVerb(h: Hit)
      requires Valid() && h.definer in objects && h.index < |objects[h.definer].verbs|
      modifies this`objects, table
      ensures Valid()
      ensures var o, verbs := h.definer, old(objects)[h.definer].verbs;
              objects == old(objects)[o := old(objects)[o].(verbs := verbs[..h.index] + verbs[h.index + 1..])]
    {
      var verbs := objects[h.definer].verbs;
      SetVerbs(h.definer, verbs[..h.index] + verbs[h.index + 1..]);
    }

    /** db_set_verb_names, db_set_verb_flags and db_set_verb_arg_specs. */
    method ChangeVerb(h: Hit, v: Verb)
      requires Valid() && h.definer in objects && h.index < |objects[h.definer].verbs|
      modifies this`objects, table
      ensures Valid()
      ensures var o := h.definer;
          objects == old(objects)[o := old(objects)[o].(verbs := old(objects)[o].verbs[h.index := v])]
    {
      SetVerbs(h.definer, objects[h.definer].verbs[h.index := v]);
    }

    /** db_create_object: nothing is flushed. */
    method CreateObject(x: int)
      requires Valid() && x !in objects
      modifies this
      ensures Valid() && objects == old(objects)[x := Obj([], [], [])]
    {
      NewApart(objects, x);
      NewRanked(objects, ranks, x);
      AllApart(objects, ranks, objects[x := Obj([], [], [])], ranks[x := 0], x);
      objects, ranks := objects[x := Obj([], [], [])], ranks[x := 0];
    }

    /** db_destroy_object. */
    method DestroyObject(o: int)
      requires Valid() && o in objects && objects[o].parents == [] && objects[o].children == []
      modifies this`objects, table
      ensures Valid() && objects == old(objects) - {o}
    {
      FlushCache();
      Destroyed(objects, ranks, o);
      objects := objects - {o};
    }

    /** db_change_parents: the cache is left alone if the object has neither verbs nor children. */
    method ChangeParents(x: int, ps: seq<int>)
      requires Valid() && x in objects
          && forall i :: 0 <= i < |ps| ==> ps[i] in objects && !Reaches(objects, ranks, ps[i], x)
      modifies this, table
      ensures Valid() && objects == Moved(old(objects), x, ps)
    {
      hide Moved, Lifted, Linked, Ranked, ApartFrom, ChainOk;
      MovedRanked(objects, ranks, x, ps);
      MovedLinked(objects, x, ps);
      if objects[x].verbs == [] && objects[x].children == [] {
        MovedApart(objects, x, ps);
        AllApart(objects, ranks, Moved(objects, x, ps), Lifted(objects, ranks, x, ps), x);
      } else {
        FlushCache();
        NothingCached(Moved(objects, x, ps), Lifted(objects, ranks, x, ps));
      }
      ghost var goal, up := Moved(objects, x, ps), Lifted(objects, ranks, x, ps);
      Relink(x, ps);
      ranks := up;
    }

    /** The lists of children, and then the parents themselves. */
    method Relink(x: int, ps: seq<int>)
      requires x in objects && Linked(objects) && forall i :: 0 <= i < |ps| ==> ps[i] in objects
      modifies this`objects
      ensures objects == Moved(old(objects), x, ps)
    {
      var parents := objects[x].parents;
      for i := 0 to |parents|
        invariant objects.Keys == old(objects).Keys
            && Detach(objects, parents[i..], x) == Detach(old(objects), parents, x)
      {
        var p := parents[i];
        assert parents[i..][1..] == parents[i + 1..] && parents[i..][0] == p;
        objects := objects[p := objects[p].(children := SetRemove(objects[p].children, x))];
      }
      ghost var mid := objects;
      assert ps[0..] == ps;
      for i := 0 to |ps|
        invariant objects.Keys == old(objects).Keys && Attach(objects, ps[i..], x) == Attach(mid, ps, x)
      {
        var p := ps[i];
        assert ps[i..][1..] == ps[i + 1..] && ps[i..][0] == p;
        objects := objects[p := objects[p].(children := SetAdd(objects[p].children, x))];
      }
      objects := objects[x := objects[x].(parents := ps)];
    }

    lemma AllApart(db: Db, rk: Ranks, db': Db, rk': Ranks, x: int)
      requires Ranked(db, rk) && Ranked(db', rk') && ApartFrom(db, db', x) && (x in db ==> db[x].verbs == [])
      requires forall i :: 0 <= i < table.Length ==> ChainOk(db, rk, table[i])
      ensures forall i :: 0 <= i < table.Length ==> ChainOk(db', rk', table[i])
    {
      hide ChainOk, Ranked, ApartFrom;
      forall i | 0 <= i < table.Length ensures ChainOk(db', rk', table[i]) {
        ChainApart(db, rk, db', rk', x, table[i]);
      }
    }

    lemma NothingCached(db: Db, rk: Ranks)
      requires Ranked(db, rk) && forall i :: 0 <= i < table.Length ==> table[i] == []
      ensures forall i :: 0 <= i < table.Length ==> ChainOk(db, rk, table[i])
    {
    }
  }

  lemma OwnOrAbove(db: Db, rk: Ranks, name: string, o: int)
    requires Ranked(db, rk) && o in db
    ensures var own := OwnFrom(db[o].verbs, name, 0);
            SearchObj(db, rk, name, o) == if own.Some? then Some(Hit(o, own.value))
              else Search(db, rk, name, db[o].parents)
  {
    assert RankedAt(db, rk, o);
    LimitBelow(db, rk, db[o].parents);
    SearchBound(db, rk, name, db[o].parents, rk[o], Limit(rk, db[o].parents));
  }

  lemma NoStack(db: Db, rk: Ranks, name: string)
    requires Ranked(db, rk)
    ensures Search(db, rk, name, []) == None
  {
  }
}
