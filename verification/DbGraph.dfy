/** Objects with several parents, and where a verb is found: depth first, in the order of the parents. */
module DbGraph {
  import opened Options
  import opened DbNames

  /** exec: the x flag; spec stands for owner, other flags and arguments. */
  datatype Verb = Verb(names: string, exec: bool, spec: nat)

  datatype Obj = Obj(parents: seq<int>, children: seq<int>, verbs: seq<Verb>)

  type Db = map<int, Obj>

  /** A witness that no object is its own ancestor. */
  type Ranks = map<int, nat>

  ghost predicate Ranked(db: Db, rk: Ranks) {
    forall o :: o in db ==> RankedAt(db, rk, o)
  }

  ghost predicate RankedAt(db: Db, rk: Ranks, o: int)
    requires o in db
  {
    o in rk && Below(db, rk, db[o].parents, rk[o])
  }

  /** All valid ones in the list rank below the bound. */
  ghost predicate Below(db: Db, rk: Ranks, ids: seq<int>, bound: nat) {
    forall i :: 0 <= i < |ids| && ids[i] in db ==> ids[i] in rk && rk[ids[i]] < bound
  }

  datatype Hit = Hit(definer: int, index: nat)

  predicate Callable(v: Verb, name: string) {
    VerbMatch(v.names, name) && v.exec
  }

  /** find_verbdef_by_name: the first callable verb from the i-th on. */
  function OwnFrom(verbs: seq<Verb>, name: string, i: nat): (r: Option<nat>)
    requires i <= |verbs|
    ensures r.Some? ==> i <= r.value < |verbs|
    decreases |verbs| - i
  {
    if i == |verbs| then None else if Callable(verbs[i], name) then Some(i) else OwnFrom(verbs, name, i + 1)
  }

  /** The verb as found from one object: its own, or else its parents'. */
  ghost function SearchObj(db: Db, rk: Ranks, name: string, o: int): Option<Hit>
    requires Ranked(db, rk) && o in db
    decreases rk[o], 1, 0
  {
    var own := OwnFrom(db[o].verbs, name, 0);
    if own.Some? then Some(Hit(o, own.value)) else SearchAll(db, rk, name, db[o].parents, rk[o])
  }

  /** The verb as found from the first object in the list from which it is found; those that are not valid
      are passed over. */
  ghost function SearchAll(db: Db, rk: Ranks, name: string, ids: seq<int>, bound: nat): Option<Hit>
    requires Ranked(db, rk) && Below(db, rk, ids, bound)
    decreases bound, 0, |ids|
  {
    if ids == [] then None
    else
      var first := if ids[0] in db then SearchObj(db, rk, name, ids[0]) else None;
      if first.Some? then first else SearchAll(db, rk, name, ids[1..], bound)
  }

  lemma {:induction false} SearchBound(db: Db, rk: Ranks, name: string, ids: seq<int>, a: nat, b: nat)
    requires Ranked(db, rk) && Below(db, rk, ids, a) && Below(db, rk, ids, b)
    ensures SearchAll(db, rk, name, ids, a) == SearchAll(db, rk, name, ids, b)
    decreases |ids|
  {
    if ids != [] {
      SearchBound(db, rk, name, ids[1..], a, b);
    }
  }

  lemma {:induction false} SearchPlus(db: Db, rk: Ranks, name: string, a: seq<int>, b: seq<int>, bound: nat)
    requires Ranked(db, rk) && Below(db, rk, a, bound) && Below(db, rk, b, bound)
    ensures Below(db, rk, a + b, bound)
    ensures SearchAll(db, rk, name, a + b, bound)
            == var r := SearchAll(db, rk, name, a, bound); if r.Some? then r else SearchAll(db, rk, name, b, bound)
    decreases |a|
  {
    if a == [] {
      assert a + b == b;
    } else {
      assert (a + b)[1..] == a[1..] + b;
      SearchPlus(db, rk, name, a[1..], b, bound);
    }
  }

  // ---- what the search depends on ----

  lemma {:induction false} OwnFolds(verbs: seq<Verb>, a: string, b: string, i: nat)
    requires i <= |verbs| && SameName(a, b)
    ensures OwnFrom(verbs, a, i) == OwnFrom(verbs, b, i)
    decreases |verbs| - i
  {
    if i < |verbs| {
      MatchFolds(verbs[i].names, a, b);
      OwnFolds(verbs, a, b, i + 1);
    }
  }

  lemma {:induction false} SearchFolds(db: Db, rk: Ranks, a: string, b: string, o: int)
    requires Ranked(db, rk) && o in db && SameName(a, b)
    ensures SearchObj(db, rk, a, o) == SearchObj(db, rk, b, o)
    decreases rk[o], 1, 0
  {
    OwnFolds(db[o].verbs, a, b, 0);
    SearchAllFolds(db, rk, a, b, db[o].parents, rk[o]);
  }

  lemma {:induction false} SearchAllFolds(db: Db, rk: Ranks, a: string, b: string, ids: seq<int>, bound: nat)
    requires Ranked(db, rk) && Below(db, rk, ids, bound) && SameName(a, b)
    ensures SearchAll(db, rk, a, ids, bound) == SearchAll(db, rk, b, ids, bound)
    decreases bound, 0, |ids|
  {
    if ids != [] {
      if ids[0] in db {
        SearchFolds(db, rk, a, b, ids[0]);
      }
      SearchAllFolds(db, rk, a, b, ids[1..], bound);
    }
  }

  /** What the search sees of an object. */
  predicate SameFor(db: Db, db': Db, o: int) {
    (o in db <==> o in db') && (o in db ==> db[o].parents == db'[o].parents && db[o].verbs == db'[o].verbs)
  }

  /** Objects are the same, and nothing changed is anybody's parent. */
  ghost predicate ApartFrom(db: Db, db': Db, x: int) {
    (forall o :: o != x ==> SameFor(db, db', o)) && (forall o :: o in db && o != x ==> x !in db[o].parents)
  }

  /** The search from elsewhere is not affected by an object without children, nor by the choice of ranks. */
  lemma {:induction false} SearchApart(db: Db, rk: Ranks, db': Db, rk': Ranks, name: string, o: int, x: int)
    requires Ranked(db, rk) && Ranked(db', rk') && o in db && o != x && ApartFrom(db, db', x)
    ensures o in db' && SearchObj(db, rk, name, o) == SearchObj(db', rk', name, o)
    decreases rk[o], 1, 0
  {
    assert SameFor(db, db', o);
    SearchAllApart(db, rk, db', rk', name, db[o].parents, rk[o], rk'[o], x);
  }

  lemma {:induction false} SearchAllApart(db: Db, rk: Ranks, db': Db, rk': Ranks, name: string, ids: seq<int>,
      bound: nat, bound': nat, x: int)
    requires Ranked(db, rk) && Ranked(db', rk') && Below(db, rk, ids, bound) && Below(db', rk', ids, bound')
        && x !in ids && ApartFrom(db, db', x)
    ensures SearchAll(db, rk, name, ids, bound) == SearchAll(db', rk', name, ids, bound')
    decreases bound, 0, |ids|
  {
    if ids != [] {
      assert SameFor(db, db', ids[0]);
      if ids[0] in db {
        SearchApart(db, rk, db', rk', name, ids[0], x);
      }
      SearchAllApart(db, rk, db', rk', name, ids[1..], bound, bound', x);
    }
  }

  // ---- the work of a search with a stack ----

  /** How many objects the search may still come to. */
  ghost function Work(db: Db, rk: Ranks, ids: seq<int>, bound: nat): nat
    requires Ranked(db, rk) && Below(db, rk, ids, bound)
    decreases bound, |ids|
  {
    if ids == [] then 0
    else
      var above := if ids[0] in db then assert RankedAt(db, rk, ids[0]);
          Work(db, rk, db[ids[0]].parents, rk[ids[0]]) else 0;
      above + 1 + Work(db, rk, ids[1..], bound)
  }

  lemma {:induction false} WorkBound(db: Db, rk: Ranks, ids: seq<int>, a: nat, b: nat)
    requires Ranked(db, rk) && Below(db, rk, ids, a) && Below(db, rk, ids, b)
    ensures Work(db, rk, ids, a) == Work(db, rk, ids, b)
    decreases |ids|
  {
    if ids != [] {
      WorkBound(db, rk, ids[1..], a, b);
    }
  }

  lemma {:induction false} WorkPlus(db: Db, rk: Ranks, a: seq<int>, b: seq<int>, bound: nat)
    requires Ranked(db, rk) && Below(db, rk, a, bound) && Below(db, rk, b, bound)
    ensures Below(db, rk, a + b, bound) && Work(db, rk, a + b, bound) == Work(db, rk, a, bound) + Work(db, rk, b, bound)
    decreases |a|
  {
    if a == [] {
      assert a + b == b;
    } else {
      assert (a + b)[1..] == a[1..] + b;
      WorkPlus(db, rk, a[1..], b, bound);
    }
  }

  /** A bound for any list. */
  ghost function Limit(rk: Ranks, ids: seq<int>): (n: nat)
    ensures forall i :: 0 <= i < |ids| && ids[i] in rk ==> rk[ids[i]] < n
  {
    if ids == [] then 0
    else
      var rest := Limit(rk, ids[1..]);
      if ids[0] in rk && rk[ids[0]] >= rest then rk[ids[0]] + 1 else rest
  }

  lemma LimitBelow(db: Db, rk: Ranks, ids: seq<int>)
    requires Ranked(db, rk)
    ensures Below(db, rk, ids, Limit(rk, ids))
  {
    forall i | 0 <= i < |ids| && ids[i] in db ensures ids[i] in rk && rk[ids[i]] < Limit(rk, ids) {
      assert RankedAt(db, rk, ids[i]);
    }
  }

  /** The whole search, from any list. */
  ghost function Search(db: Db, rk: Ranks, name: string, ids: seq<int>): Option<Hit>
    requires Ranked(db, rk)
  {
    LimitBelow(db, rk, ids);
    SearchAll(db, rk, name, ids, Limit(rk, ids))
  }

  ghost function Todo(db: Db, rk: Ranks, ids: seq<int>): nat
    requires Ranked(db, rk)
  {
    LimitBelow(db, rk, ids);
    Work(db, rk, ids, Limit(rk, ids))
  }

  lemma BelowMore(db: Db, rk: Ranks, ids: seq<int>, a: nat, b: nat)
    requires Below(db, rk, ids, a) && a <= b
    ensures Below(db, rk, ids, b)
  {
  }

  /** The first of the stack is taken off. */
  lemma {:induction false} PopStack(db: Db, rk: Ranks, name: string, ids: seq<int>)
    requires Ranked(db, rk) && ids != []
    ensures var first := if ids[0] in db then SearchObj(db, rk, name, ids[0]) else None;
            Search(db, rk, name, ids) == if first.Some? then first else Search(db, rk, name, ids[1..])
    ensures Todo(db, rk, ids[1..]) < Todo(db, rk, ids)
  {
    LimitBelow(db, rk, ids);
    LimitBelow(db, rk, ids[1..]);
    BelowTail(db, rk, ids, Limit(rk, ids));
    SearchBound(db, rk, name, ids[1..], Limit(rk, ids), Limit(rk, ids[1..]));
    WorkBound(db, rk, ids[1..], Limit(rk, ids), Limit(rk, ids[1..]));
  }

  lemma BelowTail(db: Db, rk: Ranks, ids: seq<int>, bound: nat)
    requires ids != [] && Below(db, rk, ids, bound)
    ensures Below(db, rk, ids[1..], bound)
  {
  }

  /** The first of the stack is replaced by its parents. */
  lemma {:induction false} PushParents(db: Db, rk: Ranks, name: string, ids: seq<int>)
    requires Ranked(db, rk) && ids != [] && ids[0] in db
    ensures OwnFrom(db[ids[0]].verbs, name, 0).None?
        ==> Search(db, rk, name, ids) == Search(db, rk, name, db[ids[0]].parents + ids[1..])
    ensures Todo(db, rk, db[ids[0]].parents + ids[1..]) < Todo(db, rk, ids)
  {
    var o, rest, n := ids[0], ids[1..], Limit(rk, ids);
    var up := db[o].parents;
    LimitBelow(db, rk, ids);
    LimitBelow(db, rk, up + rest);
    BelowTail(db, rk, ids, n);
    assert Below(db, rk, up, rk[o]);
    BelowMore(db, rk, up, rk[o], n);
    SearchPlus(db, rk, name, up, rest, n);
    WorkPlus(db, rk, up, rest, n);
    SearchBound(db, rk, name, up, rk[o], n);
    WorkBound(db, rk, up, rk[o], n);
    SearchBound(db, rk, name, up + rest, n, Limit(rk, up + rest));
    WorkBound(db, rk, up + rest, n, Limit(rk, up + rest));
    if OwnFrom(db[o].verbs, name, 0).None? {
      assert SearchObj(db, rk, name, o) == SearchAll(db, rk, name, up, rk[o]);
    }
  }

  lemma SearchOne(db: Db, rk: Ranks, name: string, o: int)
    requires Ranked(db, rk)
    ensures Search(db, rk, name, [o]) == if o in db then SearchObj(db, rk, name, o) else None
  {
    PopStack(db, rk, name, [o]);
    assert [o][1..] == [];
  }
}
