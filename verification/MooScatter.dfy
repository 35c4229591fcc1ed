/** Scattering assignment: the operands the generator writes for a pattern, the loop that hands a list out to the
    pattern's variables, and the default expressions that are evaluated behind it. */
module MooScatter {
  import opened Options
  import opened MooAst

  const E_ARGS: Value := ErrV(11)

  /** A target and, for an optional one, the code of its default expression and the assignment of its value. */
  datatype Target<T> =
    | Required(id: nat)
    | Rest(id: nat)
    | Optional(id: nat, default: Option<seq<T>>)

  type Pattern<T> = seq<Target<T>>

  // ---- counting ----

  function Count<T>(p: Pattern<T>): (nat, nat, nat) {
    if p == [] then (0, 0, 0)
    else
      var (req, opt, rest) := Count(p[1..]);
      match p[0]
      case Required(_) => (req + 1, opt, rest)
      case Optional(_, _) => (req, opt + 1, rest)
      case Rest(_) => (req, opt, rest + 1)
  }

  function Req<T>(p: Pattern<T>): nat { Count(p).0 }
  function Opt<T>(p: Pattern<T>): nat { Count(p).1 }
  function Rests<T>(p: Pattern<T>): nat { Count(p).2 }

  lemma CountStep<T>(p: Pattern<T>)
    requires p != []
    ensures Req(p) == Req(p[1..]) + (if p[0].Required? then 1 else 0)
    ensures Opt(p) == Opt(p[1..]) + (if p[0].Optional? then 1 else 0)
    ensures Rests(p) == Rests(p[1..]) + (if p[0].Rest? then 1 else 0)
  {
  }

  lemma {:induction false} CountAll<T>(p: Pattern<T>)
    ensures Req(p) + Opt(p) + Rests(p) == |p|
  {
    if p != [] {
      CountAll(p[1..]);
    }
  }

  /** At most one target takes the rest. */
  predicate Vetted<T>(p: Pattern<T>) {
    Rests(p) <= 1 && |p| <= 255
  }

  // ---- what a scattering assignment means ----

  /** How the list is cut: one element for a required target and for each of the first optional ones, nothing for the
      other optional ones, more elements for the rest. */
  function Parts<T>(p: Pattern<T>, list: seq<Value>, optional: nat, more: nat): seq<seq<Value>> {
    if p == [] then []
    else
      var n := Take(p[0], optional, more);
      var k := if n <= |list| then n else |list|;
      [list[..k]] + Parts(p[1..], list[k..], Left(p[0], optional), more)
  }

  function Take<T>(t: Target<T>, optional: nat, more: nat): nat {
    match t
    case Required(_) => 1
    case Optional(_, _) => if optional > 0 then 1 else 0
    case Rest(_) => more
  }

  function Left<T>(t: Target<T>, optional: nat): nat {
    if t.Optional? && optional > 0 then optional - 1 else optional
  }

  function Min(a: nat, b: nat): nat {
    if a < b then a else b
  }

  function Needed<T>(p: Pattern<T>, optional: nat, more: nat): nat {
    Req(p) + Min(Opt(p), optional) + Rests(p) * more
  }

  function Flat(parts: seq<seq<Value>>): seq<Value> {
    if parts == [] then [] else parts[0] + Flat(parts[1..])
  }

  /** Put together, the parts are the list: nothing is lost, doubled or moved. */
  lemma {:induction false} PartsAreTheList<T>(p: Pattern<T>, list: seq<Value>, optional: nat, more: nat)
    requires Needed(p, optional, more) == |list|
    ensures Flat(Parts(p, list, optional, more)) == list && |Parts(p, list, optional, more)| == |p|
    ensures forall i :: 0 <= i < |p| ==>
      |Parts(p, list, optional, more)[i]|
        == Take(p[i], if Opt(p[..i]) < optional then optional - Opt(p[..i]) else 0, more)
  {
    if p != [] {
      var n := Take(p[0], optional, more);
      NeededStep(p, optional, more);
      var rest := Parts(p[1..], list[n..], Left(p[0], optional), more);
      PartsAreTheList(p[1..], list[n..], Left(p[0], optional), more);
      var parts := Parts(p, list, optional, more);
      assert parts == [list[..n]] + rest;
      assert parts[1..] == rest;
      assert list == list[..n] + list[n..];
      forall i | 0 <= i < |p|
        ensures |parts[i]| == Take(p[i], if Opt(p[..i]) < optional then optional - Opt(p[..i]) else 0, more)
      {
        if i > 0 {
          assert parts[i] == rest[i - 1] && p[i] == p[1..][i - 1];
          assert p[..i][1..] == p[1..][..i - 1] && p[..i][0] == p[0];
        } else {
          assert p[..i] == [];
        }
      }
    }
  }

  lemma NeededStep<T>(p: Pattern<T>, optional: nat, more: nat)
    requires p != []
    ensures Needed(p, optional, more) == Take(p[0], optional, more) + Needed(p[1..], Left(p[0], optional), more)
  {
    if p[0].Rest? {
      assert Rests(p) * more == Rests(p[1..]) * more + more;
    }
  }

  /** The variables behind a scattering assignment: the targets in order, each with its part. */
  function Assigned<T>(env: seq<Value>, p: Pattern<T>, parts: seq<seq<Value>>): seq<Value>
    requires |p| == |parts|
    decreases |p|
  {
    if p == [] then env
    else
      var t := p[0];
      var env' := if t.id >= |env| then env
                  else if t.Rest? then env[t.id := ListV(parts[0])]
                  else if parts[0] != [] then env[t.id := parts[0][0]]
                  else env;
      Assigned(env', p[1..], parts[1..])
  }

  /** The code of the default expressions of the optional targets that get nothing, in order. */
  function Defaults<T>(p: Pattern<T>, optional: nat): seq<T> {
    if p == [] then []
    else (if p[0].Optional? && optional == 0 then Code(p[0]) else []) + Defaults(p[1..], Left(p[0], optional))
  }

  // ---- operands ----

  function Code<T>(t: Target<T>): seq<T> {
    if t.Optional? && t.default.Some? then t.default.value else []
  }

  /** The default expressions, one behind the other. */
  function AllCode<T>(p: Pattern<T>): seq<T> {
    if p == [] then [] else Code(p[0]) + AllCode(p[1..])
  }

  /** Labels when the first default expression starts at position start: 0 for targets that have to be there, 1 for
      an optional one without a default. */
  function Labels<T>(p: Pattern<T>, start: nat): seq<nat> {
    if p == [] then []
    else
      var t := p[0];
      [if !t.Optional? then 0 else if t.default.None? then 1 else start] + Labels(p[1..], start + |Code(t)|)
  }

  function Ids<T>(p: Pattern<T>): seq<nat> {
    if p == [] then [] else [p[0].id] + Ids(p[1..])
  }

  datatype Operands = Operands(nargs: nat, nreq: nat, rest: nat, ids: seq<nat>, labels: seq<nat>, done: nat)

  /** rest is the place of the target that takes the rest, or one more than there are targets. */
  predicate Describes<T>(o: Operands, p: Pattern<T>, start: nat) {
    o.nargs == |p| && o.nreq == Req(p) && o.ids == Ids(p) && o.labels == Labels(p, start)
      && o.done == start + |AllCode(p)|
    && 1 <= o.rest <= |p| + 1 && (forall i :: 0 <= i < |p| ==> (p[i].Rest? <==> i + 1 == o.rest))
  }

  lemma {:induction false} OperandsSize<T>(p: Pattern<T>, start: nat)
    ensures |Ids(p)| == |p| && |Labels(p, start)| == |p|
  {
    if p != [] {
      OperandsSize(p[1..], start + |Code(p[0])|);
    }
  }

  lemma {:induction false} OperandAt<T>(p: Pattern<T>, start: nat, i: nat)
    requires i < |p|
    ensures |Ids(p)| == |p| && |Labels(p, start)| == |p| && Ids(p)[i] == p[i].id
    ensures Labels(p, start)[i] == if !p[i].Optional? then 0 else if p[i].default.None? then 1
        else start + |AllCode(p[..i])|
    decreases i
  {
    OperandsSize(p, start);
    var next := start + |Code(p[0])|;
    OperandsSize(p[1..], next);
    assert Ids(p) == [p[0].id] + Ids(p[1..]);
    assert Labels(p, start)[1..] == Labels(p[1..], next);
    if i == 0 {
      assert p[..0] == [];
    } else {
      OperandAt(p[1..], next, i - 1);
      CodeMore(p, i);
    }
  }

  lemma CodeMore<T>(p: Pattern<T>, i: nat)
    requires 0 < i <= |p|
    ensures |AllCode(p[..i])| == |Code(p[0])| + |AllCode(p[1..][..i - 1])|
  {
    assert p[..i][1..] == p[1..][..i - 1] && p[..i][0] == p[0];
  }

  lemma {:induction false} CodeFrom<T>(p: Pattern<T>, i: nat)
    requires i <= |p|
    ensures |AllCode(p[..i])| <= |AllCode(p)| && AllCode(p)[|AllCode(p[..i])|..] == AllCode(p[i..])
    decreases i
  {
    if i == 0 {
      assert p[..0] == [] && p[0..] == p;
    } else {
      CodeFrom(p[1..], i - 1);
      assert p[..i][1..] == p[1..][..i - 1] && p[..i][0] == p[0] && p[1..][i - 1..] == p[i..];
      var a := AllCode(p[1..][..i - 1]);
      assert AllCode(p)[|Code(p[0])| + |a|..] == AllCode(p[1..])[|a|..];
    }
  }

  lemma {:induction false} AllCodeMore<T>(p: Pattern<T>, i: nat)
    requires i < |p|
    ensures AllCode(p[..i + 1]) == AllCode(p[..i]) + Code(p[i])
    decreases i
  {
    if i == 0 {
      assert p[..1][1..] == [] && p[..0] == [];
      assert AllCode(p[..1]) == Code(p[0]) + [];
    } else {
      AllCodeMore(p[1..], i - 1);
      assert p[..i + 1][1..] == p[1..][..i] && p[..i][1..] == p[1..][..i - 1];
    }
  }

  /** The generator's counting loop. */
  method CountTargets<T>(p: Pattern<T>) returns (nreq: nat, rest: nat)
    requires Vetted(p)
    ensures nreq == Req(p) && 1 <= rest <= |p| + 1 && forall i :: 0 <= i < |p| ==> (p[i].Rest? <==> i + 1 == rest)
  {
    var nargs, at := 0, -1;
    nreq := 0;
    assert p[0..] == p;
    while nargs < |p|
      invariant nargs <= |p| && nreq + Req(p[nargs..]) == Req(p)
      invariant Rests(p[nargs..]) + (if at == -1 then 0 else 1) <= 1
      invariant at == -1 || 1 <= at <= nargs
      invariant forall i :: 0 <= i < nargs ==> (p[i].Rest? <==> i + 1 == at)
    {
      assert p[nargs..][0] == p[nargs] && p[nargs..][1..] == p[nargs + 1..];
      nargs := nargs + 1;
      match p[nargs - 1] {
        case Required(_) => nreq := nreq + 1;
        case Rest(_) => at := nargs;
        case Optional(_, _) =>
      }
    }
    rest := if at == -1 then nargs + 1 else at;
  }

  /** The generator's other loops: the variables with labels that are known or to be defined, then the default
      expressions, each defining its target's label. */
  method Operate<T>(p: Pattern<T>, start: nat) returns (o: Operands)
    requires Vetted(p)
    ensures Describes(o, p, start)
  {
    hide AllCode, Code, Ids, Labels;
    var nreq, rest := CountTargets(p);
    var ids, labels: seq<nat> := [], [];
    for i := 0 to |p|
      invariant |ids| == |labels| == i
      invariant forall k :: 0 <= k < i
                            ==> ids[k] == p[k].id && labels[k] == if p[k].Optional? && p[k].default.None? then 1 else 0
    {
      ids, labels := ids + [p[i].id], labels + [if p[i].Optional? && p[i].default.None? then 1 else 0];
    }
    var here := start;
    NoCode(p);
    for i := 0 to |p|
      invariant |labels| == |p| && here == start + |AllCode(p[..i])|
      invariant forall k :: 0 <= k < i ==> labels[k] == LabelOf(p, start, k)
      invariant forall k :: i <= k < |p| ==> labels[k] == if p[k].Optional? && p[k].default.None? then 1 else 0
    {
      CodeHere(p, i);
      if p[i].Optional? && p[i].default.Some? {
        labels := labels[i := here];
        here := here + |p[i].default.value|;
      }
    }
    assert p[..|p|] == p;
    AllOperands(p, start, ids, labels);
    o := Operands(|p|, nreq, rest, ids, labels, here);
  }

  function LabelOf<T>(p: Pattern<T>, start: nat, k: nat): nat
    requires k < |p|
  {
    if !p[k].Optional? then 0 else if p[k].default.None? then 1 else start + |AllCode(p[..k])|
  }

  lemma NoCode<T>(p: Pattern<T>)
    ensures AllCode(p[..0]) == []
  {
  }

  lemma CodeHere<T>(p: Pattern<T>, i: nat)
    requires i < |p|
    ensures |AllCode(p[..i + 1])| == |AllCode(p[..i])| + if p[i].Optional? && p[i].default.Some?
        then |p[i].default.value| else 0
  {
    AllCodeMore(p, i);
  }

  lemma AllOperands<T>(p: Pattern<T>, start: nat, ids: seq<nat>, labels: seq<nat>)
    requires |ids| == |labels| == |p|
        && forall k :: 0 <= k < |p| ==> ids[k] == p[k].id && labels[k] == LabelOf(p, start, k)
    ensures ids == Ids(p) && labels == Labels(p, start)
  {
    OperandsSize(p, start);
    forall k | 0 <= k < |p| ensures ids[k] == Ids(p)[k] && labels[k] == Labels(p, start)[k] {
      OperandAt(p, start, k);
    }
  }

  /** From the first optional target that gets nothing on, none gets anything. */
  lemma {:induction false} AllDefaults<T>(p: Pattern<T>)
    ensures Defaults(p, 0) == AllCode(p)
  {
    if p != [] {
      AllDefaults(p[1..]);
    }
  }

  // ---- the loop ----

  datatype Scattered = Failed(err: Value) | Jump(to: nat)

  function More<T>(p: Pattern<T>, n: nat): nat {
    if Rests(p) > 0 && n >= |p| then n - |p| + 1 else 0
  }

  predicate Acceptable<T>(p: Pattern<T>, n: nat) {
    Req(p) <= n && (Rests(p) == 0 ==> n <= |p|)
  }

  lemma EnoughForAll<T>(p: Pattern<T>, n: nat)
    requires Vetted(p) && Acceptable(p, n)
    ensures Needed(p, n - Req(p), More(p, n)) == n
    ensures Rests(p) > 0 && More(p, n) > 0 ==> n - Req(p) >= Opt(p) + 1
  {
    CountAll(p);
    if Rests(p) == 0 {
      assert Rests(p) * More(p, n) == 0;
    } else {
      assert Rests(p) * More(p, n) == More(p, n);
    }
  }

  lemma {:induction false} RestIsThere<T>(p: Pattern<T>, i: nat)
    requires i < |p| && p[i].Rest?
    ensures Rests(p) > 0
  {
    CountStep(p);
    if i > 0 {
      assert p[i] == p[1..][i - 1];
      RestIsThere(p[1..], i - 1);
    }
  }

  lemma {:induction false} RestSomewhere<T>(p: Pattern<T>) returns (i: nat)
    requires Rests(p) > 0
    ensures i < |p| && p[i].Rest?
  {
    CountStep(p);
    if p[0].Rest? {
      i := 0;
    } else {
      var j := RestSomewhere(p[1..]);
      i := j + 1;
    }
  }

  /** Whether there is a rest target can be told from the operand. */
  lemma HasRest<T>(o: Operands, p: Pattern<T>, start: nat)
    requires Describes(o, p, start)
    ensures o.rest > o.nargs <==> Rests(p) == 0
  {
    hide Rests;
    if Rests(p) > 0 {
      var i := RestSomewhere(p);
      assert i + 1 == o.rest;
    } else if o.rest <= o.nargs {
      RestIsThere(p, o.rest - 1);
    }
  }

  /** i targets have been served and c elements of the list are used up. */
  ghost predicate Served<T>(p: Pattern<T>, list: seq<Value>, was: seq<Value>, env: seq<Value>, i: nat, c: int,
      optional: nat, nopt: nat, nrest: nat)
  {
    i <= |p| && 0 <= c <= |list| && Needed(p[i..], nopt, nrest) == |list| - c
    && |Parts(p[i..], list[c..], nopt, nrest)| == |p| - i && |Parts(p, list, optional, nrest)| == |p|
    && Assigned(env, p[i..], Parts(p[i..], list[c..], nopt, nrest)) == Assigned(was, p, Parts(p, list, optional, nrest))
  }

  /** While a rest of some length is to come, every optional target gets its element. */
  ghost predicate Roomy<T>(p: Pattern<T>, i: nat, offset: int, nopt: nat, nrest: nat)
    requires i <= |p|
  {
    Rests(p[i..]) > 0 && nrest > 0 ==> offset == 0 && nopt >= Opt(p[i..]) + 1
  }

  /** where is the place of the first default expression that is needed, if there has been one. */
  ghost predicate Pointing<T>(p: Pattern<T>, start: nat, i: nat, optional: nat, nopt: nat, where: nat)
    requires i <= |p|
  {
    if where == 0 then Defaults(p, optional) == Defaults(p[i..], nopt)
    else nopt == 0 && start <= where <= start + |AllCode(p)| && AllCode(p)[where - start..] == Defaults(p, optional)
  }

  ghost predicate Serving<T>(p: Pattern<T>, list: seq<Value>, was: seq<Value>, env: seq<Value>, start: nat, i: nat,
      offset: int, nopt: nat, nrest: nat, where: nat)
  {
    var optional := if |list| >= Req(p) then |list| - Req(p) else 0;
    Served(p, list, was, env, i, i + offset, optional, nopt, nrest) && Roomy(p, i, offset, nopt, nrest)
    && Pointing(p, start, i, optional, nopt, where)
  }

  lemma ServingStarts<T>(p: Pattern<T>, list: seq<Value>, env: seq<Value>, start: nat)
    requires Vetted(p) && Acceptable(p, |list|)
    ensures Serving(p, list, env, env, start, 0, 0, |list| - Req(p), More(p, |list|), 0)
  {
    EnoughForAll(p, |list|);
    PartsAreTheList(p, list, |list| - Req(p), More(p, |list|));
    assert p[0..] == p && list[0..] == list;
  }

  /** What serving the next target does. */
  function Stored<T>(t: Target<T>, env: seq<Value>, part: seq<Value>): seq<Value> {
    if t.id >= |env| then env
    else if t.Rest? then env[t.id := ListV(part)]
    else if part != [] then env[t.id := part[0]]
    else env
  }

  lemma ServedNext<T>(p: Pattern<T>, list: seq<Value>, was: seq<Value>, env: seq<Value>, i: nat, c: int, optional: nat,
      nopt: nat, nrest: nat)
    requires i < |p| && Served(p, list, was, env, i, c, optional, nopt, nrest)
    ensures var n := Take(p[i], nopt, nrest);
            0 <= c <= c + n <= |list|
            && Served(p, list, was, Stored(p[i], env, list[c..c + n]), i + 1, c + n, optional, Left(p[i], nopt), nrest)
  {
    hide Assigned, Needed, Req;
    var q, tail := p[i..], p[i + 1..];
    var n := Take(p[i], nopt, nrest);
    assert q[0] == p[i] && q[1..] == tail;
    NeededStep(q, nopt, nrest);
    var rest := list[c..];
    assert rest[..n] == list[c..c + n] && rest[n..] == list[c + n..];
    PartsStep(q, rest, nopt, nrest);
    AssignedStep(env, q, Parts(q, rest, nopt, nrest));
  }

  lemma PartsStep<T>(p: Pattern<T>, list: seq<Value>, optional: nat, more: nat)
    requires p != [] && Take(p[0], optional, more) <= |list|
    ensures var n := Take(p[0], optional, more);
            var parts := Parts(p, list, optional, more);
            parts != [] && parts[0] == list[..n] && parts[1..] == Parts(p[1..], list[n..], Left(p[0], optional), more)
  {
  }

  lemma RoomyNext<T>(p: Pattern<T>, i: nat, offset: int, nopt: nat, nrest: nat)
    requires i < |p| && Rests(p) <= 1 && Roomy(p, i, offset, nopt, nrest)
    ensures p[i].Rest? && nrest > 0 ==> offset == 0
    ensures Roomy(p, i + 1, offset + Take(p[i], nopt, nrest) - 1, Left(p[i], nopt), nrest)
  {
    hide Rests, Opt;
    assert p[i..][0] == p[i] && p[i..][1..] == p[i + 1..];
    CountStep(p[i..]);
    FewerRests(p, i);
  }

  lemma {:induction false} FewerRests<T>(p: Pattern<T>, i: nat)
    requires i <= |p|
    ensures Rests(p[i..]) <= Rests(p)
    decreases i
  {
    if i == 0 {
      assert p[0..] == p;
    } else {
      FewerRests(p[1..], i - 1);
      assert p[1..][i - 1..] == p[i..];
    }
  }

  lemma PointingNext<T>(p: Pattern<T>, start: nat, i: nat, optional: nat, nopt: nat, where: nat)
    requires i < |p| && start > 1 && Pointing(p, start, i, optional, nopt, where)
    ensures var where' := if where == 0 && p[i].Optional? && nopt == 0 && p[i].default.Some?
        then start + |AllCode(p[..i])| else where;
            Pointing(p, start, i + 1, optional, Left(p[i], nopt), where')
  {
    hide AllCode;
    var q := p[i..];
    assert q[0] == p[i] && q[1..] == p[i + 1..];
    if where == 0 {
      if p[i].Optional? && nopt == 0 && p[i].default.Some? {
        CodeFrom(p, i);
        AllDefaults(q);
      } else {
        NoDefault(q, nopt);
      }
    }
  }

  lemma ServingNext<T>(p: Pattern<T>, list: seq<Value>, was: seq<Value>, env: seq<Value>, start: nat, i: nat,
      offset: int, nopt: nat, nrest: nat, where: nat)
    requires i < |p| && start > 1 && Rests(p) <= 1 && Serving(p, list, was, env, start, i, offset, nopt, nrest, where)
    ensures var c := i + offset;
            var n := Take(p[i], nopt, nrest);
            var where' := if where == 0 && p[i].Optional? && nopt == 0 && p[i].default.Some?
                then start + |AllCode(p[..i])| else where;
            0 <= c <= c + n <= |list| && (p[i].Rest? && nrest > 0 ==> offset == 0)
            && Serving(p, list, was, Stored(p[i], env, list[c..c + n]), start, i + 1, offset + n - 1, Left(p[i], nopt),
              nrest, where')
  {
    hide Roomy, Pointing, AllCode, Req, Rests, Take, Left, Stored;
    var optional := if |list| >= Req(p) then |list| - Req(p) else 0;
    assert Served(p, list, was, env, i, i + offset, optional, nopt, nrest);
    ServedNext(p, list, was, env, i, i + offset, optional, nopt, nrest);
    RoomyNext(p, i, offset, nopt, nrest);
    PointingNext(p, start, i, optional, nopt, where);
  }

  lemma NoDefault<T>(q: Pattern<T>, nopt: nat)
    requires q != [] && (q[0].Optional? && nopt == 0 ==> q[0].default.None?)
    ensures Defaults(q, nopt) == Defaults(q[1..], Left(q[0], nopt))
  {
  }

  lemma AssignedStep<T>(env: seq<Value>, p: Pattern<T>, parts: seq<seq<Value>>)
    requires p != [] && |p| == |parts|
    ensures Assigned(env, p, parts) == Assigned(Stored(p[0], env, parts[0]), p[1..], parts[1..])
  {
  }

  lemma ServingEnds<T>(p: Pattern<T>, list: seq<Value>, was: seq<Value>, env: seq<Value>, start: nat, offset: int,
      nopt: nat, nrest: nat, where: nat)
    requires Serving(p, list, was, env, start, |p|, offset, nopt, nrest, where) && Acceptable(p, |list|)
    ensures |Parts(p, list, |list| - Req(p), nrest)| == |p|
    ensures env == Assigned(was, p, Parts(p, list, |list| - Req(p), nrest))
    ensures var to := if where == 0 then start + |AllCode(p)| else where;
            start <= to <= start + |AllCode(p)| && AllCode(p)[to - start..] == Defaults(p, |list| - Req(p))
  {
    assert p[|p|..] == [];
    assert AllCode(p)[|AllCode(p)|..] == [];
  }

  /** EOP_SCATTER. */
  method Scatter<T>(o: Operands, value: Value, env: array<Value>, ghost p: Pattern<T>, ghost start: nat)
      returns (r: Scattered)
    requires Vetted(p) && Describes(o, p, start) && start > 1 && forall i :: 0 <= i < |p| ==> p[i].id < env.Length
    modifies env
    ensures r.Jump? <==> value.ListV? && Acceptable(p, |value.elems|)
    ensures r.Failed? ==> env[..] == old(env[..]) && r.err == if value.ListV? then E_ARGS else E_TYPE
    ensures r.Jump? ==>
      var list := value.elems;
      var parts := Parts(p, list, |list| - Req(p), More(p, |list|));
      |parts| == |p| && Flat(parts) == list && env[..] == Assigned(old(env[..]), p, parts)
      && start <= r.to <= o.done && AllCode(p)[r.to - start..] == Defaults(p, |list| - Req(p))
  {
    hide Parts, Assigned, Defaults, AllCode, Serving, Labels, Ids, Needed, Req, Opt, Rests;
    HasRest(o, p, start);
    if !value.ListV? {
      return Failed(E_TYPE);
    }
    var list := value.elems;
    var len := |list|;
    if len < o.nreq || (o.rest > o.nargs && len > o.nargs) {
      return Failed(E_ARGS);
    }
    var nopt: nat := len - o.nreq;
    var nrest: nat := if o.rest <= o.nargs && len >= o.nargs then len - o.nargs + 1 else 0;
    var offset, i, where: nat := 0, 1, 0;
    ghost var was := env[..];
    ServingStarts(p, list, was, start);
    while i <= o.nargs
      invariant 1 <= i <= o.nargs + 1
      invariant Serving(p, list, was, env[..], start, i - 1, offset, nopt, nrest, where)
    {
      OperandAt(p, start, i - 1);
      ServingNext(p, list, was, env[..], start, i - 1, offset, nopt, nrest, where);
      var id, label_ := o.ids[i - 1], o.labels[i - 1];
      if i == o.rest {
        env[id] := ListV(if nrest > 0 then list[i - 1..i - 1 + nrest] else []);
        offset := offset + nrest - 1;
      } else if label_ == 0 {
        env[id] := list[i + offset - 1];
      } else if nopt > 0 {
        nopt := nopt - 1;
        env[id] := list[i + offset - 1];
      } else {
        offset := offset - 1;
        if where == 0 && label_ != 1 {
          where := label_;
        }
      }
      i := i + 1;
    }
    ServingEnds(p, list, was, env[..], start, offset, nopt, nrest, where);
    EnoughForAll(p, len);
    PartsAreTheList(p, list, len - o.nreq, nrest);
    r := Jump(if where == 0 then o.done else where);
  }
}
