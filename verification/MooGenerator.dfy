/** The code generator of code_gen.cc: bytes and fixups grow, forward labels are chained and patched when
    they are reached, and the stack depth is tracked on the way.  What it is proved to write is the code of
    MooCode, which as a ghost constant is known from the start. */
module MooGenerator {
  import opened Options
  import opened MooAst
  import opened MooCode
  import opened MooItems
  import opened MooFixups
  import opened MooExprRuns
  import opened MooStmtRuns

  // ---- the stack ----

  /** The largest depth so far, after code that reaches d above c. */
  function Peak(m: nat, c: nat, d: nat): nat {
    if c + d > m then c + d else m
  }

  // ---- loops ----

  /** What enter_loop keeps of a loop. */
  datatype LoopState = LoopState(id: Option<nat>, topLabel: Fixup, topStack: nat, bottomLabel: int, bottomStack: nat)

  predicate LoopOk(items: seq<Item>, program: seq<Instr>, fixups: seq<Fixup>, l: LoopState, c: Loop) {
    && l.id == c.id && l.topLabel.kind == LabelK && l.topLabel.next == -1
      && Points(items, l.topLabel, Pos(program, c.top))
    && l.topStack == c.topDepth && l.bottomStack == c.bottomDepth
      && Aims(items, fixups, l.bottomLabel, Pos(program, c.bottom))
  }

  predicate LoopsOk(items: seq<Item>, program: seq<Instr>, fixups: seq<Fixup>, loops: seq<LoopState>, ctx: seq<Loop>) {
    |loops| == |ctx| && forall i :: 0 <= i < |loops| ==> LoopOk(items, program, fixups, loops[i], ctx[i])
  }

  /** The open labels of all loops. */
  function LoopChains(fixups: seq<Fixup>, loops: seq<LoopState>): set<int> {
    if loops == [] then {}
    else Chain(fixups, loops[|loops| - 1].bottomLabel) + LoopChains(fixups, loops[..|loops| - 1])
  }

  lemma {:induction false} LoopChainsKept(items: seq<Item>, program: seq<Instr>, before: seq<Fixup>, after: seq<Fixup>,
      loops: seq<LoopState>, ctx: seq<Loop>)
    requires Kept(before, after) && LoopsOk(items, program, before, loops, ctx)
    ensures LoopsOk(items, program, after, loops, ctx) && LoopChains(after, loops) == LoopChains(before, loops)
    decreases |loops|
  {
    hide Chain, Aims, Points, Kept;
    forall i | 0 <= i < |loops| ensures LoopOk(items, program, after, loops[i], ctx[i]) {
      assert LoopOk(items, program, before, loops[i], ctx[i]);
      AimsKept(items, before, after, loops[i].bottomLabel, Pos(program, ctx[i].bottom));
    }
    if loops != [] {
      var n := |loops| - 1;
      assert LoopOk(items, program, before, loops[n], ctx[n]);
      AimsKept(items, before, after, loops[n].bottomLabel, Pos(program, ctx[n].bottom));
      assert LoopsOk(items, program, before, loops[..n], ctx[..n]) by {
        forall i | 0 <= i < n ensures LoopOk(items, program, before, loops[..n][i], ctx[..n][i]) {
          assert LoopOk(items, program, before, loops[i], ctx[i]);
        }
      }
      LoopChainsKept(items, program, before, after, loops[..n], ctx[..n]);
    }
  }

  /** What statements do to the fixups: nothing moves, and the labels that come to be open are the extra
      ones and those of enclosing loops. */
  ghost predicate Progress(f0: seq<Fixup>, open0: set<int>, loops0: seq<LoopState>, f1: seq<Fixup>, open1: set<int>,
      loops1: seq<LoopState>, extra: set<int>) {
    Kept(f0, f1) && open1 <= open0 + extra + LoopChains(f1, loops1) && Longer(f0, loops0, f1, loops1)
  }

  predicate Longer(f0: seq<Fixup>, loops0: seq<LoopState>, f1: seq<Fixup>, loops1: seq<LoopState>) {
    |loops0| == |loops1|
    && forall i :: 0 <= i < |loops0| ==> Chain(f0, loops0[i].bottomLabel) <= Chain(f1, loops1[i].bottomLabel)
  }

  lemma {:induction false} ChainsGrow(f0: seq<Fixup>, loops0: seq<LoopState>, f1: seq<Fixup>, loops1: seq<LoopState>)
    requires Longer(f0, loops0, f1, loops1)
    ensures LoopChains(f0, loops0) <= LoopChains(f1, loops1)
    decreases |loops0|
  {
    if loops0 != [] {
      var n := |loops0| - 1;
      assert Longer(f0, loops0[..n], f1, loops1[..n]) by {
        forall i | 0 <= i < n ensures Chain(f0, loops0[..n][i].bottomLabel) <= Chain(f1, loops1[..n][i].bottomLabel) {
          assert Chain(f0, loops0[i].bottomLabel) <= Chain(f1, loops1[i].bottomLabel);
        }
      }
      ChainsGrow(f0, loops0[..n], f1, loops1[..n]);
    }
  }

  lemma ProgressNone(f: seq<Fixup>, open: set<int>, loops: seq<LoopState>)
    ensures Progress(f, open, loops, f, open, loops, {})
  {
    KeptSelf(f);
  }

  lemma ProgressTrans(f0: seq<Fixup>, open0: set<int>, loops0: seq<LoopState>, f1: seq<Fixup>, open1: set<int>,
      loops1: seq<LoopState>, f2: seq<Fixup>, open2: set<int>, loops2: seq<LoopState>, a: set<int>, b: set<int>)
    requires Progress(f0, open0, loops0, f1, open1, loops1, a) && Progress(f1, open1, loops1, f2, open2, loops2, b)
    ensures Progress(f0, open0, loops0, f2, open2, loops2, a + b)
  {
    hide LoopChains, Chain, Kept;
    KeptTrans(f0, f1, f2);
    ChainsGrow(f1, loops1, f2, loops2);
    forall i | 0 <= i < |loops0| ensures Chain(f0, loops0[i].bottomLabel) <= Chain(f2, loops2[i].bottomLabel) {
      assert Chain(f0, loops0[i].bottomLabel) <= Chain(f1, loops1[i].bottomLabel);
    }
  }

  /** Labels are added or defined, and the loops are what they were. */
  lemma ProgressStep(items: seq<Item>, program: seq<Instr>, ctx: seq<Loop>, f0: seq<Fixup>, open0: set<int>,
      loops: seq<LoopState>, f1: seq<Fixup>, open1: set<int>, extra: set<int>)
    requires Kept(f0, f1) && open1 <= open0 + extra && LoopsOk(items, program, f0, loops, ctx)
    ensures Progress(f0, open0, loops, f1, open1, loops, extra) && LoopsOk(items, program, f1, loops, ctx)
  {
    hide LoopChains, Chain, Kept, Aims, Points;
    LoopChainsKept(items, program, f0, f1, loops, ctx);
    forall i | 0 <= i < |loops| ensures Chain(f0, loops[i].bottomLabel) <= Chain(f1, loops[i].bottomLabel) {
      assert LoopOk(items, program, f0, loops[i], ctx[i]);
      AimsKept(items, f0, f1, loops[i].bottomLabel, Pos(program, ctx[i].bottom));
    }
  }

  lemma ProgressThen(items: seq<Item>, program: seq<Instr>, ctx: seq<Loop>, f0: seq<Fixup>, open0: set<int>,
      loops0: seq<LoopState>, f1: seq<Fixup>, open1: set<int>, loops: seq<LoopState>, f2: seq<Fixup>, open2: set<int>,
      a: set<int>, b: set<int>)
    requires Progress(f0, open0, loops0, f1, open1, loops, a) && LoopsOk(items, program, f1, loops, ctx)
    requires Kept(f1, f2) && open2 <= open1 + b
    ensures Progress(f0, open0, loops0, f2, open2, loops, a + b) && LoopsOk(items, program, f2, loops, ctx)
  {
    hide Progress, LoopsOk, Kept;
    ProgressStep(items, program, ctx, f1, open1, loops, f2, open2, b);
    ProgressTrans(f0, open0, loops0, f1, open1, loops, f2, open2, loops, a, b);
  }

  /** Statements in between leave no label of their own open. */
  lemma ProgressOn(f0: seq<Fixup>, open0: set<int>, loops0: seq<LoopState>, f1: seq<Fixup>, open1: set<int>,
      loops1: seq<LoopState>, f2: seq<Fixup>, open2: set<int>, loops2: seq<LoopState>, extra: set<int>)
    requires Progress(f0, open0, loops0, f1, open1, loops1, extra) && Progress(f1, open1, loops1, f2, open2, loops2, {})
    ensures Progress(f0, open0, loops0, f2, open2, loops2, extra) && Kept(f1, f2)
  {
    hide LoopChains, Longer, Kept;
    ProgressTrans(f0, open0, loops0, f1, open1, loops1, f2, open2, loops2, extra, {});
    assert extra + {} == extra;
  }

  /** define_label. */
  lemma ProgressDefine(items: seq<Item>, program: seq<Instr>, ctx: seq<Loop>, f0: seq<Fixup>, open0: set<int>,
      loops0: seq<LoopState>, f1: seq<Fixup>, open1: set<int>, loops: seq<LoopState>, f2: seq<Fixup>, open2: set<int>,
      extra: set<int>, chain: set<int>)
    requires Progress(f0, open0, loops0, f1, open1, loops, extra) && LoopsOk(items, program, f1, loops, ctx)
    requires Kept(f1, f2) && open2 == open1 - chain
    ensures Progress(f0, open0, loops0, f2, open2, loops, extra - chain) && LoopsOk(items, program, f2, loops, ctx)
  {
    hide LoopsOk, Kept, LoopChains, Longer;
    ProgressThen(items, program, ctx, f0, open0, loops0, f1, open1, loops, f2, open2, extra, {});
    assert extra + {} == extra;
  }

  // ---- entering and leaving a loop ----

  lemma {:induction false} LoopsEnter(items: seq<Item>, program: seq<Instr>, fixups: seq<Fixup>, loops: seq<LoopState>,
      ctx: seq<Loop>, l: LoopState, c: Loop)
    requires LoopsOk(items, program, fixups, loops, ctx) && LoopOk(items, program, fixups, l, c)
    ensures LoopsOk(items, program, fixups, loops + [l], ctx + [c])
    ensures LoopChains(fixups, loops + [l]) == Chain(fixups, l.bottomLabel) + LoopChains(fixups, loops)
  {
    hide LoopOk, Chain;
    assert (loops + [l])[..|loops|] == loops;
  }

  lemma {:induction false} LoopsLeave(items: seq<Item>, program: seq<Instr>, f0: seq<Fixup>, open0: set<int>,
      loops: seq<LoopState>, l: LoopState, f1: seq<Fixup>, open1: set<int>, inner: seq<LoopState>, ctx: seq<Loop>,
      c: Loop, extra: set<int>)
    requires Progress(f0, open0, loops + [l], f1, open1, inner, extra) && LoopsOk(items, program, f1, inner, ctx + [c])
    requires |loops| == |ctx|
    ensures |inner| == |loops| + 1
    ensures var n := |loops|;
            && Progress(f0, open0, loops, f1, open1, inner[..n], extra + Chain(f1, inner[n].bottomLabel))
            && LoopsOk(items, program, f1, inner[..n], ctx)
              && Aims(items, f1, inner[n].bottomLabel, Pos(program, c.bottom))
            && Chain(f0, l.bottomLabel) <= Chain(f1, inner[n].bottomLabel)
  {
    hide Chain, Aims, Points, Kept;
    var n, all := |loops|, loops + [l];
    assert all[n] == l && (ctx + [c])[n] == c;
    assert LoopOk(items, program, f1, inner[n], (ctx + [c])[n]);
    assert Chain(f0, all[n].bottomLabel) <= Chain(f1, inner[n].bottomLabel);
    forall i | 0 <= i < n
      ensures Chain(f0, loops[i].bottomLabel) <= Chain(f1, inner[..n][i].bottomLabel)
      ensures LoopOk(items, program, f1, inner[..n][i], ctx[i])
    {
      assert all[i] == loops[i] && (ctx + [c])[i] == ctx[i];
      assert Chain(f0, all[i].bottomLabel) <= Chain(f1, inner[i].bottomLabel);
      assert LoopOk(items, program, f1, inner[i], (ctx + [c])[i]);
    }
  }

  /** A break adds its label to the chain of its loop. */
  lemma {:induction false} LoopsBreak(items: seq<Item>, program: seq<Instr>, f0: seq<Fixup>, open0: set<int>,
      loops: seq<LoopState>, ctx: seq<Loop>, i: nat, f1: seq<Fixup>, first: int)
    requires LoopsOk(items, program, f0, loops, ctx) && i < |loops| && Kept(f0, f1)
    requires Aims(items, f1, first, Pos(program, ctx[i].bottom))
        && Chain(f1, first) == {first} + Chain(f0, loops[i].bottomLabel)
    ensures var now := loops[i := loops[i].(bottomLabel := first)];
            LoopsOk(items, program, f1, now, ctx) && Progress(f0, open0, loops, f1, open0 + {first}, now, {})
  {
    hide Chain, Aims, Points, Kept;
    var now := loops[i := loops[i].(bottomLabel := first)];
    forall j | 0 <= j < |loops|
      ensures LoopOk(items, program, f1, now[j], ctx[j])
          && Chain(f0, loops[j].bottomLabel) <= Chain(f1, now[j].bottomLabel)
    {
      assert LoopOk(items, program, f0, loops[j], ctx[j]);
      AimsKept(items, f0, f1, loops[j].bottomLabel, Pos(program, ctx[j].bottom));
    }
    ChainIn(f1, now, i);
  }

  lemma {:induction false} ChainIn(f: seq<Fixup>, loops: seq<LoopState>, i: nat)
    requires i < |loops|
    ensures Chain(f, loops[i].bottomLabel) <= LoopChains(f, loops)
    decreases |loops|
  {
    if i < |loops| - 1 {
      ChainIn(f, loops[..|loops| - 1], i);
    }
  }

  /** The largest slot among the operands of the first n items. */
  function MaxSlot(items: seq<Item>, n: nat): nat
    requires n <= |items|
  {
    if n == 0 then 0
    else
      var m := MaxSlot(items, n - 1);
      if IsKind(items[n - 1], VarK) && items[n - 1].operand.slot > m then items[n - 1].operand.slot else m
  }

  lemma {:induction false} SlotsBelow(items: seq<Item>, n: nat, p: nat)
    requires p < n <= |items| && IsKind(items[p], VarK)
    ensures items[p].operand.slot <= MaxSlot(items, n)
    decreases n
  {
    if p < n - 1 {
      SlotsBelow(items, n - 1, p);
    }
  }

  predicate VarsAre(items: seq<Item>, n: nat, max: nat, total: nat)
    requires n <= |items|
  {
    max == MaxSlot(items, n) && total == Count(items, n, VarK)
  }

  /** The next item is the j-th of the instruction's. */
  predicate Next(items: seq<Item>, p: nat, i: Item) {
    p < |items| && items[p] == i
  }

  predicate AllNext(items: seq<Item>, p: nat, shape: seq<Item>) {
    p + |shape| <= |items| && items[p..p + |shape|] == shape
  }

  lemma NextParts(items: seq<Item>, p: nat, shape: seq<Item>)
    requires AllNext(items, p, shape) && |shape| > 0
    ensures Next(items, p, shape[0]) && AllNext(items, p + 1, shape[1..])
  {
    assert items[p..p + |shape|][0] == items[p];
    assert items[p + 1..p + |shape|] == items[p..p + |shape|][1..];
  }

  class Generator {
    ghost const program: seq<Instr>
    ghost const items: seq<Item>
    var bytes: seq<Byte>
    var fixups: seq<Fixup>
    var counts: Counts
    var literals: seq<Value>
    var maxLiteral: nat
    var maxVarRef: nat
    var totalVarRefs: nat
    var curStack: nat
    var maxStack: nat
    var loops: seq<LoopState>
    ghost var open: set<int>

    ghost predicate Valid()
      reads this`bytes, this`fixups, this`counts, this`literals, this`maxVarRef, this`totalVarRefs, this`open
    {
      && items == Flat(program, program) && Rep(items, bytes, fixups, literals, open)
      && counts == CountsAt(items, |bytes|) && VarsAre(items, |bytes|, maxVarRef, totalVarRefs)
    }

    /** The first k instructions have been written. */
    ghost predicate Ready(k: nat)
      reads this`bytes, this`fixups, this`counts, this`literals, this`maxVarRef, this`totalVarRefs, this`open,
          this`curStack, this`maxStack
    {
      Valid() && k <= |program| && |bytes| == Pos(program, k) && curStack <= maxStack
    }

    constructor (ghost program: seq<Instr>)
      ensures this.program == program && Ready(0) && open == {} && loops == [] && curStack == maxStack == 0
          && fixups == []
      ensures literals == []
    {
      this.program, this.items := program, Flat(program, program);
      bytes, fixups, counts, literals, open := [], [], Counts(0, 0, 0, 0), [], {};
      maxLiteral, maxVarRef, totalVarRefs, curStack, maxStack, loops := 0, 0, 0, 0, 0, [];
      RepStart(Flat(program, program));
    }

    // ---- bytes and fixups ----

    method EmitByte(b: Byte)
      requires Valid() && Next(items, |bytes|, Raw(b))
      modifies this`bytes
      ensures Valid() && |bytes| == old(|bytes|) + 1
    {
      hide Rep, CountsAt, Flat;
      RepRaw(items, bytes, fixups, literals, open, b);
      bytes := bytes + [b];
    }

    /** emit_byte and emit_extended_byte. */
    method EmitOp(extended: bool, b: Byte, ghost rest: seq<Item>)
      requires Valid() && AllNext(items, |bytes|, Op(extended, b) + rest)
      modifies this`bytes
      ensures Valid() && |bytes| == old(|bytes|) + |Op(extended, b)| && AllNext(items, |bytes|, rest)
    {
      hide Valid, AllNext, Next;
      NextParts(items, |bytes|, Op(extended, b) + rest);
      if extended {
        assert Op(extended, b) + rest == [Raw(OP_EXTENDED), Raw(b)] + rest;
        assert (Op(extended, b) + rest)[1..] == [Raw(b)] + rest;
        EmitByte(OP_EXTENDED);
        NextParts(items, |bytes|, [Raw(b)] + rest);
        assert ([Raw(b)] + rest)[1..] == rest;
      } else {
        assert (Op(extended, b) + rest)[1..] == rest;
      }
      EmitByte(b);
    }

    method AddVarRef(slot: nat)
      requires Valid() && Next(items, |bytes|, Arg(VarRef(slot)))
      modifies this`bytes, this`fixups, this`counts, this`maxVarRef, this`totalVarRefs
      ensures Valid() && |bytes| == old(|bytes|) + 1 && Kept(old(fixups), fixups)
    {
      hide Rep, CountsAt, Flat;
      var f := Fixup(VarK, |bytes|, slot, counts, -1);
      assert literals + [] == literals;
      RepArg(items, bytes, fixups, literals, open, f, [], open);
      bytes, fixups, counts := bytes + [0], fixups + [f], counts.(varRefs := counts.varRefs + 1);
      maxVarRef, totalVarRefs := if slot > maxVarRef then slot else maxVarRef, totalVarRefs + 1;
    }

    method AddStackRef(depth: nat)
      requires Valid() && Next(items, |bytes|, Arg(StackRef(depth)))
      modifies this`bytes, this`fixups
      ensures Valid() && |bytes| == old(|bytes|) + 1 && Kept(old(fixups), fixups)
    {
      hide Rep, CountsAt, Flat;
      var f := Fixup(StackK, |bytes|, depth, counts, -1);
      assert literals + [] == literals;
      RepArg(items, bytes, fixups, literals, open, f, [], open);
      bytes, fixups := bytes + [0], fixups + [f];
    }

    /** The literal is looked up among those there are, and added only if it is new. */
    method AddLiteral(v: Value)
      requires Valid() && Next(items, |bytes|, Arg(LiteralRef(v)))
      modifies this`bytes, this`fixups, this`counts, this`literals, this`maxLiteral
      ensures Valid() && |bytes| == old(|bytes|) + 1 && Kept(old(fixups), fixups)
      ensures literals == if v in old(literals) then old(literals) else old(literals) + [v]
    {
      hide Rep, CountsAt, Flat;
      var i := 0;
      while i < |literals| && literals[i] != v
        invariant i <= |literals| && v !in literals[..i]
      {
        i := i + 1;
      }
      var more := if i == |literals| then [v] else [];
      assert literals[..|literals|] == literals && literals + [] == literals;
      var f := Fixup(LiteralK, |bytes|, i, counts, -1);
      RepArg(items, bytes, fixups, literals, open, f, more, open);
      literals := literals + more;
      bytes, fixups, counts := bytes + [0], fixups + [f], counts.(literals := counts.literals + 1);
      maxLiteral := if i > maxLiteral then i else maxLiteral;
    }

    /** A label that is not known yet, linked to others for the same place. */
    method AddLinkedLabel(next: int, ghost t: nat) returns (first: int)
      requires Valid() && Next(items, |bytes|, Arg(LabelRef(t))) && Aims(items, fixups, next, t)
      modifies this`bytes, this`fixups, this`counts, this`open
      ensures Valid() && |bytes| == old(|bytes|) + 1 && Kept(old(fixups), fixups)
      ensures Aims(items, fixups, first, t) && Chain(fixups, first) == {first} + Chain(old(fixups), next)
      ensures open == old(open) + {first}
    {
      hide Rep, CountsAt, Flat;
      var f := Fixup(LabelK, |bytes|, 0, counts, next);
      first := |fixups|;
      assert literals + [] == literals;
      RepArg(items, bytes, fixups, literals, open, f, [], open + {first});
      AimsKept(items, fixups, fixups + [f], next, t);
      bytes, fixups, counts, open := bytes + [0], fixups + [f], counts.(labels := counts.labels + 1), open + {first};
    }

    method CaptureLabel() returns (f: Fixup)
      requires Valid()
      ensures f.kind == LabelK && f.next == -1 && Points(items, f, |bytes|)
    {
      f := Fixup(LabelK, 0, |bytes|, counts, -1);
    }

    method AddKnownLabel(f: Fixup, ghost t: nat)
      requires Valid() && Next(items, |bytes|, Arg(LabelRef(t))) && f.kind == LabelK && f.next == -1
          && Points(items, f, t)
      modifies this`bytes, this`fixups, this`counts
      ensures Valid() && |bytes| == old(|bytes|) + 1 && Kept(old(fixups), fixups)
    {
      hide Rep, CountsAt, Flat;
      var g := f.(pc := |bytes|);
      assert literals + [] == literals;
      RepArg(items, bytes, fixups, literals, open, g, [], open);
      bytes, fixups, counts := bytes + [0], fixups + [g], counts.(labels := counts.labels + 1);
    }

    /** Every label of the chain is here. */
    method DefineLabel(first: int, ghost k: nat)
      requires Ready(k) && Aims(items, fixups, first, Pos(program, k))
      modifies this`fixups, this`open
      ensures Ready(k) && |fixups| == old(|fixups|) && Kept(old(fixups), fixups)
          && open == old(open) - Chain(old(fixups), first)
    {
      hide Rep, CountsAt, Flat, Chain, Aims;
      var q := first;
      ghost var done: set<int> := {};
      KeptSelf(fixups);
      AimsFloor(items, fixups, first, |bytes|);
      while q != -1
        invariant q >= -1 && Valid() && Aims(items, fixups, q, |bytes|) && |fixups| == old(|fixups|)
            && Kept(old(fixups), fixups)
        invariant open == old(open) - done && done + Chain(fixups, q) == Chain(old(fixups), first)
        decreases q
      {
        AimsParts(items, fixups, q, |bytes|);
        RepSize(items, bytes, fixups, literals, open);
        var f := fixups[q].(value := |bytes|, prev := counts);
        RepResolve(items, bytes, fixups, literals, open, q, f);
        ghost var before := fixups;
        fixups := fixups[q := f];
        KeptOne(before, q, f);
        KeptTrans(old(fixups), before, fixups);
        AimsKept(items, before, fixups, before[q].next, |bytes|);
        open, done := open - {q}, done + {q};
        q := f.next;
      }
      ChainEnds(fixups);
    }

    // ---- instructions ----

    /** The items of the next instruction. */
    lemma Coming(k: nat)
      requires Ready(k) && k < |program|
      ensures var shape := Shape(program[k], Pos(program, LabelOf(program[k])));
              AllNext(items, |bytes|, shape) && Pos(program, k + 1) == |bytes| + |shape|
    {
      FlatAt(program, program, k);
    }

    method EmitVarOp(op: Byte, slot: nat)
      requires Valid() && (op == OP_PUT || op == OP_PUSH) && AllNext(items, |bytes|, VarOp(op, slot))
      modifies this`bytes, this`fixups, this`counts, this`maxVarRef, this`totalVarRefs
      ensures Valid() && |bytes| == old(|bytes|) + |VarOp(op, slot)| && Kept(old(fixups), fixups)
    {
      hide Valid, AllNext, Next, Kept;
      NextParts(items, |bytes|, VarOp(op, slot));
      KeptSelf(fixups);
      if slot >= NUM_READY_VARS {
        EmitByte(op + NUM_READY_VARS);
        NextParts(items, |bytes|, [Arg(VarRef(slot))]);
        AddVarRef(slot);
      } else {
        EmitByte(op + slot);
      }
    }

    /** An instruction without operands other than the bytes of its opcode. */
    method EmitPlain(extended: bool, b: Byte, ghost k: nat)
      requires Ready(k) && k < |program| && Shape(program[k], Pos(program, LabelOf(program[k]))) == Op(extended, b)
      modifies this`bytes
      ensures Ready(k + 1)
    {
      hide Valid, Shape, Op, AllNext;
      Coming(k);
      assert Op(extended, b) + [] == Op(extended, b);
      EmitOp(extended, b, []);
    }

    method EmitPush(slot: nat, ghost k: nat)
      requires Ready(k) && k < |program| && program[k] == Push(slot)
      modifies this`bytes, this`fixups, this`counts, this`maxVarRef, this`totalVarRefs
      ensures Ready(k + 1) && Kept(old(fixups), fixups)
    {
      hide Valid, AllNext, Kept, VarOp;
      Coming(k);
      EmitVarOp(OP_PUSH, slot);
    }

    method EmitPut(slot: nat, ghost k: nat)
      requires Ready(k) && k < |program| && program[k] == Put(slot)
      modifies this`bytes, this`fixups, this`counts, this`maxVarRef, this`totalVarRefs
      ensures Ready(k + 1) && Kept(old(fixups), fixups)
    {
      hide Valid, AllNext, Kept, VarOp;
      Coming(k);
      EmitVarOp(OP_PUT, slot);
    }

    /** A constant. */
    method EmitLiteral(v: Value, ghost k: nat)
      requires Ready(k) && k < |program| && program[k] == Literal(v)
      modifies this`bytes, this`fixups, this`counts, this`literals, this`maxLiteral
      ensures Ready(k + 1) && Kept(old(fixups), fixups)
    {
      hide Valid, AllNext, Next, Kept;
      Coming(k);
      KeptSelf(fixups);
      if v.IntV? && OPTIM_NUM_LOW <= v.num <= OPTIM_NUM_HI {
        NextParts(items, |bytes|, [Raw(OPTIM_NUM_START + v.num - OPTIM_NUM_LOW)]);
        EmitByte(OPTIM_NUM_START + v.num - OPTIM_NUM_LOW);
      } else {
        NextParts(items, |bytes|, [Raw(OP_IMM), Arg(LiteralRef(v))]);
        EmitByte(OP_IMM);
        NextParts(items, |bytes|, [Arg(LiteralRef(v))]);
        AddLiteral(v);
      }
    }

    /** Opcode and operands of an instruction that ends with a label. */
    method EmitHead(extended: bool, b: Byte, slot: Option<nat>, depth: Option<nat>, ghost t: nat)
      requires Valid() && AllNext(items, |bytes|,
          Op(extended, b) + VarPart(slot) + StackPart(depth) + [Arg(LabelRef(t))])
      modifies this`bytes, this`fixups, this`counts, this`maxVarRef, this`totalVarRefs
      ensures Valid() && Next(items, |bytes|, Arg(LabelRef(t))) && Kept(old(fixups), fixups)
      ensures |bytes| == old(|bytes|) + |Op(extended, b)| + |VarPart(slot)| + |StackPart(depth)|
    {
      hide Valid, AllNext, Next, Kept, Op, VarPart, StackPart;
      ghost var lab := [Arg(LabelRef(t))];
      SeqAssoc(Op(extended, b), VarPart(slot), StackPart(depth), lab);
      EmitOp(extended, b, VarPart(slot) + (StackPart(depth) + lab));
      EmitSlot(slot, StackPart(depth) + lab);
      ghost var mid := fixups;
      EmitDepth(depth, lab);
      KeptTrans(old(fixups), mid, fixups);
      NextParts(items, |bytes|, lab);
    }

    method EmitSlot(slot: Option<nat>, ghost rest: seq<Item>)
      requires Valid() && AllNext(items, |bytes|, VarPart(slot) + rest)
      modifies this`bytes, this`fixups, this`counts, this`maxVarRef, this`totalVarRefs
      ensures Valid() && AllNext(items, |bytes|, rest) && Kept(old(fixups), fixups)
          && |bytes| == old(|bytes|) + |VarPart(slot)|
    {
      hide Valid, AllNext, Next, Kept;
      KeptSelf(fixups);
      if slot.Some? {
        NextParts(items, |bytes|, VarPart(slot) + rest);
        assert (VarPart(slot) + rest)[1..] == rest;
        AddVarRef(slot.value);
      } else {
        assert VarPart(slot) + rest == rest;
      }
    }

    method EmitDepth(depth: Option<nat>, ghost rest: seq<Item>)
      requires Valid() && AllNext(items, |bytes|, StackPart(depth) + rest)
      modifies this`bytes, this`fixups
      ensures Valid() && AllNext(items, |bytes|, rest) && Kept(old(fixups), fixups)
          && |bytes| == old(|bytes|) + |StackPart(depth)|
    {
      hide Valid, AllNext, Next, Kept;
      KeptSelf(fixups);
      if depth.Some? {
        NextParts(items, |bytes|, StackPart(depth) + rest);
        assert (StackPart(depth) + rest)[1..] == rest;
        AddStackRef(depth.value);
      } else {
        assert StackPart(depth) + rest == rest;
      }
    }

    /** An instruction with a forward label. */
    method EmitLabelled(extended: bool, b: Byte, slot: Option<nat>, depth: Option<nat>, next: int, ghost k: nat,
        ghost lab: nat)
      returns (first: int)
      requires Ready(k) && k < |program| && Heads(program[k], extended, b, slot, depth, lab)
      requires Aims(items, fixups, next, Pos(program, lab))
      modifies this`bytes, this`fixups, this`counts, this`maxVarRef, this`totalVarRefs, this`open
      ensures Ready(k + 1) && Kept(old(fixups), fixups) && open == old(open) + {first}
      ensures Aims(items, fixups, first, Pos(program, lab))
      ensures Chain(fixups, first) == {first} + Chain(old(fixups), next)
    {
      hide Valid, AllNext, Next, Kept, Op, Shape, Aims, Chain, VarPart, StackPart, HeadOf, Pos;
      ghost var t := Pos(program, lab);
      Coming(k);
      HeadShape(program[k], t);
      EmitHead(extended, b, slot, depth, t);
      AimsKept(items, old(fixups), fixups, next, t);
      ghost var mid := fixups;
      first := AddLinkedLabel(next, t);
      KeptTrans(old(fixups), mid, fixups);
    }

    /** An instruction with a label that is known already. */
    method EmitKnown(extended: bool, b: Byte, slot: Option<nat>, depth: Option<nat>, f: Fixup, ghost k: nat,
        ghost lab: nat)
      requires Ready(k) && k < |program| && Heads(program[k], extended, b, slot, depth, lab)
      requires f.kind == LabelK && f.next == -1 && Points(items, f, Pos(program, lab))
      modifies this`bytes, this`fixups, this`counts, this`maxVarRef, this`totalVarRefs
      ensures Ready(k + 1) && Kept(old(fixups), fixups)
    {
      hide Valid, AllNext, Next, Kept, Op, Shape, VarPart, StackPart, Points, HeadOf, Pos;
      ghost var t := Pos(program, lab);
      Coming(k);
      HeadShape(program[k], t);
      EmitHead(extended, b, slot, depth, t);
      ghost var mid := fixups;
      AddKnownLabel(f, t);
      KeptTrans(old(fixups), mid, fixups);
    }

    // ---- expressions ----

    /** generate_expr: the code of the expression, every label of it in place, and the depth it needs. */
    method GenerateExpr(e: Expr, ghost k: nat)
      requires Ready(k) && At(program, k, CodeExpr(e, k))
      modifies this
      ensures Ready(k + SizeExpr(e)) && Kept(old(fixups), fixups) && open <= old(open) && loops == old(loops)
      ensures curStack == old(curStack) + 1 && maxStack == Peak(old(maxStack), old(curStack), DepthExpr(e))
      decreases e, 2
    {
      hide *;
      match e
      case Lit(v) =>
        LeafParts(e, k, program);
        EmitLiteral(v, k);
        PushStack(1, k + 1);
      case Id(slot) =>
        LeafParts(e, k, program);
        EmitPush(slot, k);
        PushStack(1, k + 1);
      case Bin(_, _, _) => GenerateBin(e, k);
      case Un(_, a) => GenerateUn(e, a, k);
      case And(_, _) => GenerateShort(e, k);
      case Or(_, _) => GenerateShort(e, k);
      case IfElse(_, _, _) => GenerateIfElse(e, k);
      case ListE(args) =>
        ListShape(args, k);
        GenerateArgs(args, k);
      case Assign(_, r) => GenerateUn(e, r, k);
      case CatchE(_, _, _) => GenerateCatch(e, k);
    }

    method GenerateBin(e: Expr, ghost k: nat)
      requires e.Bin? && Ready(k) && At(program, k, CodeExpr(e, k))
      modifies this
      ensures Ready(k + SizeExpr(e)) && Kept(old(fixups), fixups) && open <= old(open) && loops == old(loops)
      ensures curStack == old(curStack) + 1 && maxStack == Peak(old(maxStack), old(curStack), DepthExpr(e))
      decreases e, 1
    {
      hide *;
      BinParts(Idle(), e, k, map[]);
      BinPeak(e, maxStack, curStack);
      ghost var mid, last := k + SizeExpr(e.lhs), k + SizeExpr(e.lhs) + SizeExpr(e.rhs);
      AtSplit(program, k, CodeExpr(e.lhs, k) + CodeExpr(e.rhs, mid), [BinI(e.op)]);
      AtSplit(program, k, CodeExpr(e.lhs, k), CodeExpr(e.rhs, mid));
      AtOne(program, last, BinI(e.op));
      GenerateExpr(e.lhs, k);
      ghost var f := fixups;
      GenerateExpr(e.rhs, mid);
      KeptTrans(old(fixups), f, fixups);
      BinShape(e.op);
      EmitPlain(BinByte(e.op).0, BinByte(e.op).1, last);
      PopStack(1, last + 1);
    }

    /** Unary operators, and assignment to a variable. */
    method GenerateUn(e: Expr, a: Expr, ghost k: nat)
      requires (e.Un? && a == e.arg) || (e.Assign? && a == e.rhs)
      requires Ready(k) && At(program, k, CodeExpr(e, k))
      modifies this
      ensures Ready(k + SizeExpr(e)) && Kept(old(fixups), fixups) && open <= old(open) && loops == old(loops)
      ensures curStack == old(curStack) + 1 && maxStack == Peak(old(maxStack), old(curStack), DepthExpr(e))
      decreases e, 1
    {
      hide *;
      UnaryParts(e, k);
      ghost var i, last := if e.Un? then UnI(e.uop) else Put(e.slot), k + SizeExpr(a);
      AtSplit(program, k, CodeExpr(a, k), [i]);
      AtOne(program, last, i);
      GenerateExpr(a, k);
      ghost var f := fixups;
      if e.Un? {
        UnShape(e.uop);
        EmitPlain(UnByte(e.uop).0, UnByte(e.uop).1, last);
      } else {
        EmitPut(e.slot, last);
        KeptTrans(old(fixups), f, fixups);
      }
    }

    method GenerateShort(e: Expr, ghost k: nat)
      requires (e.And? || e.Or?) && Ready(k) && At(program, k, CodeExpr(e, k))
      modifies this
      ensures Ready(k + SizeExpr(e)) && Kept(old(fixups), fixups) && open <= old(open) && loops == old(loops)
      ensures curStack == old(curStack) + 1 && maxStack == Peak(old(maxStack), old(curStack), DepthExpr(e))
      decreases e, 1
    {
      hide *;
      ShortAt(program, e, k);
      ShortPeak(e, maxStack, curStack);
      ghost var end, mid := k + SizeExpr(e), k + SizeExpr(e.lhs);
      GenerateExpr(e.lhs, k);
      ghost var f1 := fixups;
      NoChain(items, fixups, Pos(program, end));
      var endLabel := EmitLabelled(false, if e.And? then OP_AND else OP_OR, None, None, -1, mid, end);
      ghost var f2 := fixups;
      PopStack(1, mid + 1);
      GenerateExpr(e.rhs, mid + 1);
      AimsKept(items, f2, fixups, endLabel, Pos(program, end));
      ghost var f3 := fixups;
      DefineLabel(endLabel, end);
      KeptTrans4(old(fixups), f1, f2, f3, fixups);
    }

    method GenerateIfElse(e: Expr, ghost k: nat)
      requires e.IfElse? && Ready(k) && At(program, k, CodeExpr(e, k))
      modifies this
      ensures Ready(k + SizeExpr(e)) && Kept(old(fixups), fixups) && open <= old(open) && loops == old(loops)
      ensures curStack == old(curStack) + 1 && maxStack == Peak(old(maxStack), old(curStack), DepthExpr(e))
      decreases e, 1
    {
      hide *;
      IfElseAt(program, e, k);
      IfElsePeak(e, maxStack, curStack);
      ghost var end, thn := k + SizeExpr(e), k + SizeExpr(e.cond) + 1;
      ghost var els := thn + SizeExpr(e.thn) + 1;
      GenerateExpr(e.cond, k);
      ghost var f1 := fixups;
      NoChain(items, fixups, Pos(program, els));
      var elseLabel := EmitLabelled(false, OP_IF_QUES, None, None, -1, thn - 1, els);
      ghost var f2 := fixups;
      KeptTrans(old(fixups), f1, f2);
      PopStack(1, thn);
      GenerateExpr(e.thn, thn);
      ghost var f3 := fixups;
      KeptTrans(old(fixups), f2, f3);
      AimsKept(items, f2, f3, elseLabel, Pos(program, els));
      GenerateElse(e.els, elseLabel, els, end);
      KeptTrans(old(fixups), f3, fixups);
    }

    /** The jump over the alternative, and the alternative. */
    method GenerateElse(e: Expr, elseLabel: int, ghost els: nat, ghost end: nat)
      requires els > 0 && Ready(els - 1) && At(program, els, CodeExpr(e, els)) && end == els + SizeExpr(e)
          && curStack > 0
      requires els - 1 < |program| && Heads(program[els - 1], false, OP_JUMP, None, None, end)
      requires Aims(items, fixups, elseLabel, Pos(program, els))
      modifies this
      ensures Ready(end) && Kept(old(fixups), fixups) && open <= old(open) - Chain(old(fixups), elseLabel)
          && loops == old(loops)
      ensures curStack == old(curStack) && maxStack == Peak(old(maxStack), old(curStack) - 1, DepthExpr(e))
      decreases e, 3
    {
      hide *;
      NoChain(items, fixups, Pos(program, end));
      var endLabel := EmitLabelled(false, OP_JUMP, None, None, -1, els - 1, end);
      ghost var f4 := fixups;
      PopStack(1, els);
      AimsKept(items, old(fixups), f4, elseLabel, Pos(program, els));
      DefineLabel(elseLabel, els);
      ghost var f5 := fixups;
      KeptTrans(old(fixups), f4, f5);
      GenerateExpr(e, els);
      ghost var f6 := fixups;
      KeptTrans(f4, f5, f6);
      AimsKept(items, f4, f6, endLabel, Pos(program, end));
      DefineLabel(endLabel, end);
      KeptTrans(old(fixups), f5, f6);
      KeptTrans(old(fixups), f6, fixups);
    }

    /** generate_arg_list. */
    method GenerateArgs(args: Args, ghost k: nat)
      requires Ready(k) && At(program, k, CodeArgs(args, k))
      modifies this
      ensures Ready(k + SizeArgs(args)) && Kept(old(fixups), fixups) && open <= old(open) && loops == old(loops)
      ensures curStack == old(curStack) + 1 && maxStack == Peak(old(maxStack), old(curStack), DepthArgs(args))
      decreases args, 1
    {
      hide *;
      KeptSelf(fixups);
      if args.ANil? {
        NoArgs(args, k, maxStack, curStack);
        AtOne(program, k, MakeEmptyList);
        ListOps();
        EmitPlain(false, OP_MAKE_EMPTY_LIST, k);
        PushStack(1, k + 1);
      } else {
        ArgsAt(program, args, k);
        ghost var mid := k + SizeExpr(args.e);
        ArgsPeak(args, maxStack, curStack);
        GenerateExpr(args.e, k);
        ghost var f := fixups;
        ListOps();
        EmitPlain(false, if args.splice then OP_CHECK_LIST_FOR_SPLICE else OP_MAKE_SINGLETON_LIST, mid);
        GenerateMore(args.rest, mid + 1);
        KeptTrans(old(fixups), f, fixups);
      }
    }

    /** The arguments after the first. */
    method GenerateMore(args: Args, ghost k: nat)
      requires Ready(k) && At(program, k, CodeMore(args, k)) && curStack > 0
      modifies this
      ensures Ready(k + SizeMore(args)) && Kept(old(fixups), fixups) && open <= old(open) && loops == old(loops)
      ensures curStack == old(curStack) && maxStack == Peak(old(maxStack), old(curStack) - 1, DepthMore(args))
      decreases args, 1
    {
      hide *;
      var rest := args;
      ghost var at: nat := k;
      KeptSelf(fixups);
      while rest.ACons?
        invariant Ready(at) && At(program, at, CodeMore(rest, at)) && curStack == old(curStack) && loops == old(loops)
        invariant Kept(old(fixups), fixups) && open <= old(open)
        invariant at + SizeMore(rest) == k + SizeMore(args) && (rest == args || rest < args)
        invariant Peak(maxStack, curStack - 1, DepthMore(rest)) == Peak(old(maxStack), curStack - 1, DepthMore(args))
        decreases rest
      {
        MoreAt(program, rest, at);
        ghost var mid := at + SizeExpr(rest.e);
        MorePeak(rest, maxStack, curStack);
        ghost var f := fixups;
        GenerateExpr(rest.e, at);
        KeptTrans(old(fixups), f, fixups);
        ListOps();
        EmitPlain(false, if rest.splice then OP_LIST_APPEND else OP_LIST_ADD_TAIL, mid);
        PopStack(1, mid + 1);
        at := mid + 1;
        rest := rest.rest;
      }
      Depths(at);
      NoMore(rest, maxStack, curStack);
    }

    method GenerateCodes(codes: Codes, ghost k: nat)
      requires Ready(k) && At(program, k, CodeCodes(codes, k))
      modifies this
      ensures Ready(k + SizeCodes(codes)) && Kept(old(fixups), fixups) && open <= old(open) && loops == old(loops)
      ensures curStack == old(curStack) + 1 && maxStack == Peak(old(maxStack), old(curStack), DepthCodes(codes))
      decreases codes, 1
    {
      hide *;
      KeptSelf(fixups);
      CodesShape(codes, k);
      if codes.Any? {
        AtOne(program, k, Small(0));
        ListOps();
        EmitPlain(false, SmallByte(0), k);
        PushStack(1, k + 1);
      } else {
        GenerateArgs(codes.args, k);
      }
    }

    method GenerateCatch(e: Expr, ghost k: nat)
      requires e.CatchE? && Ready(k) && At(program, k, CodeExpr(e, k))
      modifies this
      ensures Ready(k + SizeExpr(e)) && Kept(old(fixups), fixups) && open <= old(open) && loops == old(loops)
      ensures curStack == old(curStack) + 1 && maxStack == Peak(old(maxStack), old(curStack), DepthExpr(e))
      decreases e, 1
    {
      hide *;
      CatchAt(program, e, k);
      CatchPeak(e, maxStack, curStack);
      ghost var end, try := k + SizeExpr(e), k + SizeCodes(e.codes) + 2;
      ghost var h := try + SizeExpr(e.body) + 1;
      ListOps();
      GenerateCodes(e.codes, k);
      ghost var f1 := fixups;
      NoChain(items, fixups, Pos(program, h));
      var handlerLabel := EmitLabelled(true, EOP_PUSH_LABEL, None, None, -1, try - 2, h);
      ghost var f2 := fixups;
      KeptTrans(old(fixups), f1, f2);
      PushStack(1, try - 1);
      EmitPlain(true, EOP_CATCH, try - 1);
      PushStack(1, try);
      GenerateExpr(e.body, try);
      ghost var f3 := fixups;
      KeptTrans(old(fixups), f2, f3);
      AimsKept(items, f2, f3, handlerLabel, Pos(program, h));
      GenerateHandler(e.except, handlerLabel, h, end);
      KeptTrans(old(fixups), f3, fixups);
    }

    /** END_CATCH and the default part. */
    method GenerateHandler(except: Option<Expr>, handlerLabel: int, ghost h: nat, ghost end: nat)
      requires h > 0 && Ready(h - 1) && At(program, h, CodeExcept(except, h)) && end == h + SizeExcept(except)
          && curStack > 3
      requires h - 1 < |program| && Heads(program[h - 1], true, EOP_END_CATCH, None, None, end)
      requires Aims(items, fixups, handlerLabel, Pos(program, h))
      modifies this
      ensures Ready(end) && Kept(old(fixups), fixups) && open <= old(open) - Chain(old(fixups), handlerLabel)
          && loops == old(loops)
      ensures curStack == old(curStack) - 3 && maxStack == Peak(old(maxStack), old(curStack) - 4, DepthExcept(except))
      decreases except, 2
    {
      hide *;
      NoChain(items, fixups, Pos(program, end));
      var endLabel := EmitLabelled(true, EOP_END_CATCH, None, None, -1, h - 1, end);
      ghost var f4 := fixups;
      PopStack(3, h);
      AimsKept(items, old(fixups), f4, handlerLabel, Pos(program, h));
      DefineLabel(handlerLabel, h);
      ghost var f5 := fixups;
      KeptTrans(old(fixups), f4, f5);
      GenerateExcept(except, h);
      ghost var f6 := fixups;
      KeptTrans(f4, f5, f6);
      AimsKept(items, f4, f6, endLabel, Pos(program, end));
      DefineLabel(endLabel, end);
      KeptTrans(old(fixups), f5, f6);
      KeptTrans(old(fixups), f6, fixups);
    }

    /** The default part of a catch expression; its one entry is on the stack already. */
    method GenerateExcept(except: Option<Expr>, ghost k: nat)
      requires Ready(k) && At(program, k, CodeExcept(except, k)) && curStack > 0
      modifies this
      ensures Ready(k + SizeExcept(except)) && Kept(old(fixups), fixups) && open <= old(open) && loops == old(loops)
      ensures curStack == old(curStack) && maxStack == Peak(old(maxStack), old(curStack) - 1, DepthExcept(except))
      decreases except, 1
    {
      hide *;
      Depths(k);
      ExceptShape(except, k, maxStack, curStack);
      KeptSelf(fixups);
      ListOps();
      match except
      case None =>
        AtSplit(program, k, [Small(1)], [BinI(IndexOp)]);
        AtOne(program, k, Small(1));
        AtOne(program, k + 1, BinI(IndexOp));
        EmitPlain(false, SmallByte(1), k);
        EmitPlain(false, OP_REF, k + 1);
      case Some(d) =>
        AtSplit(program, k, [Pop], CodeExpr(d, k + 1));
        AtOne(program, k, Pop);
        EmitPlain(false, OP_POP, k);
        PopStack(1, k + 1);
        GenerateExpr(d, k + 1);
    }

    lemma Depths(k: nat)
      requires Ready(k)
      ensures curStack <= maxStack
    {
    }

    // ---- statements ----

    /** generate_stmt: the code of the statements; what is left open are jumps out of enclosing loops. */
    method GenerateStmts(s: Stmts, ghost k: nat, ghost ctx: seq<Loop>)
      requires Ready(k) && LoopsOk(items, program, fixups, loops, ctx) && WellScoped(s, Ids(ctx))
      requires At(program, k, CodeStmts(s, k, curStack, ctx))
      modifies this
      ensures Ready(k + SizeStmts(s)) && LoopsOk(items, program, fixups, loops, ctx)
      ensures curStack == old(curStack) && maxStack == Peak(old(maxStack), old(curStack), DepthStmts(s))
      ensures Progress(old(fixups), old(open), old(loops), fixups, open, loops, {})
      decreases s, 2
    {
      hide *;
      var rest := s;
      ghost var at: nat := k;
      ProgressNone(fixups, open, loops);
      while rest.SCons?
        invariant Ready(at) && LoopsOk(items, program, fixups, loops, ctx) && WellScoped(rest, Ids(ctx))
        invariant At(program, at, CodeStmts(rest, at, curStack, ctx)) && curStack == old(curStack)
        invariant at + SizeStmts(rest) == k + SizeStmts(s) && (rest == s || rest < s)
        invariant Peak(maxStack, curStack, DepthStmts(rest)) == Peak(old(maxStack), curStack, DepthStmts(s))
        invariant Progress(old(fixups), old(open), old(loops), fixups, open, loops, {})
        decreases rest
      {
        StmtsParts(Idle(), rest, at, curStack, ctx, map[], 0);
        ghost var n := SizeStmt(rest.head);
        AtSplit(program, at, CodeStmt(rest.head, at, curStack, ctx), CodeStmts(rest.tail, at + n, curStack, ctx));
        StmtsPeak(rest, maxStack, curStack);
        ghost var f, o, l := fixups, open, loops;
        GenerateStmt(rest.head, at, ctx);
        ProgressOn(old(fixups), old(open), old(loops), f, o, l, fixups, open, loops, {});
        at := at + n;
        rest := rest.tail;
      }
      Depths(at);
      NoStmtsPeak(rest, maxStack, curStack);
    }

    method GenerateStmt(s: Stmt, ghost k: nat, ghost ctx: seq<Loop>)
      requires Ready(k) && LoopsOk(items, program, fixups, loops, ctx) && WellScopedStmt(s, Ids(ctx))
      requires At(program, k, CodeStmt(s, k, curStack, ctx))
      modifies this
      ensures Ready(k + SizeStmt(s)) && LoopsOk(items, program, fixups, loops, ctx)
      ensures curStack == old(curStack) && maxStack == Peak(old(maxStack), old(curStack), DepthStmt(s))
      ensures Progress(old(fixups), old(open), old(loops), fixups, open, loops, {})
      decreases s, 2
    {
      hide *;
      match s
      case ExprS(_) => GenerateExprS(s, k, ctx);
      case CondS(_) => GenerateCond(s, k, ctx);
      case WhileS(_, _, _) => GenerateWhile(s, k, ctx);
      case RangeS(_, _, _, _) => GenerateRange(s, k, ctx);
      case ReturnS(_) => GenerateReturn(s, k, ctx);
      case TryExceptS(_, _) => GenerateTryExcept(s, k, ctx);
      case TryFinallyS(_, _) => GenerateFinally(s, k, ctx);
      case BreakS(_) => GenerateExit(s, k, ctx);
      case ContinueS(_) => GenerateExit(s, k, ctx);
    }

    method GenerateExprS(s: Stmt, ghost k: nat, ghost ctx: seq<Loop>)
      requires s.ExprS? && Ready(k) && LoopsOk(items, program, fixups, loops, ctx) && WellScopedStmt(s, Ids(ctx))
      requires At(program, k, CodeStmt(s, k, curStack, ctx))
      modifies this
      ensures Ready(k + SizeStmt(s)) && LoopsOk(items, program, fixups, loops, ctx)
      ensures curStack == old(curStack) && maxStack == Peak(old(maxStack), old(curStack), DepthStmt(s))
      ensures Progress(old(fixups), old(open), old(loops), fixups, open, loops, {})
      decreases s, 1
    {
      hide *;
      ExprSParts(Idle(), s, k, curStack, ctx, map[], 0);
      ghost var last := k + SizeExpr(s.e);
      AtSplit(program, k, CodeExpr(s.e, k), [Pop]);
      AtOne(program, last, Pop);
      ListOps();
      GenerateExpr(s.e, k);
      EmitPlain(false, OP_POP, last);
      PopStack(1, last + 1);
      ProgressStep(items, program, ctx, old(fixups), old(open), loops, fixups, open, {});
    }

    method GenerateReturn(s: Stmt, ghost k: nat, ghost ctx: seq<Loop>)
      requires s.ReturnS? && Ready(k) && LoopsOk(items, program, fixups, loops, ctx) && WellScopedStmt(s, Ids(ctx))
      requires At(program, k, CodeStmt(s, k, curStack, ctx))
      modifies this
      ensures Ready(k + SizeStmt(s)) && LoopsOk(items, program, fixups, loops, ctx)
      ensures curStack == old(curStack) && maxStack == Peak(old(maxStack), old(curStack), DepthStmt(s))
      ensures Progress(old(fixups), old(open), old(loops), fixups, open, loops, {})
      decreases s, 1
    {
      hide *;
      ReturnParts(Idle(), s, k, curStack, ctx, map[], 0);
      Depths(k);
      ReturnPeak(s, maxStack, curStack);
      KeptSelf(fixups);
      ListOps();
      if s.result.None? {
        AtOne(program, k, Return0);
        EmitPlain(false, OP_RETURN0, k);
      } else {
        ghost var last := k + SizeExpr(s.result.value);
        AtSplit(program, k, CodeExpr(s.result.value, k), [Return]);
        AtOne(program, last, Return);
        GenerateExpr(s.result.value, k);
        EmitPlain(false, OP_RETURN, last);
        PopStack(1, last + 1);
      }
      ProgressStep(items, program, ctx, old(fixups), old(open), loops, fixups, open, {});
    }

    method GenerateWhile(s: Stmt, ghost k: nat, ghost ctx: seq<Loop>)
      requires s.WhileS? && Ready(k) && LoopsOk(items, program, fixups, loops, ctx) && WellScopedStmt(s, Ids(ctx))
      requires At(program, k, CodeStmt(s, k, curStack, ctx))
      modifies this
      ensures Ready(k + SizeStmt(s)) && LoopsOk(items, program, fixups, loops, ctx)
      ensures curStack == old(curStack) && maxStack == Peak(old(maxStack), old(curStack), DepthStmt(s))
      ensures Progress(old(fixups), old(open), old(loops), fixups, open, loops, {})
      decreases s, 1
    {
      hide *;
      WhileAt(program, s, k, curStack, ctx);
      WhilePeak(s, maxStack, curStack);
      ghost var end, mid, c := k + SizeStmt(s), k + SizeExpr(s.cond), WhileLoop(s, k, curStack);
      WhileLoopIs(s, k, curStack);
      Placed(k);
      var top := CaptureLabel();
      GenerateExpr(s.cond, k);
      ghost var f1 := fixups;
      NoChain(items, fixups, Pos(program, end));
      var endLabel: int;
      if s.id.None? {
        endLabel := EmitLabelled(false, OP_WHILE, None, None, -1, mid, end);
      } else {
        endLabel := EmitLabelled(true, EOP_WHILE_ID, s.id, None, -1, mid, end);
      }
      KeptTrans(old(fixups), f1, fixups);
      PopStack(1, mid + 1);
      ProgressStep(items, program, ctx, old(fixups), old(open), loops, fixups, open, {endLabel});
      var l := LoopState(s.id, top, curStack, endLabel, curStack);
      LoopMade(items, program, fixups, l, c);
      GenerateBody(s.body, l, mid + 1, ctx, c, old(fixups), old(open), old(loops));
    }

    method GenerateRange(s: Stmt, ghost k: nat, ghost ctx: seq<Loop>)
      requires s.RangeS? && Ready(k) && LoopsOk(items, program, fixups, loops, ctx) && WellScopedStmt(s, Ids(ctx))
      requires At(program, k, CodeStmt(s, k, curStack, ctx))
      modifies this
      ensures Ready(k + SizeStmt(s)) && LoopsOk(items, program, fixups, loops, ctx)
      ensures curStack == old(curStack) && maxStack == Peak(old(maxStack), old(curStack), DepthStmt(s))
      ensures Progress(old(fixups), old(open), old(loops), fixups, open, loops, {})
      decreases s, 1
    {
      hide *;
      RangeCode(program, s, k, curStack, ctx);
      RangePeak(s, maxStack, curStack);
      ghost var end, mid, c := k + SizeStmt(s), k + SizeExpr(s.from), RangeLoop(s, k, curStack);
      ghost var at := mid + SizeExpr(s.to);
      RangeLoopIs(s, k, curStack);
      GenerateExpr(s.from, k);
      ghost var f1 := fixups;
      GenerateExpr(s.to, mid);
      KeptTrans(old(fixups), f1, fixups);
      Placed(at);
      var top := CaptureLabel();
      ghost var f2 := fixups;
      NoChain(items, fixups, Pos(program, end));
      var endLabel := EmitLabelled(false, OP_FOR_RANGE, Some(s.slot), None, -1, at, end);
      KeptTrans(old(fixups), f2, fixups);
      ProgressStep(items, program, ctx, old(fixups), old(open), loops, fixups, open, {endLabel});
      var l := LoopState(Some(s.slot), top, curStack, endLabel, curStack - 2);
      LoopMade(items, program, fixups, l, c);
      GenerateBody(s.body, l, at + 1, ctx, c, old(fixups), old(open), old(loops));
      PopStack(2, end);
    }

    /** The body of a loop between enter_loop and exit_loop, the jump to its top, and its end. */
    method GenerateBody(s: Stmts, l: LoopState, ghost k: nat, ghost ctx: seq<Loop>, ghost c: Loop, ghost f0: seq<Fixup>,
        ghost open0: set<int>, ghost loops0: seq<LoopState>)
      requires Ready(k) && LoopsOk(items, program, fixups, loops, ctx) && LoopOk(items, program, fixups, l, c)
      requires WellScoped(s, Ids(ctx + [c])) && At(program, k, CodeStmts(s, k, curStack, ctx + [c]))
      requires var end := k + SizeStmts(s) + 1;
               && end - 1 < |program| && Heads(program[end - 1], false, OP_JUMP, None, None, c.top) && c.bottom == end
      requires Progress(f0, open0, loops0, fixups, open, loops, {l.bottomLabel})
          && l.bottomLabel in Chain(fixups, l.bottomLabel)
      modifies this
      ensures Ready(k + SizeStmts(s) + 1) && LoopsOk(items, program, fixups, loops, ctx)
      ensures curStack == old(curStack) && maxStack == Peak(old(maxStack), old(curStack), DepthStmts(s))
      ensures Progress(f0, open0, loops0, fixups, open, loops, {})
      decreases s, 3
    {
      hide *;
      ghost var outer, end := loops, k + SizeStmts(s) + 1;
      LoopsEnter(items, program, fixups, loops, ctx, l, c);
      LoopsSize(items, program, fixups, loops, ctx);
      loops := loops + [l];
      ghost var f1, o1 := fixups, open;
      GenerateStmts(s, k, ctx + [c]);
      LoopsLeave(items, program, f1, o1, outer, l, fixups, open, loops, ctx, c, {});
      var inner := loops[|loops| - 1];
      loops := loops[..|loops| - 1];
      ghost var f2, o2, chain := fixups, open, Chain(fixups, inner.bottomLabel);
      TopOf(items, program, f1, l, c);
      EmitKnown(false, OP_JUMP, None, None, l.topLabel, end - 1, c.top);
      ProgressThen(items, program, ctx, f1, o1, outer, f2, o2, loops, fixups, open, {} + chain, {});
      AimsKept(items, f2, fixups, inner.bottomLabel, Pos(program, end));
      ProgressTrans(f0, open0, loops0, f1, o1, outer, fixups, open, loops, {l.bottomLabel}, {} + chain + {});
      ghost var f3, o3 := fixups, open;
      DefineLabel(inner.bottomLabel, end);
      ProgressDefine(items, program, ctx, f0, open0, loops0, f3, o3, loops, fixups, open,
        {l.bottomLabel} + ({} + chain + {}), chain);
      assert {l.bottomLabel} + ({} + chain + {}) - chain == {};
    }

    method GenerateCond(s: Stmt, ghost k: nat, ghost ctx: seq<Loop>)
      requires s.CondS? && Ready(k) && LoopsOk(items, program, fixups, loops, ctx) && WellScopedStmt(s, Ids(ctx))
      requires At(program, k, CodeStmt(s, k, curStack, ctx))
      modifies this
      ensures Ready(k + SizeStmt(s)) && LoopsOk(items, program, fixups, loops, ctx)
      ensures curStack == old(curStack) && maxStack == Peak(old(maxStack), old(curStack), DepthStmt(s))
      ensures Progress(old(fixups), old(open), old(loops), fixups, open, loops, {})
      decreases s, 1
    {
      hide *;
      CondParts(Idle(), s, k, curStack, ctx, map[], 0);
      ghost var done := k + SizeStmt(s);
      var a, first, endLabel := s.arms, true, -1;
      ghost var at: nat := k;
      ProgressNone(fixups, open, loops);
      NoChain(items, fixups, Pos(program, done));
      while a.Arm?
        invariant Ready(at) && LoopsOk(items, program, fixups, loops, ctx) && WellScopedArms(a, Ids(ctx))
            && curStack == old(curStack)
        invariant At(program, at, CodeArms(a, first, at, curStack, ctx, done)) && at + SizeArms(a) == done
        invariant Peak(maxStack, curStack, DepthArms(a)) == Peak(old(maxStack), curStack, DepthStmt(s)) && a < s
        invariant Aims(items, fixups, endLabel, Pos(program, done))
        invariant Progress(old(fixups), old(open), old(loops), fixups, open, loops, Chain(fixups, endLabel))
        decreases a
      {
        ArmAt(program, a, first, at, curStack, ctx, done);
        ArmPeak(a, maxStack, curStack);
        ghost var next := at + SizeExpr(a.cond) + 1 + SizeStmts(a.body) + 1;
        endLabel := GenerateArm(a, first, endLabel, at, ctx, done, old(fixups), old(open), old(loops));
        at, a, first := next, a.rest, false;
      }
      ElseParts(Idle(), a, first, at, curStack, ctx, done, map[], 0);
      ghost var f, o, l := fixups, open, loops;
      GenerateStmts(a.body, at, ctx);
      ProgressOn(old(fixups), old(open), old(loops), f, o, l, fixups, open, loops, Chain(f, endLabel));
      AimsKept(items, f, fixups, endLabel, Pos(program, done));
      ghost var f3, o3, chain := fixups, open, Chain(fixups, endLabel);
      DefineLabel(endLabel, done);
      ProgressDefine(items, program, ctx, old(fixups), old(open), old(loops), f3, o3, loops, fixups, open, chain,
        chain);
      assert chain - chain == {};
    }

    /** One IF or ELSEIF arm; the jump at its end joins the chain. */
    method GenerateArm(a: Arms, first: bool, endLabel: int, ghost k: nat, ghost ctx: seq<Loop>, ghost done: nat,
        ghost f0: seq<Fixup>, ghost open0: set<int>, ghost loops0: seq<LoopState>) returns (end: int)
      requires a.Arm? && Ready(k) && LoopsOk(items, program, fixups, loops, ctx) && WellScoped(a.body, Ids(ctx))
      requires Aims(items, fixups, endLabel, Pos(program, done))
      requires Progress(f0, open0, loops0, fixups, open, loops, Chain(fixups, endLabel))
      requires var thn := k + SizeExpr(a.cond) + 1;
               var next := thn + SizeStmts(a.body) + 1;
               && At(program, k, CodeExpr(a.cond, k)) && At(program, thn, CodeStmts(a.body, thn, curStack, ctx))
                 && next - 1 < |program|
               && Heads(program[thn - 1], false, if first then OP_IF else OP_EIF, None, None, next)
               && Heads(program[next - 1], false, OP_JUMP, None, None, done)
      modifies this
      ensures Ready(k + SizeExpr(a.cond) + 1 + SizeStmts(a.body) + 1) && LoopsOk(items, program, fixups, loops, ctx)
      ensures Aims(items, fixups, end, Pos(program, done))
      ensures Progress(f0, open0, loops0, fixups, open, loops, Chain(fixups, end))
      ensures curStack == old(curStack)
      ensures maxStack == Peak(Peak(old(maxStack), curStack, DepthExpr(a.cond)), curStack, DepthStmts(a.body))
      decreases a, 3
    {
      hide *;
      ghost var thn := k + SizeExpr(a.cond) + 1;
      ghost var next, ends := thn + SizeStmts(a.body) + 1, Chain(fixups, endLabel);
      ghost var fa, oa := fixups, open;
      GenerateExpr(a.cond, k);
      ghost var fb := fixups;
      NoChain(items, fixups, Pos(program, next));
      var elseLabel := EmitLabelled(false, if first then OP_IF else OP_EIF, None, None, -1, thn - 1, next);
      KeptTrans(fa, fb, fixups);
      PopStack(1, thn);
      ProgressThen(items, program, ctx, f0, open0, loops0, fa, oa, loops, fixups, open, ends, {elseLabel});
      ghost var f1, o1, l1 := fixups, open, loops;
      GenerateStmts(a.body, thn, ctx);
      ProgressOn(f0, open0, loops0, f1, o1, l1, fixups, open, loops, ends + {elseLabel});
      AimsKept(items, f1, fixups, elseLabel, Pos(program, next));
      KeptTrans(fa, f1, fixups);
      AimsKept(items, fa, fixups, endLabel, Pos(program, done));
      ghost var f2, o2 := fixups, open;
      end := EmitLabelled(false, OP_JUMP, None, None, endLabel, next - 1, done);
      ProgressThen(items, program, ctx, f0, open0, loops0, f2, o2, loops, fixups, open, ends + {elseLabel}, {end});
      AimsKept(items, f2, fixups, elseLabel, Pos(program, next));
      ghost var f3, o3, chain := fixups, open, Chain(fixups, elseLabel);
      DefineLabel(elseLabel, next);
      AimsKept(items, f3, fixups, end, Pos(program, done));
      ProgressDefine(items, program, ctx, f0, open0, loops0, f3, o3, loops, fixups, open, ends + {elseLabel} + {end},
        chain);
      ProgressMore(f0, open0, loops0, fixups, open, loops, ends + {elseLabel} + {end} - chain, Chain(fixups, end));
    }

    method GenerateFinally(s: Stmt, ghost k: nat, ghost ctx: seq<Loop>)
      requires s.TryFinallyS? && Ready(k) && LoopsOk(items, program, fixups, loops, ctx) && WellScopedStmt(s, Ids(ctx))
      requires At(program, k, CodeStmt(s, k, curStack, ctx))
      modifies this
      ensures Ready(k + SizeStmt(s)) && LoopsOk(items, program, fixups, loops, ctx)
      ensures curStack == old(curStack) && maxStack == Peak(old(maxStack), old(curStack), DepthStmt(s))
      ensures Progress(old(fixups), old(open), old(loops), fixups, open, loops, {})
      decreases s, 1
    {
      hide *;
      FinallyCode(program, s, k, curStack, ctx);
      FinallyPeak(s, maxStack, curStack);
      ghost var end, h := k + SizeStmt(s), k + 1 + SizeStmts(s.body) + 1;
      GenerateProtected(s.body, k, ctx, h);
      PushStack(2, h);
      ghost var f3, o3, l3 := fixups, open, loops;
      GenerateStmts(s.handler, h, ctx);
      ProgressOn(old(fixups), old(open), old(loops), f3, o3, l3, fixups, open, loops, {});
      ListOps();
      EmitPlain(true, EOP_CONTINUE, end - 1);
      PopStack(2, end);
    }

    /** TRY_FINALLY, the body, END_FINALLY. */
    method GenerateProtected(s: Stmts, ghost k: nat, ghost ctx: seq<Loop>, ghost h: nat)
      requires Ready(k) && LoopsOk(items, program, fixups, loops, ctx) && WellScoped(s, Ids(ctx))
          && h == k + 1 + SizeStmts(s) + 1
      requires At(program, k + 1, CodeStmts(s, k + 1, curStack + 1, ctx)) && h - 1 < |program|
          && program[h - 1] == EndFinally
      requires Heads(program[k], true, EOP_TRY_FINALLY, None, None, h)
      modifies this
      ensures Ready(h) && LoopsOk(items, program, fixups, loops, ctx)
      ensures curStack == old(curStack)
          && maxStack == Peak(Peak(old(maxStack), curStack, 1), curStack + 1, DepthStmts(s))
      ensures Progress(old(fixups), old(open), old(loops), fixups, open, loops, {})
      decreases s, 3
    {
      hide *;
      ListOps();
      NoChain(items, fixups, Pos(program, h));
      ghost var f0, o0, l0 := fixups, open, loops;
      var handlerLabel := EmitLabelled(true, EOP_TRY_FINALLY, None, None, -1, k, h);
      PushStack(1, k + 1);
      ProgressStep(items, program, ctx, f0, o0, loops, fixups, open, {handlerLabel});
      ghost var f1, o1, l1 := fixups, open, loops;
      GenerateStmts(s, k + 1, ctx);
      ProgressOn(f0, o0, l0, f1, o1, l1, fixups, open, loops, {handlerLabel});
      AimsKept(items, f1, fixups, handlerLabel, Pos(program, h));
      EmitPlain(true, EOP_END_FINALLY, h - 1);
      PopStack(1, h);
      ghost var f2, o2, chain := fixups, open, Chain(fixups, handlerLabel);
      DefineLabel(handlerLabel, h);
      ProgressDefine(items, program, ctx, f0, o0, l0, f2, o2, loops, fixups, open, {handlerLabel}, chain);
      assert {handlerLabel} - chain == {};
    }

    method GenerateExit(s: Stmt, ghost k: nat, ghost ctx: seq<Loop>)
      requires (s.BreakS? || s.ContinueS?) && Ready(k) && LoopsOk(items, program, fixups, loops, ctx)
          && WellScopedStmt(s, Ids(ctx))
      requires At(program, k, CodeStmt(s, k, curStack, ctx))
      modifies this
      ensures Ready(k + SizeStmt(s)) && LoopsOk(items, program, fixups, loops, ctx)
      ensures curStack == old(curStack) && maxStack == Peak(old(maxStack), old(curStack), DepthStmt(s))
      ensures Progress(old(fixups), old(open), old(loops), fixups, open, loops, {})
      decreases s, 1
    {
      hide *;
      Depths(k);
      ExitPeak(s, maxStack, curStack);
      LoopsSize(items, program, fixups, loops, ctx);
      ExitScoped(s, ctx);
      var i := FindLoop(s.exit, ctx);
      ExitCodeAt(program, s, k, curStack, ctx, ctx[i]);
      LoopAt(items, program, fixups, loops, ctx, i);
      ghost var f0, o0 := fixups, open;
      var op := if s.exit.Some? then EOP_EXIT_ID else EOP_EXIT;
      if s.ContinueS? {
        EmitKnown(true, op, s.exit, Some(loops[i].topStack), loops[i].topLabel, k, ctx[i].top);
        ProgressStep(items, program, ctx, f0, o0, loops, fixups, open, {});
      } else {
        var first := EmitLabelled(true, op, s.exit, Some(loops[i].bottomStack), loops[i].bottomLabel, k, ctx[i].bottom);
        LoopsBreak(items, program, f0, o0, loops, ctx, i, fixups, first);
        loops := loops[i := loops[i].(bottomLabel := first)];
      }
    }

    /** The loop that break or continue leaves: the innermost one, or the innermost one so named. */
    method FindLoop(exit: Option<nat>, ghost ctx: seq<Loop>) returns (i: nat)
      requires |loops| == |ctx| && HasLoop(Ids(ctx), exit) && LoopsOk(items, program, fixups, loops, ctx)
      ensures i < |loops| && ctx[i] == Target(ctx, exit)
    {
      hide LoopOk, Target, Ids, HasLoop;
      TargetStep(ctx, exit);
      i := |loops| - 1;
      assert ctx[..i + 1] == ctx;
      while exit.Some? && loops[i].id != exit
        invariant i < |loops| && HasLoop(Ids(ctx[..i + 1]), exit) && Target(ctx[..i + 1], exit) == Target(ctx, exit)
        decreases i
      {
        SameId(items, program, fixups, loops, ctx, i);
        TargetStep(ctx[..i + 1], exit);
        assert ctx[..i + 1][..i] == ctx[..i];
        i := i - 1;
      }
      SameId(items, program, fixups, loops, ctx, i);
      TargetStep(ctx[..i + 1], exit);
    }

    method GenerateTryExcept(s: Stmt, ghost k: nat, ghost ctx: seq<Loop>)
      requires s.TryExceptS? && Ready(k) && LoopsOk(items, program, fixups, loops, ctx) && WellScopedStmt(s, Ids(ctx))
      requires At(program, k, CodeStmt(s, k, curStack, ctx))
      modifies this
      ensures Ready(k + SizeStmt(s)) && LoopsOk(items, program, fixups, loops, ctx)
      ensures curStack == old(curStack) && maxStack == Peak(old(maxStack), old(curStack), DepthStmt(s))
      ensures Progress(old(fixups), old(open), old(loops), fixups, open, loops, {})
      decreases s, 1
    {
      hide *;
      ExceptCode(program, s, k, curStack, ctx);
      ExceptPeak(s, maxStack, curStack);
      var count := CountExcepts(s.excepts);
      ghost var end, open1 := k + SizeStmt(s), k + SizeAllCodes(s.excepts);
      ghost var h := open1 + 1 + SizeStmts(s.body) + 1;
      ghost var f0, o0, l0 := fixups, open, loops;
      var labels := GenerateAllCodes(s.excepts, k, h);
      EmitTryExcept(count, open1);
      PushStack(1, open1 + 1);
      ProgressStep(items, program, ctx, f0, o0, loops, fixups, open, LabelChains(fixups, labels));
      ghost var f1, o1, l1 := fixups, open, loops;
      GenerateStmts(s.body, open1 + 1, ctx);
      ProgressOn(f0, o0, l0, f1, o1, l1, fixups, open, loops, LabelChains(f1, labels));
      LabelsKept(items, program, f1, fixups, labels, s.excepts, h);
      ghost var f2, o2 := fixups, open;
      NoChain(items, fixups, Pos(program, end));
      var endLabel := EmitLabelled(true, EOP_END_EXCEPT, None, None, -1, h - 1, end);
      PopStack(2 * count + 1, h);
      LabelsKept(items, program, f2, fixups, labels, s.excepts, h);
      ProgressThen(items, program, ctx, f0, o0, l0, f2, o2, loops, fixups, open, LabelChains(f1, labels), {endLabel});
      ProgressMore(f0, o0, l0, fixups, open, loops, LabelChains(f1, labels) + {endLabel},
                   LabelChains(fixups, labels) + Chain(fixups, endLabel));
      GenerateHandlers(s.excepts, labels, endLabel, h, ctx, end, f0, o0, l0);
    }

    method EmitTryExcept(n: nat, ghost k: nat)
      requires Ready(k) && k < |program| && program[k] == TryExcept(n)
      modifies this`bytes
      ensures Ready(k + 1)
    {
      hide Valid, Op, AllNext, Next;
      Coming(k);
      EmitOp(true, EOP_TRY_EXCEPT, [Raw(n % 256)]);
      NextParts(items, |bytes|, [Raw(n % 256)]);
      EmitByte(n % 256);
    }

    /** The codes of all handlers, each followed by the handler's label. */
    method GenerateAllCodes(x: Excepts, ghost k: nat, ghost h: nat) returns (labels: seq<int>)
      requires Ready(k) && At(program, k, CodeAllCodes(x, k, h))
      modifies this
      ensures Ready(k + SizeAllCodes(x)) && Kept(old(fixups), fixups) && loops == old(loops)
      ensures LabelsFor(items, program, fixups, labels, x, h) && open <= old(open) + LabelChains(fixups, labels)
      ensures curStack == old(curStack) + 2 * CountExcepts(x)
      ensures maxStack == Peak(old(maxStack), old(curStack), DepthAllCodes(x))
      decreases x
    {
      hide *;
      KeptSelf(fixups);
      Depths(k);
      if x.XNil? {
        NoExcepts(items, program, fixups, x, h, maxStack, curStack);
        labels := [];
      } else {
        AllCodesAt(program, x, k, h);
        AllCodesPeak(x, maxStack, curStack);
        ghost var mid, h' := k + SizeCodes(x.codes), h + SizeHandler(x.slot, SizeStmts(x.body), x.rest.XNil?);
        GenerateCodes(x.codes, k);
        ghost var f1 := fixups;
        NoChain(items, fixups, Pos(program, h));
        var handlerLabel := EmitLabelled(true, EOP_PUSH_LABEL, None, None, -1, mid, h);
        ghost var f2 := fixups;
        KeptTrans(old(fixups), f1, f2);
        PushStack(1, mid + 1);
        var more := GenerateAllCodes(x.rest, mid + 1, h');
        KeptTrans(old(fixups), f2, fixups);
        AimsKept(items, f2, fixups, handlerLabel, Pos(program, h));
        labels := [handlerLabel] + more;
        LabelsCons(items, program, fixups, handlerLabel, more, x, h);
      }
    }

    /** The handlers; all but the last end with a jump that joins the chain, which is defined at the end. */
    method GenerateHandlers(x: Excepts, labels: seq<int>, endLabel: int, ghost k: nat, ghost ctx: seq<Loop>,
        ghost done: nat, ghost f0: seq<Fixup>, ghost open0: set<int>, ghost loops0: seq<LoopState>)
      requires Ready(k) && LoopsOk(items, program, fixups, loops, ctx) && WellScopedExcepts(x, Ids(ctx))
      requires At(program, k, CodeHandlers(x, k, curStack, ctx, done)) && done == k + SizeHandlers(x)
      requires LabelsFor(items, program, fixups, labels, x, k) && Aims(items, fixups, endLabel, Pos(program, done))
      requires Progress(f0, open0, loops0, fixups, open, loops, LabelChains(fixups, labels) + Chain(fixups, endLabel))
      modifies this
      ensures Ready(done) && LoopsOk(items, program, fixups, loops, ctx)
      ensures Progress(f0, open0, loops0, fixups, open, loops, {})
      ensures curStack == old(curStack) && maxStack == Peak(old(maxStack), curStack, DepthHandlers(x))
      decreases x, 2
    {
      hide *;
      Depths(k);
      if x.XNil? {
        NoHandlersLeft(items, program, fixups, labels, x, k, maxStack, curStack);
        ghost var f, o, chain := fixups, open, Chain(fixups, endLabel);
        DefineLabel(endLabel, k);
        ProgressDefine(items, program, ctx, f0, open0, loops0, f, o, loops, fixups, open, {} + chain, chain);
        assert {} + chain - chain == {};
      } else {
        HandlersPeak(x, maxStack, curStack);
        HandlerCode(program, x, k, curStack, ctx, done);
        LabelsHead(items, program, fixups, labels, x, k);
        ghost var next := k + SizeHandler(x.slot, SizeStmts(x.body), x.rest.XNil?);
        var end := GenerateOneHandler(x, labels, endLabel, k, next, ctx, done, f0, open0, loops0);
        GenerateHandlers(x.rest, labels[1..], end, next, ctx, done, f0, open0, loops0);
      }
    }

    method GenerateOneHandler(x: Excepts, labels: seq<int>, endLabel: int, ghost k: nat, ghost next: nat,
        ghost ctx: seq<Loop>, ghost done: nat, ghost f0: seq<Fixup>, ghost open0: set<int>,
        ghost loops0: seq<LoopState>)
      returns (end: int)
      requires x.XCons? && Ready(k) && LoopsOk(items, program, fixups, loops, ctx) && WellScoped(x.body, Ids(ctx))
      requires next == k + SizeHandler(x.slot, SizeStmts(x.body), x.rest.XNil?)
      requires var pop := if x.slot.Some? then k + 1 else k;
               && pop < |program| && program[pop] == Pop && (x.slot.Some? ==> program[k] == Put(x.slot.value))
               && At(program, pop + 1, CodeStmts(x.body, pop + 1, curStack, ctx))
               && (if x.rest.XNil? then next == pop + 1 + SizeStmts(x.body)
                   else next == pop + 1 + SizeStmts(x.body) + 1 && next - 1 < |program|
                        && Heads(program[next - 1], false, OP_JUMP, None, None, done))
      requires |labels| > 0 && Aims(items, fixups, labels[0], Pos(program, k))
          && Aims(items, fixups, endLabel, Pos(program, done))
      requires LabelsFor(items, program, fixups, labels[1..], x.rest, next)
      requires Progress(f0, open0, loops0, fixups, open, loops,
                        Chain(fixups, labels[0]) + LabelChains(fixups, labels[1..]) + Chain(fixups, endLabel))
      modifies this
      ensures Ready(next) && LoopsOk(items, program, fixups, loops, ctx)
      ensures LabelsFor(items, program, fixups, labels[1..], x.rest, next)
          && Aims(items, fixups, end, Pos(program, done))
      ensures Progress(f0, open0, loops0, fixups, open, loops, LabelChains(fixups, labels[1..]) + Chain(fixups, end))
      ensures curStack == old(curStack)
          && maxStack == Peak(Peak(old(maxStack), curStack, 1), curStack, DepthStmts(x.body))
      decreases x, 1
    {
      hide *;
      ghost var pop := if x.slot.Some? then k + 1 else k;
      ghost var chain, rest, ends := Chain(fixups, labels[0]), LabelChains(fixups, labels[1..]),
          Chain(fixups, endLabel);
      ghost var fa, oa := fixups, open;
      StartHandler(x.slot, labels[0], k);
      ProgressDefine(items, program, ctx, f0, open0, loops0, fa, oa, loops, fixups, open, chain + rest + ends, chain);
      ProgressMore(f0, open0, loops0, fixups, open, loops, chain + rest + ends - chain, rest + ends);
      ghost var f1, o1, l1 := fixups, open, loops;
      GenerateStmts(x.body, pop + 1, ctx);
      ProgressOn(f0, open0, loops0, f1, o1, l1, fixups, open, loops, rest + ends);
      KeptTrans(fa, f1, fixups);
      LabelsKept(items, program, fa, fixups, labels[1..], x.rest, next);
      AimsKept(items, fa, fixups, endLabel, Pos(program, done));
      end := endLabel;
      if x.rest.XCons? {
        ghost var f2, o2 := fixups, open;
        end := EmitLabelled(false, OP_JUMP, None, None, endLabel, next - 1, done);
        ProgressThen(items, program, ctx, f0, open0, loops0, f2, o2, loops, fixups, open, rest + ends, {end});
        LabelsKept(items, program, f2, fixups, labels[1..], x.rest, next);
        ProgressMore(f0, open0, loops0, fixups, open, loops, rest + ends + {end},
          LabelChains(fixups, labels[1..]) + Chain(fixups, end));
      }
    }

    /** The label of a handler, and the store and the pop of the error. */
    method StartHandler(slot: Option<nat>, first: int, ghost k: nat)
      requires Ready(k) && Aims(items, fixups, first, Pos(program, k))
      requires var pop := if slot.Some? then k + 1 else k;
               pop < |program| && program[pop] == Pop && (slot.Some? ==> program[k] == Put(slot.value))
      modifies this
      ensures Ready(if slot.Some? then k + 2 else k + 1) && Kept(old(fixups), fixups) && loops == old(loops)
      ensures open == old(open) - Chain(old(fixups), first)
      ensures curStack == old(curStack) && maxStack == Peak(old(maxStack), curStack, 1)
    {
      hide *;
      DefineLabel(first, k);
      ghost var f := fixups;
      KeptSelf(f);
      PushStack(1, k);
      if slot.Some? {
        EmitPut(slot.value, k);
      }
      KeptTrans(old(fixups), f, fixups);
      ListOps();
      EmitPlain(false, OP_POP, if slot.Some? then k + 1 else k);
      PopStack(1, if slot.Some? then k + 2 else k + 1);
    }

    lemma Placed(k: nat)
      requires Ready(k)
      ensures Valid() && |bytes| == Pos(program, k)
    {
    }

    /** DONE ends the program. */
    method Finish(ghost k: nat)
      requires Ready(k) && k + 1 == |program| && program[k] == Done
      modifies this`bytes
      ensures Rep(items, bytes, fixups, literals, open) && |bytes| == |items| && counts == CountsAt(items, |items|)
      ensures items == Flat(program, program) && VarsAre(items, |items|, maxVarRef, totalVarRefs)
    {
      hide Rep, CountsAt, VarsAre, Shape, Op;
      ListOps();
      EmitPlain(false, OP_DONE, k);
      FlatSize(program, program);
    }

    method PushStack(n: nat, ghost k: nat)
      requires Ready(k)
      modifies this`curStack, this`maxStack
      ensures Ready(k) && curStack == old(curStack) + n && maxStack == Peak(old(maxStack), old(curStack), n)
    {
      curStack := curStack + n;
      maxStack := if curStack > maxStack then curStack else maxStack;
    }

    method PopStack(n: nat, ghost k: nat)
      requires Ready(k) && n <= curStack
      modifies this`curStack
      ensures Ready(k) && curStack == old(curStack) - n
    {
      curStack := curStack - n;
    }
  }

  // ---- facts about single constructs ----

  lemma LeafParts(e: Expr, k: nat, program: seq<Instr>)
    requires (e.Lit? || e.Id?) && At(program, k, CodeExpr(e, k))
    ensures k < |program| && program[k] == (if e.Lit? then Literal(e.v) else Push(e.slot))
    ensures SizeExpr(e) == 1 && DepthExpr(e) == 1
  {
    AtOne(program, k, if e.Lit? then Literal(e.v) else Push(e.slot));
  }

  lemma BinPeak(e: Expr, m: nat, c: nat)
    requires e.Bin?
    ensures Peak(Peak(m, c, DepthExpr(e.lhs)), c + 1, DepthExpr(e.rhs)) == Peak(m, c, DepthExpr(e))
  {
  }

  lemma BinShape(op: BinOp)
    ensures forall t: nat :: Shape(BinI(op), t) == Op(BinByte(op).0, BinByte(op).1)
  {
  }

  function UnByte(op: UnOp): (bool, Byte) {
    match op
    case NegOp => (false, OP_UNARY_MINUS)
    case NotOp => (false, OP_NOT)
    case ComplementOp => (true, EOP_COMPLEMENT)
  }

  lemma UnShape(op: UnOp)
    ensures forall t: nat :: Shape(UnI(op), t) == Op(UnByte(op).0, UnByte(op).1)
  {
  }

  lemma UnaryParts(e: Expr, k: nat)
    requires e.Un? || e.Assign?
    ensures e.Un? ==> CodeExpr(e, k) == CodeExpr(e.arg, k) + [UnI(e.uop)] && SizeExpr(e) == SizeExpr(e.arg) + 1
                      && DepthExpr(e) == DepthExpr(e.arg)
    ensures e.Assign? ==> CodeExpr(e, k) == CodeExpr(e.rhs, k) + [Put(e.slot)] && SizeExpr(e) == SizeExpr(e.rhs) + 1
                          && DepthExpr(e) == DepthExpr(e.rhs)
  {
  }

  lemma ListShape(args: Args, k: nat)
    ensures CodeExpr(ListE(args), k) == CodeArgs(args, k) && SizeExpr(ListE(args)) == SizeArgs(args)
    ensures DepthExpr(ListE(args)) == DepthArgs(args)
  {
  }

  lemma ShortPeak(e: Expr, m: nat, c: nat)
    requires e.And? || e.Or?
    ensures Peak(Peak(m, c, DepthExpr(e.lhs)), c, DepthExpr(e.rhs)) == Peak(m, c, DepthExpr(e))
  {
  }

  lemma IfElsePeak(e: Expr, m: nat, c: nat)
    requires e.IfElse?
    ensures Peak(Peak(Peak(m, c, DepthExpr(e.cond)), c, DepthExpr(e.thn)), c, DepthExpr(e.els))
        == Peak(m, c, DepthExpr(e))
  {
  }

  lemma NoArgs(args: Args, k: nat, m: nat, c: nat)
    requires args.ANil?
    ensures CodeArgs(args, k) == [MakeEmptyList] && SizeArgs(args) == 1 && Peak(m, c, 1) == Peak(m, c, DepthArgs(args))
  {
  }

  lemma ArgsPeak(args: Args, m: nat, c: nat)
    requires args.ACons?
    ensures Peak(Peak(m, c, DepthExpr(args.e)), c, DepthMore(args.rest)) == Peak(m, c, DepthArgs(args))
  {
  }

  lemma MorePeak(args: Args, m: nat, c: nat)
    requires args.ACons? && c > 0
    ensures Peak(Peak(m, c, DepthExpr(args.e)), c - 1, DepthMore(args.rest)) == Peak(m, c - 1, DepthMore(args))
  {
  }

  lemma NoMore(args: Args, m: nat, c: nat)
    requires args.ANil? && 0 < c <= m
    ensures SizeMore(args) == 0 && Peak(m, c - 1, DepthMore(args)) == m
  {
  }

  lemma CodesShape(codes: Codes, k: nat)
    ensures codes.Any? ==> CodeCodes(codes, k) == [Small(0)] && SizeCodes(codes) == 1 && DepthCodes(codes) == 1
    ensures codes.Only? ==> CodeCodes(codes, k) == CodeArgs(codes.args, k) && SizeCodes(codes) == SizeArgs(codes.args)
                            && DepthCodes(codes) == DepthArgs(codes.args)
  {
  }

  lemma CatchPeak(e: Expr, m: nat, c: nat)
    requires e.CatchE?
    ensures var m1 := Peak(Peak(Peak(m, c, DepthCodes(e.codes)), c + 1, 1), c + 2, 1);
            Peak(Peak(m1, c + 3, DepthExpr(e.body)), c, DepthExcept(e.except)) == Peak(m, c, DepthExpr(e))
  {
  }

  lemma ExceptShape(except: Option<Expr>, k: nat, m: nat, c: nat)
    requires 0 < c
    ensures except.None? ==> CodeExcept(except, k) == [Small(1)] + [BinI(IndexOp)] && SizeExcept(except) == 2
                             && (c <= m ==> Peak(m, c - 1, DepthExcept(except)) == m)
    ensures except.Some? ==> CodeExcept(except, k) == [Pop] + CodeExpr(except.value, k + 1)
                             && SizeExcept(except) == 1 + SizeExpr(except.value)
                               && DepthExcept(except) == DepthExpr(except.value)
  {
  }

  /** Instructions that are nothing but an opcode. */
  lemma ListOps()
    ensures forall t: nat :: Shape(MakeEmptyList, t) == Op(false, OP_MAKE_EMPTY_LIST)
    ensures forall t: nat :: Shape(MakeSingleton, t) == Op(false, OP_MAKE_SINGLETON_LIST)
    ensures forall t: nat :: Shape(CheckSplice, t) == Op(false, OP_CHECK_LIST_FOR_SPLICE)
    ensures forall t: nat :: Shape(AddTail, t) == Op(false, OP_LIST_ADD_TAIL)
    ensures forall t: nat :: Shape(AppendI, t) == Op(false, OP_LIST_APPEND)
    ensures forall t: nat :: Shape(Small(0), t) == Op(false, SmallByte(0))
    ensures forall t: nat :: Shape(Small(1), t) == Op(false, SmallByte(1))
    ensures forall t: nat :: Shape(BinI(IndexOp), t) == Op(false, OP_REF)
    ensures forall t: nat :: Shape(Pop, t) == Op(false, OP_POP)
    ensures forall t: nat :: Shape(CatchI, t) == Op(true, EOP_CATCH)
    ensures forall t: nat :: Shape(Return0, t) == Op(false, OP_RETURN0)
    ensures forall t: nat :: Shape(Return, t) == Op(false, OP_RETURN)
    ensures forall t: nat :: Shape(EndFinally, t) == Op(true, EOP_END_FINALLY)
    ensures forall t: nat :: Shape(ContinueI, t) == Op(true, EOP_CONTINUE)
    ensures forall t: nat :: Shape(Done, t) == Op(false, OP_DONE)
  {
  }

  /** The constants 0 and 1, which have opcodes of their own. */
  function Small(n: nat): Instr
    requires n <= 1
  {
    NumI(n)
  }

  function SmallByte(n: nat): Byte
    requires n <= 1
  {
    OPTIM_NUM_START + n - OPTIM_NUM_LOW
  }

  lemma {:induction false} ShortAt(program: seq<Instr>, e: Expr, k: nat)
    requires (e.And? || e.Or?) && At(program, k, CodeExpr(e, k))
    ensures var end, mid := k + SizeExpr(e), k + SizeExpr(e.lhs);
            && At(program, k, CodeExpr(e.lhs, k)) && At(program, mid + 1, CodeExpr(e.rhs, mid + 1)) && mid < |program|
            && Heads(program[mid], false, if e.And? then OP_AND else OP_OR, None, None, end)
            && end == mid + 1 + SizeExpr(e.rhs)
  {
    hide *;
    ShortParts(Idle(), e, k, map[]);
    var end, mid := k + SizeExpr(e), k + SizeExpr(e.lhs);
    var i := if e.And? then AndI(end) else OrI(end);
    AtSplit(program, k, CodeExpr(e.lhs, k) + [i], CodeExpr(e.rhs, mid + 1));
    AtSplit(program, k, CodeExpr(e.lhs, k), [i]);
    AtOne(program, mid, i);
    JumpHeads(end);
  }

  lemma {:induction false} IfElseAt(program: seq<Instr>, e: Expr, k: nat)
    requires e.IfElse? && At(program, k, CodeExpr(e, k))
    ensures var end, thn := k + SizeExpr(e), k + SizeExpr(e.cond) + 1;
            var els := thn + SizeExpr(e.thn) + 1;
            && At(program, k, CodeExpr(e.cond, k)) && At(program, thn, CodeExpr(e.thn, thn))
              && At(program, els, CodeExpr(e.els, els))
            && els - 1 < |program| && Heads(program[thn - 1], false, OP_IF_QUES, None, None, els)
            && Heads(program[els - 1], false, OP_JUMP, None, None, end) && end == els + SizeExpr(e.els)
  {
    hide *;
    IfElseParts(Idle(), e, k, map[]);
    var end, thn := k + SizeExpr(e), k + SizeExpr(e.cond) + 1;
    var els := thn + SizeExpr(e.thn) + 1;
    var front := CodeExpr(e.cond, k) + [IfQues(els)] + CodeExpr(e.thn, thn);
    AtSplit(program, k, front + [Jump(end)], CodeExpr(e.els, els));
    AtSplit(program, k, front, [Jump(end)]);
    AtSplit(program, k, CodeExpr(e.cond, k) + [IfQues(els)], CodeExpr(e.thn, thn));
    AtSplit(program, k, CodeExpr(e.cond, k), [IfQues(els)]);
    AtOne(program, thn - 1, IfQues(els));
    AtOne(program, els - 1, Jump(end));
    JumpHeads(els);
    JumpHeads(end);
  }

  lemma {:induction false} ArgsAt(program: seq<Instr>, args: Args, k: nat)
    requires args.ACons? && At(program, k, CodeArgs(args, k))
    ensures var mid := k + SizeExpr(args.e);
            && At(program, k, CodeExpr(args.e, k)) && At(program, mid + 1, CodeMore(args.rest, mid + 1))
              && mid < |program|
            && program[mid] == (if args.splice then CheckSplice else MakeSingleton)
            && k + SizeArgs(args) == mid + 1 + SizeMore(args.rest)
  {
    hide *;
    ArgsParts(Idle(), args, k, map[]);
    var i, mid := if args.splice then CheckSplice else MakeSingleton, k + SizeExpr(args.e);
    AtSplit(program, k, CodeExpr(args.e, k) + [i], CodeMore(args.rest, mid + 1));
    AtSplit(program, k, CodeExpr(args.e, k), [i]);
    AtOne(program, mid, i);
  }

  lemma {:induction false} MoreAt(program: seq<Instr>, args: Args, k: nat)
    requires args.ACons? && At(program, k, CodeMore(args, k))
    ensures var mid := k + SizeExpr(args.e);
            && At(program, k, CodeExpr(args.e, k)) && At(program, mid + 1, CodeMore(args.rest, mid + 1))
              && mid < |program|
            && program[mid] == (if args.splice then AppendI else AddTail)
            && k + SizeMore(args) == mid + 1 + SizeMore(args.rest)
  {
    hide *;
    MoreParts(Idle(), args, NoneV, k, map[]);
    var i, mid := if args.splice then AppendI else AddTail, k + SizeExpr(args.e);
    AtSplit(program, k, CodeExpr(args.e, k) + [i], CodeMore(args.rest, mid + 1));
    AtSplit(program, k, CodeExpr(args.e, k), [i]);
    AtOne(program, mid, i);
  }

  lemma {:induction false} CatchAt(program: seq<Instr>, e: Expr, k: nat)
    requires e.CatchE? && At(program, k, CodeExpr(e, k))
    ensures var end, try := k + SizeExpr(e), k + SizeCodes(e.codes) + 2;
            var h := try + SizeExpr(e.body) + 1;
            && At(program, k, CodeCodes(e.codes, k)) && At(program, try, CodeExpr(e.body, try))
              && At(program, h, CodeExcept(e.except, h))
            && h - 1 < |program| && Heads(program[try - 2], true, EOP_PUSH_LABEL, None, None, h)
              && program[try - 1] == CatchI
            && Heads(program[h - 1], true, EOP_END_CATCH, None, None, end) && end == h + SizeExcept(e.except)
  {
    hide *;
    CatchParts(Idle(), e, k, map[]);
    var end, try := k + SizeExpr(e), k + SizeCodes(e.codes) + 2;
    var h := try + SizeExpr(e.body) + 1;
    var front := CodeCodes(e.codes, k) + [PushLabel(h), CatchI];
    AtSplit(program, k, front + CodeExpr(e.body, try) + [EndCatch(end)], CodeExcept(e.except, h));
    AtSplit(program, k, front + CodeExpr(e.body, try), [EndCatch(end)]);
    AtSplit(program, k, front, CodeExpr(e.body, try));
    AtSplit(program, k, CodeCodes(e.codes, k), [PushLabel(h), CatchI]);
    assert [PushLabel(h), CatchI] == [PushLabel(h)] + [CatchI];
    AtSplit(program, try - 2, [PushLabel(h)], [CatchI]);
    AtOne(program, try - 2, PushLabel(h));
    AtOne(program, try - 1, CatchI);
    AtOne(program, h - 1, EndCatch(end));
    JumpHeads(h);
    JumpHeads(end);
  }

  // ---- facts about statements ----

  lemma StmtsPeak(s: Stmts, m: nat, c: nat)
    requires s.SCons?
    ensures Peak(Peak(m, c, DepthStmt(s.head)), c, DepthStmts(s.tail)) == Peak(m, c, DepthStmts(s))
  {
  }

  lemma NoStmtsPeak(s: Stmts, m: nat, c: nat)
    requires s.SNil? && c <= m
    ensures SizeStmts(s) == 0 && Peak(m, c, DepthStmts(s)) == m
  {
  }

  lemma ReturnPeak(s: Stmt, m: nat, c: nat)
    requires s.ReturnS? && c <= m
    ensures s.result.None? ==> SizeStmt(s) == 1 && Peak(m, c, DepthStmt(s)) == m
  {
  }

  lemma ExitPeak(s: Stmt, m: nat, c: nat)
    requires (s.BreakS? || s.ContinueS?) && c <= m
    ensures SizeStmt(s) == 1 && Peak(m, c, DepthStmt(s)) == m
  {
  }

  lemma WhilePeak(s: Stmt, m: nat, c: nat)
    requires s.WhileS?
    ensures Peak(Peak(m, c, DepthExpr(s.cond)), c, DepthStmts(s.body)) == Peak(m, c, DepthStmt(s))
  {
  }

  lemma RangePeak(s: Stmt, m: nat, c: nat)
    requires s.RangeS?
    ensures Peak(Peak(Peak(m, c, DepthExpr(s.from)), c + 1, DepthExpr(s.to)), c + 2, DepthStmts(s.body))
        == Peak(m, c, DepthStmt(s))
  {
  }

  lemma ArmPeak(a: Arms, m: nat, c: nat)
    requires a.Arm?
    ensures Peak(Peak(Peak(m, c, DepthExpr(a.cond)), c, DepthStmts(a.body)), c, DepthArms(a.rest))
        == Peak(m, c, DepthArms(a))
  {
  }

  lemma FinallyPeak(s: Stmt, m: nat, c: nat)
    requires s.TryFinallyS?
    ensures Peak(Peak(Peak(Peak(m, c, 1), c + 1, DepthStmts(s.body)), c, 2), c + 2, DepthStmts(s.handler))
        == Peak(m, c, DepthStmt(s))
  {
  }

  lemma {:induction false} ExceptPeak(s: Stmt, m: nat, c: nat)
    requires s.TryExceptS?
    ensures var n := CountExcepts(s.excepts);
            Peak(Peak(Peak(Peak(m, c, DepthAllCodes(s.excepts)), c + 2 * n, 1), c + 2 * n + 1, DepthStmts(s.body)), c,
              DepthHandlers(s.excepts))
            == Peak(m, c, DepthStmt(s))
  {
    hide DepthAllCodes, DepthHandlers, DepthStmts, CountExcepts, Peak;
    PeakFour(m, c, DepthAllCodes(s.excepts), CountExcepts(s.excepts), DepthStmts(s.body), DepthHandlers(s.excepts));
  }

  lemma PeakFour(m: nat, c: nat, a: nat, n: nat, b: nat, h: nat)
    ensures Peak(Peak(Peak(Peak(m, c, a), c + 2 * n, 1), c + 2 * n + 1, b), c, h)
        == Peak(m, c, Max(a, Max(2 * n + 1 + b, h)))
  {
  }

  lemma AllCodesPeak(x: Excepts, m: nat, c: nat)
    requires x.XCons?
    ensures Peak(Peak(Peak(m, c, DepthCodes(x.codes)), c + 1, 1), c + 2, DepthAllCodes(x.rest))
        == Peak(m, c, DepthAllCodes(x))
    ensures CountExcepts(x) == 1 + CountExcepts(x.rest)
  {
  }

  lemma HandlersPeak(x: Excepts, m: nat, c: nat)
    requires x.XCons?
    ensures Peak(Peak(Peak(m, c, 1), c, DepthStmts(x.body)), c, DepthHandlers(x.rest)) == Peak(m, c, DepthHandlers(x))
  {
  }

  lemma WhileLoopIs(s: Stmt, k: nat, d: nat)
    requires s.WhileS?
    ensures WhileLoop(s, k, d) == Loop(s.id, k, d, k + SizeStmt(s), d)
  {
  }

  lemma RangeLoopIs(s: Stmt, k: nat, d: nat)
    requires s.RangeS?
    ensures RangeLoop(s, k, d) == Loop(Some(s.slot), k + SizeExpr(s.from) + SizeExpr(s.to), d + 2, k + SizeStmt(s), d)
  {
  }

  lemma VarHeads(slot: nat, lab: nat)
    ensures Heads(WhileId(slot, lab), true, EOP_WHILE_ID, Some(slot), None, lab)
    ensures Heads(WhileI(lab), false, OP_WHILE, None, None, lab)
    ensures Heads(ForRange(slot, lab), false, OP_FOR_RANGE, Some(slot), None, lab)
  {
  }

  lemma {:induction false} WhileAt(program: seq<Instr>, s: Stmt, k: nat, d: nat, ctx: seq<Loop>)
    requires s.WhileS? && WellScopedStmt(s, Ids(ctx)) && At(program, k, CodeStmt(s, k, d, ctx))
    ensures var end, mid, c := k + SizeStmt(s), k + SizeExpr(s.cond), WhileLoop(s, k, d);
            && At(program, k, CodeExpr(s.cond, k)) && WellScoped(s.body, Ids(ctx + [c])) && end - 1 < |program|
            && At(program, mid + 1, CodeStmts(s.body, mid + 1, d, ctx + [c]))
            && (s.id.None? ==> Heads(program[mid], false, OP_WHILE, None, None, end))
            && (s.id.Some? ==> Heads(program[mid], true, EOP_WHILE_ID, s.id, None, end))
            && Heads(program[end - 1], false, OP_JUMP, None, None, k) && end == mid + 1 + SizeStmts(s.body) + 1
  {
    hide *;
    WhileParts(Idle(), s, k, d, ctx, map[], 0);
    var end, mid, c := k + SizeStmt(s), k + SizeExpr(s.cond), WhileLoop(s, k, d);
    var i, code := if s.id.Some? then WhileId(s.id.value, end)
        else WhileI(end), CodeStmts(s.body, mid + 1, d, ctx + [c]);
    AtFour(program, k, CodeExpr(s.cond, k), [i], code, [Jump(k)]);
    AtOne(program, mid, i);
    AtOne(program, end - 1, Jump(k));
    JumpHeads(k);
    VarHeads(if s.id.Some? then s.id.value else 0, end);
  }

  lemma {:induction false} RangeCode(program: seq<Instr>, s: Stmt, k: nat, d: nat, ctx: seq<Loop>)
    requires s.RangeS? && WellScopedStmt(s, Ids(ctx)) && At(program, k, CodeStmt(s, k, d, ctx))
    ensures var end, mid, c := k + SizeStmt(s), k + SizeExpr(s.from), RangeLoop(s, k, d);
            var at := mid + SizeExpr(s.to);
            && At(program, k, CodeExpr(s.from, k)) && At(program, mid, CodeExpr(s.to, mid))
            && WellScoped(s.body, Ids(ctx + [c])) && end - 1 < |program|
              && At(program, at + 1, CodeStmts(s.body, at + 1, d + 2, ctx + [c]))
            && Heads(program[at], false, OP_FOR_RANGE, Some(s.slot), None, end)
            && Heads(program[end - 1], false, OP_JUMP, None, None, at) && end == at + 1 + SizeStmts(s.body) + 1
  {
    hide *;
    RangeParts(Idle(), s, k, d, ctx, map[], 0);
    var end, mid, c := k + SizeStmt(s), k + SizeExpr(s.from), RangeLoop(s, k, d);
    var at := mid + SizeExpr(s.to);
    var code := CodeStmts(s.body, at + 1, d + 2, ctx + [c]);
    AtFive(program, k, CodeExpr(s.from, k), CodeExpr(s.to, mid), [ForRange(s.slot, end)], code, [Jump(at)]);
    AtOne(program, at, ForRange(s.slot, end));
    AtOne(program, end - 1, Jump(at));
    JumpHeads(at);
    VarHeads(s.slot, end);
  }

  lemma {:induction false} ArmAt(program: seq<Instr>, a: Arms, first: bool, k: nat, d: nat, ctx: seq<Loop>, done: nat)
    requires a.Arm? && WellScopedArms(a, Ids(ctx)) && At(program, k, CodeArms(a, first, k, d, ctx, done))
    ensures var thn := k + SizeExpr(a.cond) + 1;
            var next := thn + SizeStmts(a.body) + 1;
            && WellScoped(a.body, Ids(ctx)) && WellScopedArms(a.rest, Ids(ctx))
            && At(program, k, CodeExpr(a.cond, k)) && At(program, thn, CodeStmts(a.body, thn, d, ctx))
              && next - 1 < |program|
            && Heads(program[thn - 1], false, if first then OP_IF else OP_EIF, None, None, next)
            && Heads(program[next - 1], false, OP_JUMP, None, None, done)
            && At(program, next, CodeArms(a.rest, false, next, d, ctx, done))
              && k + SizeArms(a) == next + SizeArms(a.rest)
  {
    hide *;
    ArmParts(Idle(), a, first, k, d, ctx, done, map[], 0);
    var thn := k + SizeExpr(a.cond) + 1;
    var next := thn + SizeStmts(a.body) + 1;
    var i, code := if first then IfI(next) else Eif(next), CodeStmts(a.body, thn, d, ctx);
    AtFive(program, k, CodeExpr(a.cond, k), [i], code, [Jump(done)], CodeArms(a.rest, false, next, d, ctx, done));
    AtOne(program, thn - 1, i);
    AtOne(program, next - 1, Jump(done));
    JumpHeads(next);
    JumpHeads(done);
  }

  lemma {:induction false} FinallyCode(program: seq<Instr>, s: Stmt, k: nat, d: nat, ctx: seq<Loop>)
    requires s.TryFinallyS? && WellScopedStmt(s, Ids(ctx)) && At(program, k, CodeStmt(s, k, d, ctx))
    ensures var end, h := k + SizeStmt(s), k + 1 + SizeStmts(s.body) + 1;
            && WellScoped(s.body, Ids(ctx)) && WellScoped(s.handler, Ids(ctx)) && end - 1 < |program|
            && At(program, k + 1, CodeStmts(s.body, k + 1, d + 1, ctx))
              && At(program, h, CodeStmts(s.handler, h, d + 2, ctx))
            && Heads(program[k], true, EOP_TRY_FINALLY, None, None, h) && program[h - 1] == EndFinally
            && program[end - 1] == ContinueI && end == h + SizeStmts(s.handler) + 1
  {
    hide *;
    FinallyParts(Idle(), s, k, d, ctx, map[], 0);
    var end, h := k + SizeStmt(s), k + 1 + SizeStmts(s.body) + 1;
    var cb, ch := CodeStmts(s.body, k + 1, d + 1, ctx), CodeStmts(s.handler, h, d + 2, ctx);
    AtFive(program, k, [TryFinally(h)], cb, [EndFinally], ch, [ContinueI]);
    AtOne(program, k, TryFinally(h));
    AtOne(program, h - 1, EndFinally);
    AtOne(program, end - 1, ContinueI);
    JumpHeads(h);
  }

  lemma {:induction false} ExceptCode(program: seq<Instr>, s: Stmt, k: nat, d: nat, ctx: seq<Loop>)
    requires s.TryExceptS? && WellScopedStmt(s, Ids(ctx)) && At(program, k, CodeStmt(s, k, d, ctx))
    ensures var x, n, end, try := s.excepts, CountExcepts(s.excepts), k + SizeStmt(s), k + SizeAllCodes(s.excepts) + 1;
            var h := try + SizeStmts(s.body) + 1;
            && WellScoped(s.body, Ids(ctx)) && WellScopedExcepts(x, Ids(ctx)) && h - 1 < |program|
            && At(program, k, CodeAllCodes(x, k, h)) && program[try - 1] == TryExcept(n)
            && At(program, try, CodeStmts(s.body, try, d + 2 * n + 1, ctx))
            && Heads(program[h - 1], true, EOP_END_EXCEPT, None, None, end)
            && At(program, h, CodeHandlers(x, h, d, ctx, end)) && end == h + SizeHandlers(x)
  {
    hide *;
    ExceptSCode(s, k, d, ctx);
    var x, n, end, try := s.excepts, CountExcepts(s.excepts), k + SizeStmt(s), k + SizeAllCodes(s.excepts) + 1;
    var h := try + SizeStmts(s.body) + 1;
    var cc, cb := CodeAllCodes(x, k, h), CodeStmts(s.body, try, d + 2 * n + 1, ctx);
    AtFive(program, k, cc, [TryExcept(n)], cb, [EndExcept(end)], CodeHandlers(x, h, d, ctx, end));
    AtOne(program, try - 1, TryExcept(n));
    AtOne(program, h - 1, EndExcept(end));
    JumpHeads(end);
  }

  lemma {:induction false} AllCodesAt(program: seq<Instr>, x: Excepts, k: nat, h: nat)
    requires x.XCons? && At(program, k, CodeAllCodes(x, k, h))
    ensures var mid, h' := k + SizeCodes(x.codes), h + SizeHandler(x.slot, SizeStmts(x.body), x.rest.XNil?);
            && At(program, k, CodeCodes(x.codes, k)) && mid < |program|
              && Heads(program[mid], true, EOP_PUSH_LABEL, None, None, h)
            && At(program, mid + 1, CodeAllCodes(x.rest, mid + 1, h'))
              && k + SizeAllCodes(x) == mid + 1 + SizeAllCodes(x.rest)
  {
    hide *;
    AllCodesParts(Idle(), x, k, h, map[]);
    var mid, h' := k + SizeCodes(x.codes), h + SizeHandler(x.slot, SizeStmts(x.body), x.rest.XNil?);
    AtSplit(program, k, CodeCodes(x.codes, k) + [PushLabel(h)], CodeAllCodes(x.rest, mid + 1, h'));
    AtSplit(program, k, CodeCodes(x.codes, k), [PushLabel(h)]);
    AtOne(program, mid, PushLabel(h));
    JumpHeads(h);
  }

  lemma {:induction false} HandlersShape(x: Excepts, k: nat, d: nat, ctx: seq<Loop>, done: nat)
    requires x.XCons? && WellScopedExcepts(x, Ids(ctx))
    ensures WellScoped(x.body, Ids(ctx)) && WellScopedExcepts(x.rest, Ids(ctx))
    ensures var store := if x.slot.Some? then [Put(x.slot.value)] else [];
            var next := k + SizeHandler(x.slot, SizeStmts(x.body), x.rest.XNil?);
            && CodeHandlers(x, k, d, ctx, done)
               == store + [Pop] + CodeStmts(x.body, k + |store| + 1, d, ctx)
                 + (if x.rest.XNil? then [] else [Jump(done)])
                  + CodeHandlers(x.rest, next, d, ctx, done)
            && next == k + |store| + 1 + SizeStmts(x.body) + (if x.rest.XNil? then 0 else 1)
            && k + SizeHandlers(x) == next + SizeHandlers(x.rest)
  {
    var cs := seq(CountExcepts(x), i => NoneV);
    HandlersParts(Idle(), x, cs, NoneV, k, d, ctx, done, map[], 0);
  }

  lemma {:induction false} HandlerCode(program: seq<Instr>, x: Excepts, k: nat, d: nat, ctx: seq<Loop>, done: nat)
    requires x.XCons? && WellScopedExcepts(x, Ids(ctx)) && At(program, k, CodeHandlers(x, k, d, ctx, done))
    ensures var next := k + SizeHandler(x.slot, SizeStmts(x.body), x.rest.XNil?);
            var pop := if x.slot.Some? then k + 1 else k;
            && WellScoped(x.body, Ids(ctx)) && WellScopedExcepts(x.rest, Ids(ctx))
            && pop < |program| && program[pop] == Pop && (x.slot.Some? ==> program[k] == Put(x.slot.value))
            && At(program, pop + 1, CodeStmts(x.body, pop + 1, d, ctx))
            && (if x.rest.XNil? then next == pop + 1 + SizeStmts(x.body)
                else next == pop + 1 + SizeStmts(x.body) + 1 && next - 1 < |program|
                     && Heads(program[next - 1], false, OP_JUMP, None, None, done))
            && At(program, next, CodeHandlers(x.rest, next, d, ctx, done))
              && k + SizeHandlers(x) == next + SizeHandlers(x.rest)
  {
    hide *;
    HandlersShape(x, k, d, ctx, done);
    var store, jump := if x.slot.Some? then [Put(x.slot.value)] else [], if x.rest.XNil? then [] else [Jump(done)];
    var next, pop := k + SizeHandler(x.slot, SizeStmts(x.body), x.rest.XNil?), k + |store|;
    var cb := CodeStmts(x.body, pop + 1, d, ctx);
    AtFive(program, k, store, [Pop], cb, jump, CodeHandlers(x.rest, next, d, ctx, done));
    AtOne(program, pop, Pop);
    JumpHeads(done);
    if x.slot.Some? {
      AtOne(program, k, Put(x.slot.value));
    }
    if x.rest.XCons? {
      AtOne(program, next - 1, Jump(done));
    }
  }

  lemma ExitScoped(s: Stmt, ctx: seq<Loop>)
    requires (s.BreakS? || s.ContinueS?) && WellScopedStmt(s, Ids(ctx))
    ensures HasLoop(Ids(ctx), s.exit)
  {
  }

  lemma {:induction false} ExitCodeAt(program: seq<Instr>, s: Stmt, k: nat, d: nat, ctx: seq<Loop>, c: Loop)
    requires (s.BreakS? || s.ContinueS?) && WellScopedStmt(s, Ids(ctx)) && At(program, k, CodeStmt(s, k, d, ctx))
    requires HasLoop(Ids(ctx), s.exit) && c == Target(ctx, s.exit)
    ensures k < |program|
    ensures var op := if s.exit.Some? then EOP_EXIT_ID else EOP_EXIT;
            && (s.ContinueS? ==> Heads(program[k], true, op, s.exit, Some(c.topDepth), c.top))
            && (s.BreakS? ==> Heads(program[k], true, op, s.exit, Some(c.bottomDepth), c.bottom))
  {
    hide Target, Ids, HasLoop;
    AtOne(program, k, if s.BreakS? then ExitCode(s.exit, c.bottomDepth, c.bottom)
      else ExitCode(s.exit, c.topDepth, c.top));
  }

  lemma LoopsSize(items: seq<Item>, program: seq<Instr>, fixups: seq<Fixup>, loops: seq<LoopState>, ctx: seq<Loop>)
    requires LoopsOk(items, program, fixups, loops, ctx)
    ensures |loops| == |ctx|
  {
  }

  lemma LoopAt(items: seq<Item>, program: seq<Instr>, fixups: seq<Fixup>, loops: seq<LoopState>, ctx: seq<Loop>, i: nat)
    requires LoopsOk(items, program, fixups, loops, ctx) && i < |loops|
    ensures i < |ctx| && loops[i].topLabel.kind == LabelK && loops[i].topLabel.next == -1
    ensures Points(items, loops[i].topLabel, Pos(program, ctx[i].top)) && loops[i].topStack == ctx[i].topDepth
    ensures loops[i].bottomStack == ctx[i].bottomDepth
        && Aims(items, fixups, loops[i].bottomLabel, Pos(program, ctx[i].bottom))
  {
    hide Points, Aims;
    assert LoopOk(items, program, fixups, loops[i], ctx[i]);
  }

  lemma LoopMade(items: seq<Item>, program: seq<Instr>, fixups: seq<Fixup>, l: LoopState, c: Loop)
    requires l.id == c.id && l.topLabel.kind == LabelK && l.topLabel.next == -1
        && Points(items, l.topLabel, Pos(program, c.top))
    requires l.topStack == c.topDepth && l.bottomStack == c.bottomDepth
        && Aims(items, fixups, l.bottomLabel, Pos(program, c.bottom))
    ensures LoopOk(items, program, fixups, l, c)
  {
  }

  lemma TopOf(items: seq<Item>, program: seq<Instr>, fixups: seq<Fixup>, l: LoopState, c: Loop)
    requires LoopOk(items, program, fixups, l, c)
    ensures l.topLabel.kind == LabelK && l.topLabel.next == -1 && Points(items, l.topLabel, Pos(program, c.top))
  {
  }

  lemma SameId(items: seq<Item>, program: seq<Instr>, fixups: seq<Fixup>, loops: seq<LoopState>, ctx: seq<Loop>, i: nat)
    requires LoopsOk(items, program, fixups, loops, ctx) && i < |loops|
    ensures i < |ctx| && loops[i].id == ctx[i].id
  {
    assert LoopOk(items, program, fixups, loops[i], ctx[i]);
  }

  lemma TargetStep(ctx: seq<Loop>, exit: Option<nat>)
    requires HasLoop(Ids(ctx), exit)
    ensures |ctx| > 0
    ensures var n := |ctx| - 1;
            if exit == None || ctx[n].id == exit then Target(ctx, exit) == ctx[n]
            else n > 0 && HasLoop(Ids(ctx[..n]), exit) && Target(ctx, exit) == Target(ctx[..n], exit)
  {
    var n := |ctx| - 1;
    assert |Ids(ctx)| == |ctx|;
    assert Ids(ctx) == Ids(ctx[..n]) + [ctx[n].id];
    if n == 0 {
      assert Ids(ctx[..n]) == [];
    }
  }

  lemma ProgressMore(f0: seq<Fixup>, open0: set<int>, loops0: seq<LoopState>, f1: seq<Fixup>, open1: set<int>,
      loops1: seq<LoopState>, a: set<int>, b: set<int>)
    requires Progress(f0, open0, loops0, f1, open1, loops1, a) && a <= b
    ensures Progress(f0, open0, loops0, f1, open1, loops1, b)
  {
    hide Kept, Longer, LoopChains;
  }

  // ---- the labels of handlers ----

  /** Each handler's label is for where the handler starts. */
  predicate LabelsFor(items: seq<Item>, program: seq<Instr>, fixups: seq<Fixup>, labels: seq<int>, x: Excepts, h: nat) {
    match x
    case XNil => labels == []
    case XCons(slot, _, body, rest) =>
      && |labels| > 0 && Aims(items, fixups, labels[0], Pos(program, h))
      && LabelsFor(items, program, fixups, labels[1..], rest, h + SizeHandler(slot, SizeStmts(body), rest.XNil?))
  }

  function LabelChains(fixups: seq<Fixup>, labels: seq<int>): set<int> {
    if labels == [] then {} else Chain(fixups, labels[0]) + LabelChains(fixups, labels[1..])
  }

  lemma {:induction false} LabelsKept(items: seq<Item>, program: seq<Instr>, before: seq<Fixup>, after: seq<Fixup>,
      labels: seq<int>, x: Excepts, h: nat)
    requires Kept(before, after) && LabelsFor(items, program, before, labels, x, h)
    ensures LabelsFor(items, program, after, labels, x, h) && LabelChains(after, labels) == LabelChains(before, labels)
  {
    hide Kept, Aims, Chain, SizeStmts, SizeHandler, Pos;
    if x.XCons? {
      AimsKept(items, before, after, labels[0], Pos(program, h));
      LabelsKept(items, program, before, after, labels[1..], x.rest,
        h + SizeHandler(x.slot, SizeStmts(x.body), x.rest.XNil?));
    }
  }

  lemma {:induction false} LabelsCons(items: seq<Item>, program: seq<Instr>, fixups: seq<Fixup>, first: int,
      more: seq<int>, x: Excepts, h: nat)
    requires x.XCons? && Aims(items, fixups, first, Pos(program, h))
    requires LabelsFor(items, program, fixups, more, x.rest, h + SizeHandler(x.slot, SizeStmts(x.body), x.rest.XNil?))
    ensures LabelsFor(items, program, fixups, [first] + more, x, h)
    ensures LabelChains(fixups, [first] + more) == Chain(fixups, first) + LabelChains(fixups, more)
  {
    hide Aims, Chain;
    assert ([first] + more)[1..] == more;
  }

  lemma {:induction false} LabelsHead(items: seq<Item>, program: seq<Instr>, fixups: seq<Fixup>, labels: seq<int>,
      x: Excepts, h: nat)
    requires x.XCons? && LabelsFor(items, program, fixups, labels, x, h)
    ensures |labels| > 0 && Aims(items, fixups, labels[0], Pos(program, h))
    ensures LabelsFor(items, program, fixups, labels[1..], x.rest,
        h + SizeHandler(x.slot, SizeStmts(x.body), x.rest.XNil?))
    ensures LabelChains(fixups, labels) == Chain(fixups, labels[0]) + LabelChains(fixups, labels[1..])
  {
    hide Aims, Chain;
  }

  lemma NoExcepts(items: seq<Item>, program: seq<Instr>, fixups: seq<Fixup>, x: Excepts, h: nat, m: nat, c: nat)
    requires x.XNil? && c <= m
    ensures SizeAllCodes(x) == 0 && CountExcepts(x) == 0 && Peak(m, c, DepthAllCodes(x)) == m
    ensures LabelsFor(items, program, fixups, [], x, h) && LabelChains(fixups, []) == {}
  {
  }

  lemma NoHandlersLeft(items: seq<Item>, program: seq<Instr>, fixups: seq<Fixup>, labels: seq<int>, x: Excepts, h: nat,
      m: nat, c: nat)
    requires x.XNil? && c <= m && LabelsFor(items, program, fixups, labels, x, h)
    ensures SizeHandlers(x) == 0 && Peak(m, c, DepthHandlers(x)) == m && LabelChains(fixups, labels) == {}
  {
  }

  /** Opcode and operands of an instruction with a label. */
  function HeadOf(i: Instr): (bool, Byte, Option<nat>, Option<nat>)
    requires HasLabel(i)
  {
    match i
    case AndI(_) => (false, OP_AND, None, None)
    case OrI(_) => (false, OP_OR, None, None)
    case IfQues(_) => (false, OP_IF_QUES, None, None)
    case IfI(_) => (false, OP_IF, None, None)
    case Eif(_) => (false, OP_EIF, None, None)
    case WhileI(_) => (false, OP_WHILE, None, None)
    case WhileId(slot, _) => (true, EOP_WHILE_ID, Some(slot), None)
    case Jump(_) => (false, OP_JUMP, None, None)
    case ForRange(slot, _) => (false, OP_FOR_RANGE, Some(slot), None)
    case PushLabel(_) => (true, EOP_PUSH_LABEL, None, None)
    case EndCatch(_) => (true, EOP_END_CATCH, None, None)
    case EndExcept(_) => (true, EOP_END_EXCEPT, None, None)
    case TryFinally(_) => (true, EOP_TRY_FINALLY, None, None)
    case Exit(depth, _) => (true, EOP_EXIT, None, Some(depth))
    case ExitId(slot, depth, _) => (true, EOP_EXIT_ID, Some(slot), Some(depth))
  }

  lemma HeadShape(i: Instr, t: nat)
    requires HasLabel(i)
    ensures var (extended, b, slot, depth) := HeadOf(i);
            Shape(i, t) == Op(extended, b) + VarPart(slot) + StackPart(depth) + [Arg(LabelRef(t))]
  {
  }

  /** The instruction i with this head and this label. */
  predicate Heads(i: Instr, extended: bool, b: Byte, slot: Option<nat>, depth: Option<nat>, lab: nat) {
    HasLabel(i) && HeadOf(i) == (extended, b, slot, depth) && LabelOf(i) == lab
  }

  lemma JumpHeads(lab: nat)
    ensures Heads(AndI(lab), false, OP_AND, None, None, lab) && Heads(OrI(lab), false, OP_OR, None, None, lab)
    ensures Heads(IfQues(lab), false, OP_IF_QUES, None, None, lab) && Heads(Jump(lab), false, OP_JUMP, None, None, lab)
    ensures Heads(IfI(lab), false, OP_IF, None, None, lab) && Heads(Eif(lab), false, OP_EIF, None, None, lab)
    ensures Heads(PushLabel(lab), true, EOP_PUSH_LABEL, None, None, lab)
        && Heads(EndCatch(lab), true, EOP_END_CATCH, None, None, lab)
    ensures Heads(EndExcept(lab), true, EOP_END_EXCEPT, None, None, lab)
        && Heads(TryFinally(lab), true, EOP_TRY_FINALLY, None, None, lab)
  {
  }

  lemma NoChain(items: seq<Item>, fixups: seq<Fixup>, t: nat)
    ensures Aims(items, fixups, -1, t) && Chain(fixups, -1) == {}
  {
  }

  lemma KeptTrans4(a: seq<Fixup>, b: seq<Fixup>, c: seq<Fixup>, d: seq<Fixup>, e: seq<Fixup>)
    requires Kept(a, b) && Kept(b, c) && Kept(c, d) && Kept(d, e)
    ensures Kept(a, e)
  {
  }

  function VarPart(slot: Option<nat>): seq<Item> {
    if slot.Some? then [Arg(VarRef(slot.value))] else []
  }

  function StackPart(depth: Option<nat>): seq<Item> {
    if depth.Some? then [Arg(StackRef(depth.value))] else []
  }

  lemma SeqAssoc(a: seq<Item>, b: seq<Item>, c: seq<Item>, d: seq<Item>)
    ensures a + b + c + d == a + (b + (c + d))
  {
  }

  lemma KeptSelf(f: seq<Fixup>)
    ensures Kept(f, f)
  {
  }

  lemma KeptOne(fixups: seq<Fixup>, q: nat, f: Fixup)
    requires q < |fixups| && f.kind == fixups[q].kind && f.pc == fixups[q].pc && f.next == fixups[q].next
    ensures Kept(fixups, fixups[q := f])
  {
  }

  lemma AimsParts(items: seq<Item>, fixups: seq<Fixup>, q: int, t: nat)
    requires Aims(items, fixups, q, t) && q != -1
    ensures 0 <= q < |fixups| && fixups[q].kind == LabelK && fixups[q].pc < |items|
        && items[fixups[q].pc] == Arg(LabelRef(t))
    ensures -1 <= fixups[q].next < q && Aims(items, fixups, fixups[q].next, t)
    ensures Chain(fixups, q) == {q} + Chain(fixups, fixups[q].next)
  {
  }

  lemma AimsFloor(items: seq<Item>, fixups: seq<Fixup>, q: int, t: nat)
    requires Aims(items, fixups, q, t)
    ensures q >= -1
  {
  }

  lemma RepSize(items: seq<Item>, bytes: seq<Byte>, fixups: seq<Fixup>, literals: seq<Value>, open: set<int>)
    requires Rep(items, bytes, fixups, literals, open)
    ensures |bytes| <= |items|
  {
  }

  lemma ChainEnds(fixups: seq<Fixup>)
    ensures Chain(fixups, -1) == {}
  {
  }
}
