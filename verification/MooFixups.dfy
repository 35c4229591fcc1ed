/** The fixups of code_gen.cc: what they say about the items written so far, and the chains along which
    forward labels are patched. */
module MooFixups {
  import opened MooAst
  import opened MooItems

  datatype Kind = LiteralK | LabelK | VarK | StackK

  function KindOf(o: Operand): Kind {
    match o
    case LiteralRef(_) => LiteralK
    case LabelRef(_) => LabelK
    case VarRef(_) => VarK
    case StackRef(_) => StackK
  }

  predicate IsKind(i: Item, kind: Kind) {
    i.Arg? && KindOf(i.operand) == kind
  }

  /** How many of the first p items are operands of the kind. */
  function Count(items: seq<Item>, p: nat, kind: Kind): nat
    requires p <= |items|
  {
    if p == 0 then 0 else Count(items, p - 1, kind) + if IsKind(items[p - 1], kind) then 1 else 0
  }

  /** How many of the first p items are operands. */
  function Operands(items: seq<Item>, p: nat): nat
    requires p <= |items|
  {
    if p == 0 then 0 else Operands(items, p - 1) + if items[p - 1].Arg? then 1 else 0
  }

  datatype Counts = Counts(literals: nat, varRefs: nat, labels: nat, stacks: nat)

  /** The counters of the generator after p items; the one for stack operands never moves. */
  function CountsAt(items: seq<Item>, p: nat): Counts
    requires p <= |items|
  {
    Counts(Count(items, p, LiteralK), Count(items, p, VarK), Count(items, p, LabelK), 0)
  }

  datatype Fixup = Fixup(kind: Kind, pc: nat, value: nat, prev: Counts, next: int)

  predicate Points(items: seq<Item>, f: Fixup, at: nat) {
    at <= |items| && f.value == at && f.prev == CountsAt(items, at)
  }

  /** The fixup is right for the operand; a label may still be open. */
  predicate Fixes(items: seq<Item>, literals: seq<Value>, f: Fixup, o: Operand, isOpen: bool) {
    && f.kind == KindOf(o)
    && match o
       case LiteralRef(v) => f.value < |literals| && literals[f.value] == v
       case VarRef(slot) => f.value == slot
       case StackRef(depth) => f.value == depth
       case LabelRef(at) => isOpen || Points(items, f, at)
  }

  /** The p-th item has been written. */
  predicate Written(items: seq<Item>, p: nat, bytes: seq<Byte>, fixups: seq<Fixup>, literals: seq<Value>,
      open: set<int>)
    requires p < |items| && p < |bytes|
  {
    if items[p].Raw? then bytes[p] == items[p].b
    else
      var q := Operands(items, p);
      q < |fixups| && fixups[q].pc == p && -1 <= fixups[q].next < q
      && Fixes(items, literals, fixups[q], items[p].operand, q in open)
  }

  /** Bytes and fixups hold the first |bytes| items, up to the labels that are open. */
  predicate Rep(items: seq<Item>, bytes: seq<Byte>, fixups: seq<Fixup>, literals: seq<Value>, open: set<int>) {
    && |bytes| <= |items| && |fixups| == Operands(items, |bytes|)
    && forall p :: 0 <= p < |bytes| ==> Written(items, p, bytes, fixups, literals, open)
  }

  lemma {:induction false} OperandsMonotone(items: seq<Item>, p: nat, r: nat)
    requires p <= r <= |items|
    ensures Operands(items, p) <= Operands(items, r)
    ensures p < r && items[p].Arg? ==> Operands(items, p) < Operands(items, r)
    decreases r
  {
    if p < r {
      OperandsMonotone(items, p, r - 1);
    }
  }

  lemma RepStart(items: seq<Item>)
    ensures Rep(items, [], [], [], {}) && CountsAt(items, 0) == Counts(0, 0, 0, 0)
  {
  }

  /** emit_byte. */
  lemma RepRaw(items: seq<Item>, bytes: seq<Byte>, fixups: seq<Fixup>, literals: seq<Value>, open: set<int>, b: Byte)
    requires Rep(items, bytes, fixups, literals, open) && |bytes| < |items| && items[|bytes|] == Raw(b)
    ensures Rep(items, bytes + [b], fixups, literals, open)
    ensures CountsAt(items, |bytes| + 1) == CountsAt(items, |bytes|)
  {
    hide Fixes;
    var now := bytes + [b];
    forall p | 0 <= p < |now| ensures Written(items, p, now, fixups, literals, open) {
      if p < |bytes| {
        assert Written(items, p, bytes, fixups, literals, open);
      }
    }
  }

  function Bump(c: Counts, kind: Kind): Counts {
    match kind
    case LiteralK => c.(literals := c.literals + 1)
    case VarK => c.(varRefs := c.varRefs + 1)
    case LabelK => c.(labels := c.labels + 1)
    case StackK => c
  }

  lemma FixesMore(items: seq<Item>, literals: seq<Value>, more: seq<Value>, f: Fixup, o: Operand, a: bool, b: bool)
    requires Fixes(items, literals, f, o, a) && (a ==> b)
    ensures Fixes(items, literals + more, f, o, b)
  {
  }

  /** add_known_fixup, and the placeholder it emits. */
  lemma RepArg(items: seq<Item>, bytes: seq<Byte>, fixups: seq<Fixup>, literals: seq<Value>, open: set<int>, f: Fixup,
      more: seq<Value>, open': set<int>)
    requires Rep(items, bytes, fixups, literals, open) && |bytes| < |items| && items[|bytes|].Arg?
    requires f.pc == |bytes| && -1 <= f.next < |fixups| && open <= open'
    requires Fixes(items, literals + more, f, items[|bytes|].operand, |fixups| in open')
    ensures Rep(items, bytes + [0], fixups + [f], literals + more, open')
    ensures CountsAt(items, |bytes| + 1) == Bump(CountsAt(items, |bytes|), KindOf(items[|bytes|].operand))
  {
    hide Fixes;
    var now, all := bytes + [0], fixups + [f];
    forall p | 0 <= p < |now| ensures Written(items, p, now, all, literals + more, open') {
      if p < |bytes| {
        assert Written(items, p, bytes, fixups, literals, open);
        if items[p].Arg? {
          var q := Operands(items, p);
          FixesMore(items, literals, more, fixups[q], items[p].operand, q in open, q in open');
        }
      }
    }
  }

  /** One turn of the loop of define_label. */
  lemma RepResolve(items: seq<Item>, bytes: seq<Byte>, fixups: seq<Fixup>, literals: seq<Value>, open: set<int>, q: nat,
      f: Fixup)
    requires Rep(items, bytes, fixups, literals, open) && q < |fixups| && f.pc == fixups[q].pc
        && f.next == fixups[q].next
    requires f.kind == fixups[q].kind && f.pc < |items| && items[f.pc].Arg? && items[f.pc].operand.LabelRef?
    requires Points(items, f, items[f.pc].operand.at)
    ensures Rep(items, bytes, fixups[q := f], literals, open - {q})
  {
    var now := fixups[q := f];
    forall p | 0 <= p < |bytes| ensures Written(items, p, bytes, now, literals, open - {q}) {
      assert Written(items, p, bytes, fixups, literals, open);
    }
  }

  // ---- chains ----

  /** The labels linked from here are all for the place t. */
  predicate Aims(items: seq<Item>, fixups: seq<Fixup>, first: int, t: nat)
    decreases first
  {
    first == -1 ||
    (&& 0 <= first < |fixups| && fixups[first].kind == LabelK && fixups[first].pc < |items|
      && items[fixups[first].pc] == Arg(LabelRef(t))
     && -1 <= fixups[first].next < first && Aims(items, fixups, fixups[first].next, t))
  }

  function Chain(fixups: seq<Fixup>, first: int): set<int>
    decreases first
  {
    if 0 <= first < |fixups| then
      {first} + if fixups[first].next < first then Chain(fixups, fixups[first].next) else {}
    else {}
  }

  /** Fixups are added and their values change, but nothing moves. */
  predicate Kept(before: seq<Fixup>, after: seq<Fixup>) {
    |before| <= |after| &&
    forall q :: 0 <= q < |before| ==>
      after[q].kind == before[q].kind && after[q].pc == before[q].pc && after[q].next == before[q].next
  }

  lemma KeptTrans(a: seq<Fixup>, b: seq<Fixup>, c: seq<Fixup>)
    requires Kept(a, b) && Kept(b, c)
    ensures Kept(a, c)
  {
  }

  lemma {:induction false} AimsKept(items: seq<Item>, before: seq<Fixup>, after: seq<Fixup>, first: int, t: nat)
    requires Kept(before, after) && Aims(items, before, first, t)
    ensures Aims(items, after, first, t) && Chain(after, first) == Chain(before, first)
    decreases first
  {
    if first >= 0 {
      AimsKept(items, before, after, before[first].next, t);
    }
  }
}
