/** stmt_to_code: how wide operands have to be, and the final vector, in which labels are moved by the bytes
    that wider operands add in front of their targets. */
module MooRelocation {
  import opened Options
  import opened MooAst
  import opened MooCode
  import opened MooItems
  import opened MooLabels
  import opened MooFixups
  import opened MooExprRuns
  import opened MooStmtRuns
  import opened MooGenerator

  // ---- widths ----

  /** How many bytes an operand of each kind takes. */
  datatype Sizes = Sizes(literal: nat, slot: nat, lab: nat, stack: nat)

  predicate Width124(n: nat) {
    n == 1 || n == 2 || n == 4
  }

  predicate ValidSizes(z: Sizes) {
    Width124(z.literal) && Width124(z.slot) && Width124(z.lab) && Width124(z.stack)
  }

  function SizeOf(z: Sizes, kind: Kind): nat {
    match kind
    case LiteralK => z.literal
    case VarK => z.slot
    case LabelK => z.lab
    case StackK => z.stack
  }

  /** How many values fit. */
  function Cap(n: nat): nat {
    if n == 1 then 0x100 else if n == 2 then 0x1_0000 else 0x1_0000_0000
  }

  function RefSize(max: nat): (n: nat)
    ensures Width124(n)
  {
    if max <= 256 then 1 else if max <= 256 * 256 then 2 else 4
  }

  /** A reference not above the maximum fits the width chosen for the maximum, unless it is 256 or 65536
      itself and the maximum too. */
  lemma RefFits(v: nat, max: nat)
    requires v <= max < 0x1_0000_0000
    ensures v < Cap(RefSize(max)) <==> !(v == max && (max == 0x100 || max == 0x1_0000))
  {
  }

  // ---- bytes of an operand ----

  /** The operand, most significant byte first; what does not fit is cut off. */
  function Encode(v: nat, n: nat): (r: seq<Byte>)
    requires Width124(n)
    ensures |r| == n
  {
    if n == 1 then [v % 256]
    else if n == 2 then [v / 256 % 256, v % 256]
    else [v / 0x100_0000 % 256, v / 0x1_0000 % 256, v / 256 % 256, v % 256]
  }

  /** READ_BYTES of execute.cc. */
  function ReadBytes(vector: seq<Byte>, p: nat, n: nat): nat
    requires Width124(n) && p + n <= |vector|
  {
    if n == 1 then vector[p]
    else if n == 2 then (vector[p] as int) * 256 + vector[p + 1]
    else
      (vector[p] as int) * 0x100_0000 + (vector[p + 1] as int) * 0x1_0000
      + (vector[p + 2] as int) * 256 + vector[p + 3]
  }

  lemma ReadBack(vector: seq<Byte>, p: nat, n: nat, v: nat)
    requires Width124(n) && p + n <= |vector| && vector[p..p + n] == Encode(v, n)
    ensures ReadBytes(vector, p, n) == v % Cap(n)
  {
    var e := Encode(v, n);
    assert forall i :: 0 <= i < n ==> vector[p + i] == vector[p..p + n][i] == e[i];
    if n == 4 {
      FourBytes(v);
    } else if n == 2 {
      assert vector[p] == e[0] && vector[p + 1] == e[1];
      TwoBytes(v);
    }
  }

  lemma TwoBytes(v: nat)
    ensures v / 256 % 256 * 256 + v % 256 == v % 0x1_0000
  {
  }

  lemma FourBytes(v: nat)
    ensures v / 0x100_0000 % 256 * 0x100_0000 + v / 0x1_0000 % 256 * 0x1_0000 + v / 256 % 256 * 256 + v % 256
        == v % 0x1_0000_0000
  {
    var high := v / 0x1_0000;
    ThreeUp(v);
    TwoBytes(high);
    TwoBytes(v);
    HighAndLow(v);
  }

  lemma ThreeUp(v: nat)
    ensures v / 0x1_0000 / 256 == v / 0x100_0000
  {
  }

  lemma HighAndLow(v: nat)
    ensures v / 0x1_0000 % 0x1_0000 * 0x1_0000 + v % 0x1_0000 == v % 0x1_0000_0000
  {
    var high, low := v / 0x1_0000, v % 0x1_0000;
    var q, r := high / 0x1_0000, high % 0x1_0000;
    assert v == high * 0x1_0000 + low && high == q * 0x1_0000 + r;
    assert v == q * 0x1_0000_0000 + (r * 0x1_0000 + low);
  }

  // ---- positions in the vector ----

  function WidthOf(z: Sizes, i: Item): nat {
    match i
    case Raw(_) => 1
    case Arg(o) => SizeOf(z, KindOf(o))
  }

  /** Where the p-th item starts in the vector. */
  function NewPos(items: seq<Item>, z: Sizes, p: nat): nat
    requires p <= |items|
  {
    if p == 0 then 0 else NewPos(items, z, p - 1) + WidthOf(z, items[p - 1])
  }

  /** The bytes that operands of one kind add in front of the p-th item. */
  function Added(items: seq<Item>, z: Sizes, p: nat, kind: Kind): int
    requires p <= |items|
  {
    Count(items, p, kind) * (SizeOf(z, kind) - 1)
  }

  lemma {:induction false} NewPosAdds(items: seq<Item>, z: Sizes, p: nat)
    requires p <= |items|
    ensures NewPos(items, z, p)
            == p + Added(items, z, p, LiteralK) + Added(items, z, p, VarK) + Added(items, z, p, LabelK)
              + Added(items, z, p, StackK)
    decreases p
  {
    if p > 0 {
      NewPosAdds(items, z, p - 1);
      AddedStep(items, z, p, LiteralK);
      AddedStep(items, z, p, VarK);
      AddedStep(items, z, p, LabelK);
      AddedStep(items, z, p, StackK);
    }
  }

  lemma AddedStep(items: seq<Item>, z: Sizes, p: nat, kind: Kind)
    requires 0 < p <= |items|
    ensures Added(items, z, p, kind) == Added(items, z, p - 1, kind) + if IsKind(items[p - 1], kind)
        then SizeOf(z, kind) - 1 else 0
  {
    var n, w := Count(items, p - 1, kind), SizeOf(z, kind) - 1;
    assert (n + 1) * w == n * w + w;
  }

  lemma {:induction false} NewPosMonotone(items: seq<Item>, z: Sizes, p: nat, r: nat)
    requires ValidSizes(z) && p <= r <= |items|
    ensures NewPos(items, z, p) + (r - p) <= NewPos(items, z, r)
    decreases r
  {
    if p < r {
      NewPosMonotone(items, z, p, r - 1);
    }
  }

  lemma Positive(n: nat, w: nat)
    ensures n * w >= 0 && (n > 0 && w > 0 ==> n * w > 0)
  {
  }

  /** What stmt_to_code makes of a label fixup. */
  function MovedLabel(f: Fixup, z: Sizes): int {
    f.value + f.prev.literals * (z.literal - 1) + f.prev.varRefs * (z.slot - 1) + f.prev.labels * (z.lab - 1)
      + f.prev.stacks * (z.stack - 1)
  }

  /** The moved label is short by the bytes of stack operands, which are never counted. */
  lemma MovedShort(items: seq<Item>, f: Fixup, at: nat, z: Sizes)
    requires at <= |items| && Points(items, f, at)
    ensures MovedLabel(f, z) == NewPos(items, z, at) - Added(items, z, at, StackK)
  {
    NewPosAdds(items, z, at);
  }

  /** A label is right exactly if stack operands take one byte or none stands before its target. */
  lemma LabelIsRight(items: seq<Item>, f: Fixup, at: nat, z: Sizes)
    requires at <= |items| && Points(items, f, at) && ValidSizes(z)
    ensures MovedLabel(f, z) == NewPos(items, z, at) <==> z.stack == 1 || Count(items, at, StackK) == 0
  {
    hide Count, NewPos;
    MovedShort(items, f, at, z);
    var n, w := Count(items, at, StackK), z.stack - 1;
    if n > 0 && w > 0 {
      Positive(n, w);
    }
  }

  /** add_pseudo_label: a scattering target's 0 or 1 in place of a label. */
  function PseudoLabel(pc: nat, value: nat): Fixup {
    Fixup(LabelK, pc, value, Counts(0, 0, 0, 0), -1)
  }

  /** Relocation tells pseudo labels and real ones apart as before: the first are not moved, and the second, which are
      never 0 or 1, do not become it. */
  lemma PseudoLabelsStayApart(items: seq<Item>, pc: nat, value: nat, f: Fixup, at: nat, z: Sizes)
    requires ValidSizes(z) && Points(items, f, at)
    ensures MovedLabel(PseudoLabel(pc, value), z) == value
    ensures MovedLabel(f, z) >= at
  {
    var c := f.prev;
    NotNegative(c.literals, z.literal - 1);
    NotNegative(c.varRefs, z.slot - 1);
    NotNegative(c.labels, z.lab - 1);
    NotNegative(c.stacks, z.stack - 1);
  }

  lemma NotNegative(n: nat, w: nat)
    ensures n * w >= 0
  {
  }

  /** The size that stmt_to_code computes and allocates. */
  function ComputedSize(n: nat, counts: Counts, z: Sizes): int {
    n + counts.literals * (z.literal - 1) + counts.varRefs * (z.slot - 1) + counts.labels * (z.lab - 1)
  }

  /** It is the size of the vector under the same condition. */
  lemma SizeIsRight(items: seq<Item>, z: Sizes)
    requires ValidSizes(z)
    ensures ComputedSize(|items|, CountsAt(items, |items|), z) == NewPos(items, z, |items|)
            <==> z.stack == 1 || Count(items, |items|, StackK) == 0
  {
    hide Count, NewPos;
    NewPosAdds(items, z, |items|);
    var n, w := Count(items, |items|, StackK), z.stack - 1;
    if n > 0 && w > 0 {
      Positive(n, w);
    }
  }

  // ---- the vector ----

  /** The operand that the vector holds for the p-th item, as far as its width allows. */
  predicate Holds(items: seq<Item>, literals: seq<Value>, z: Sizes, vector: seq<Byte>, p: nat)
    requires p < |items| && ValidSizes(z)
  {
    var n := NewPos(items, z, p);
    match items[p]
    case Raw(b) => n < |vector| && vector[n] == b
    case Arg(o) =>
      var w := SizeOf(z, KindOf(o));
      && n + w <= |vector|
      && match o
         case VarRef(slot) => ReadBytes(vector, n, w) == slot % Cap(w)
         case StackRef(depth) => ReadBytes(vector, n, w) == depth % Cap(w)
         case LiteralRef(v) => exists i ::
             0 <= i < |literals| && literals[i] == v && ReadBytes(vector, n, w) == i % Cap(w)
         case LabelRef(at) => at <= |items|
                              && ReadBytes(vector, n, w)
                                == (NewPos(items, z, at) - Added(items, z, at, StackK)) % Cap(w)
  }

  predicate AllHold(items: seq<Item>, literals: seq<Value>, z: Sizes, vector: seq<Byte>, p: nat)
    requires p <= |items| && ValidSizes(z)
  {
    |vector| == NewPos(items, z, p) && forall j :: 0 <= j < p ==> Holds(items, literals, z, vector, j)
  }

  lemma HoldsMore(items: seq<Item>, literals: seq<Value>, z: Sizes, vector: seq<Byte>, more: seq<Byte>, p: nat)
    requires p < |items| && ValidSizes(z) && Holds(items, literals, z, vector, p)
    ensures Holds(items, literals, z, vector + more, p)
  {
    if items[p].Arg? {
      var n, w := NewPos(items, z, p), SizeOf(z, KindOf(items[p].operand));
      assert ReadBytes(vector + more, n, w) == ReadBytes(vector, n, w);
    }
  }

  /** The value written for a fixup. */
  function ValueOf(f: Fixup, z: Sizes): int {
    if f.kind == LabelK then MovedLabel(f, z) else f.value
  }

  lemma {:induction false} HoldsNext(items: seq<Item>, bytes: seq<Byte>, fixups: seq<Fixup>, literals: seq<Value>,
      z: Sizes, vector: seq<Byte>, p: nat, more: seq<Byte>)
    requires Rep(items, bytes, fixups, literals, {}) && p < |bytes| == |items| && ValidSizes(z)
    requires AllHold(items, literals, z, vector, p)
    requires if items[p].Raw? then more == [bytes[p]]
             else Operands(items, p) < |fixups| && ValueOf(fixups[Operands(items, p)], z) >= 0
                  && more == Encode(ValueOf(fixups[Operands(items, p)], z), SizeOf(z, fixups[Operands(items, p)].kind))
    ensures AllHold(items, literals, z, vector + more, p + 1)
  {
    hide Holds, Rep, Encode, ReadBytes, MovedLabel;
    forall j | 0 <= j < p ensures Holds(items, literals, z, vector + more, j) {
      HoldsMore(items, literals, z, vector, more, j);
    }
    HoldsHere(items, bytes, fixups, literals, z, vector, p, more);
  }

  lemma {:induction false} HoldsHere(items: seq<Item>, bytes: seq<Byte>, fixups: seq<Fixup>, literals: seq<Value>,
      z: Sizes, vector: seq<Byte>, p: nat, more: seq<Byte>)
    requires Rep(items, bytes, fixups, literals, {}) && p < |bytes| == |items| && ValidSizes(z)
        && |vector| == NewPos(items, z, p)
    requires if items[p].Raw? then more == [bytes[p]]
             else Operands(items, p) < |fixups| && ValueOf(fixups[Operands(items, p)], z) >= 0
                  && more == Encode(ValueOf(fixups[Operands(items, p)], z), SizeOf(z, fixups[Operands(items, p)].kind))
    ensures Holds(items, literals, z, vector + more, p) && |more| == WidthOf(z, items[p])
  {
    hide Encode, ReadBytes, MovedLabel;
    assert Written(items, p, bytes, fixups, literals, {});
    if items[p].Arg? {
      var f, o, n := fixups[Operands(items, p)], items[p].operand, |vector|;
      var w := SizeOf(z, KindOf(o));
      assert (vector + more)[n..n + w] == more;
      ReadBack(vector + more, n, w, ValueOf(f, z));
      match o
      case LabelRef(at) => MovedShort(items, f, at, z);
      case LiteralRef(v) => assert literals[f.value] == v;
      case _ =>
    }
  }

  lemma ValueNatural(items: seq<Item>, bytes: seq<Byte>, fixups: seq<Fixup>, literals: seq<Value>, z: Sizes, p: nat)
    requires Rep(items, bytes, fixups, literals, {}) && p < |bytes| && ValidSizes(z) && items[p].Arg?
    ensures Operands(items, p) < |fixups| && fixups[Operands(items, p)].pc == p
        && ValueOf(fixups[Operands(items, p)], z) >= 0
    ensures fixups[Operands(items, p)].kind == KindOf(items[p].operand)
  {
    assert Written(items, p, bytes, fixups, literals, {});
    var f := fixups[Operands(items, p)];
    Positive(f.prev.literals, z.literal - 1);
    Positive(f.prev.varRefs, z.slot - 1);
    Positive(f.prev.labels, z.lab - 1);
    Positive(f.prev.stacks, z.stack - 1);
  }

  lemma RawHasNoFixup(items: seq<Item>, bytes: seq<Byte>, fixups: seq<Fixup>, literals: seq<Value>, p: nat)
    requires Rep(items, bytes, fixups, literals, {}) && p < |bytes| && items[p].Raw? && Operands(items, p) < |fixups|
    ensures fixups[Operands(items, p)].pc != p
  {
    var q := Operands(items, p);
    FixupPlace(items, p, |bytes|, q);
    var r :| p <= r < |bytes| && items[r].Arg? && Operands(items, r) == q;
    assert Written(items, r, bytes, fixups, literals, {});
  }

  /** The q-th operand stands somewhere at or after p. */
  lemma {:induction false} FixupPlace(items: seq<Item>, p: nat, n: nat, q: nat)
    requires p <= n <= |items| && Operands(items, p) == q < Operands(items, n)
    ensures exists r :: p <= r < n && items[r].Arg? && Operands(items, r) == q
    decreases n - p
  {
    if items[p].Arg? {
      assert Operands(items, p) == q;
    } else {
      FixupPlace(items, p + 1, n, q);
    }
  }

  lemma RepBytes(items: seq<Item>, bytes: seq<Byte>, fixups: seq<Fixup>, literals: seq<Value>)
    requires Rep(items, bytes, fixups, literals, {}) && |bytes| == |items|
    ensures |fixups| == Operands(items, |items|)
  {
  }

  /** The loop of stmt_to_code that writes the vector. */
  method Relocate(bytes: seq<Byte>, fixups: seq<Fixup>, z: Sizes, ghost items: seq<Item>, ghost literals: seq<Value>)
    returns (vector: seq<Byte>)
    requires Rep(items, bytes, fixups, literals, {}) && |bytes| == |items| && ValidSizes(z)
    ensures AllHold(items, literals, z, vector, |items|)
  {
    hide Rep, Holds, Encode, MovedLabel, ValueOf;
    vector := [];
    var fixI := 0;
    RepBytes(items, bytes, fixups, literals);
    for oldI := 0 to |bytes|
      invariant fixI == Operands(items, oldI) && AllHold(items, literals, z, vector, oldI)
    {
      ghost var before := vector;
      OperandsMonotone(items, oldI, |items|);
      if items[oldI].Arg? {
        ValueNatural(items, bytes, fixups, literals, z, oldI);
      } else if fixI < |fixups| {
        RawHasNoFixup(items, bytes, fixups, literals, oldI);
      }
      if fixI < |fixups| && fixups[fixI].pc == oldI {
        var more := Encode(ValueOf(fixups[fixI], z), SizeOf(z, fixups[fixI].kind));
        HoldsNext(items, bytes, fixups, literals, z, vector, oldI, more);
        vector := vector + more;
        fixI := fixI + 1;
      } else {
        HoldsNext(items, bytes, fixups, literals, z, vector, oldI, [bytes[oldI]]);
        vector := vector + [bytes[oldI]];
      }
    }
  }

  // ---- operands of a program ----

  /** The label operands among the items of a program are all inside it. */
  predicate Targets(items: seq<Item>) {
    forall p :: 0 <= p < |items| && IsKind(items[p], LabelK) ==> items[p].operand.at < |items|
  }

  lemma {:induction false} FlatTargets(code: seq<Instr>, program: seq<Instr>, hi: nat)
    requires forall i :: 0 <= i < |code| ==> Pos(program, LabelOf(code[i])) < hi
    ensures forall p :: 0 <= p < |Flat(code, program)| && IsKind(Flat(code, program)[p], LabelK)
                        ==> Flat(code, program)[p].operand.at < hi
    decreases |code|
  {
    if code != [] {
      var first, rest := Shape(code[0], Pos(program, LabelOf(code[0]))), Flat(code[1..], program);
      ShapeTargets(code[0], Pos(program, LabelOf(code[0])), hi);
      assert forall i :: 0 <= i < |code[1..]| ==> code[1..][i] == code[i + 1];
      FlatTargets(code[1..], program, hi);
      hide Shape, Flat;
      forall p | 0 <= p < |first + rest|
          && IsKind((first + rest)[p], LabelK) ensures (first + rest)[p].operand.at < hi {
        if p >= |first| {
          assert (first + rest)[p] == rest[p - |first|];
        }
      }
      FlatIs(code, program);
    }
  }

  lemma FlatIs(code: seq<Instr>, program: seq<Instr>)
    requires code != []
    ensures Flat(code, program) == Shape(code[0], Pos(program, LabelOf(code[0]))) + Flat(code[1..], program)
  {
  }

  lemma ShapeTargets(i: Instr, at: nat, hi: nat)
    requires at < hi
    ensures var shape := Shape(i, at); forall p ::
        0 <= p < |shape| && IsKind(shape[p], LabelK) ==> shape[p].operand.at < hi
  {
  }

  lemma {:induction false} PosStrict(code: seq<Instr>, j: nat, k: nat)
    requires j < k <= |code|
    ensures Pos(code, j) < Pos(code, k)
    decreases k
  {
    ShapeWidth(code[0], 0);
    if j > 0 {
      PosStrict(code[1..], j - 1, k - 1);
    }
  }

  lemma ProgramTargets(s: Stmts)
    requires WellScoped(s, [])
    ensures Targets(Flat(Program(s), Program(s)))
  {
    hide Flat, Program;
    var program := Program(s);
    var items := Flat(program, program);
    FlatSize(program, program);
    LabelsNameInstructions(s);
    forall i | 0 <= i < |program| ensures Pos(program, LabelOf(program[i])) < |items| {
      PosStrict(program, LabelOf(program[i]), |program|);
    }
    FlatTargets(program, program, |items|);
  }

  /** How many entries the stack operands among the items name at most. */
  predicate Depths(items: seq<Item>, deep: nat) {
    forall p :: 0 <= p < |items| && IsKind(items[p], StackK) ==> items[p].operand.depth <= deep
  }

  lemma {:induction false} FlatDepths(code: seq<Instr>, program: seq<Instr>, deep: nat)
    requires forall i :: 0 <= i < |code| ==> DepthOf(code[i]) <= deep
    ensures Depths(Flat(code, program), deep)
    decreases |code|
  {
    if code != [] {
      var first, rest := Shape(code[0], Pos(program, LabelOf(code[0]))), Flat(code[1..], program);
      ShapeDepths(code[0], Pos(program, LabelOf(code[0])), deep);
      assert forall i :: 0 <= i < |code[1..]| ==> code[1..][i] == code[i + 1];
      FlatDepths(code[1..], program, deep);
      hide Shape, Flat;
      DepthsPlus(first, rest, deep);
      FlatIs(code, program);
    }
  }

  lemma DepthsPlus(a: seq<Item>, b: seq<Item>, deep: nat)
    requires Depths(a, deep) && Depths(b, deep)
    ensures Depths(a + b, deep)
  {
    forall p | 0 <= p < |a + b| && IsKind((a + b)[p], StackK) ensures (a + b)[p].operand.depth <= deep {
      if p >= |a| {
        assert (a + b)[p] == b[p - |a|];
      }
    }
  }

  lemma ShapeDepths(i: Instr, at: nat, deep: nat)
    requires DepthOf(i) <= deep
    ensures Depths(Shape(i, at), deep)
  {
  }

  lemma ProgramDepths(s: Stmts)
    requires WellScoped(s, [])
    ensures Depths(Flat(Program(s), Program(s)), MaxStack(s))
  {
    hide Flat, Program, Depths;
    LabelsNameInstructions(s);
    FlatDepths(Program(s), Program(s), MaxStack(s));
  }

  /** A stack operand is kept exactly if it is not the recorded maximum itself while that is 256 or 65536. */
  predicate DepthsKept(items: seq<Item>, z: Sizes, max: nat) {
    max < 0x1_0000_0000 ==>
      forall p :: 0 <= p < |items| && IsKind(items[p], StackK) ==>
        (items[p].operand.depth < Cap(z.stack) <==>
         !(items[p].operand.depth == max && (max == 0x100 || max == 0x1_0000)))
  }

  lemma DepthsAreKept(items: seq<Item>, z: Sizes, max: nat)
    requires Depths(items, max) && z.stack == RefSize(max)
    ensures DepthsKept(items, z, max)
  {
    hide Cap, RefSize;
    if max < 0x1_0000_0000 {
      forall p | 0 <= p < |items| && IsKind(items[p], StackK)
        ensures items[p].operand.depth < Cap(z.stack)
            <==> !(items[p].operand.depth == max && (max == 0x100 || max == 0x1_0000))
      {
        RefFits(items[p].operand.depth, max);
      }
    }
  }

  // ---- stmt_to_code ----

  datatype Bytecodes = Bytecodes(vector: seq<Byte>, size: int, sizes: Sizes, maxStack: nat)

  /** What the vector holds can be read back as it was meant. */
  predicate Exact(items: seq<Item>, literals: seq<Value>, z: Sizes, vector: seq<Byte>, p: nat)
    requires p < |items| && ValidSizes(z)
  {
    var n := NewPos(items, z, p);
    match items[p]
    case Raw(b) => n < |vector| && vector[n] == b
    case Arg(o) =>
      var w := SizeOf(z, KindOf(o));
      && n + w <= |vector|
      && match o
         case VarRef(slot) => ReadBytes(vector, n, w) == slot
         case StackRef(depth) => ReadBytes(vector, n, w) == depth
         case LiteralRef(v) => ReadBytes(vector, n, w) < |literals| && literals[ReadBytes(vector, n, w)] == v
         case LabelRef(at) => at <= |items| && ReadBytes(vector, n, w) == NewPos(items, z, at)
  }

  /** The operand fits the width of its kind; labels and literals do so by themselves. */
  predicate OperandFits(z: Sizes, i: Item) {
    match i
    case Arg(VarRef(slot)) => slot < Cap(z.slot)
    case Arg(StackRef(depth)) => depth < Cap(z.stack)
    case _ => true
  }

  /** With one-byte stack operands the vector is read back exactly where operands fit. */
  lemma {:induction false} ReadsBack(items: seq<Item>, literals: seq<Value>, z: Sizes, vector: seq<Byte>, p: nat)
    requires ValidSizes(z) && AllHold(items, literals, z, vector, |items|) && Targets(items) && p < |items|
    requires z.stack == 1 || Count(items, |items|, StackK) == 0
    requires |literals| <= Cap(z.literal) && |vector| <= Cap(z.lab)
    ensures Exact(items, literals, z, vector, p) <==> OperandFits(z, items[p])
  {
    hide ReadBytes, Count, Added, NewPos, Encode, AllHold;
    HoldsAt(items, literals, z, vector, p);
    match items[p]
    case Arg(LabelRef(at)) =>
      assert IsKind(items[p], LabelK);
      NewPosMonotone(items, z, at, |items|);
      NoStackBytes(items, z, at);
    case _ =>
  }

  lemma HoldsAt(items: seq<Item>, literals: seq<Value>, z: Sizes, vector: seq<Byte>, p: nat)
    requires ValidSizes(z) && AllHold(items, literals, z, vector, |items|) && p < |items|
    ensures Holds(items, literals, z, vector, p) && |vector| == NewPos(items, z, |items|)
  {
    HoldSize(items, literals, z, vector);
  }

  lemma {:induction false} CountUpTo(items: seq<Item>, p: nat, q: nat, kind: Kind)
    requires p <= q <= |items|
    ensures Count(items, p, kind) <= Count(items, q, kind)
    decreases q
  {
    if p < q {
      CountUpTo(items, p, q - 1, kind);
    }
  }

  lemma NoStackBytes(items: seq<Item>, z: Sizes, p: nat)
    requires p <= |items| && (z.stack == 1 || Count(items, |items|, StackK) == 0)
    ensures Added(items, z, p, StackK) == 0
  {
    hide Count;
    CountUpTo(items, p, |items|, StackK);
    if z.stack == 1 {
      assert Count(items, p, StackK) * 0 == 0;
    } else {
      assert 0 * (z.stack - 1) == 0;
    }
  }

  /** The widths stmt_to_code chooses. */
  function ChooseSizes(n: nat, counts: Counts, literals: nat, maxLiteral: nat, maxVarRef: nat, totalVarRefs: nat,
      maxStack: nat): (z: Sizes)
    ensures ValidSizes(z) && z.stack == RefSize(maxStack)
  {
    var z1 := Sizes(RefSize(Max(maxLiteral, literals)), RefSize(Max(maxVarRef, totalVarRefs)), 1, RefSize(maxStack));
    var size := ComputedSize(n, counts, z1);
    z1.(lab := if size <= 256 then 1 else if size + counts.labels <= 256 * 256 then 2 else 4)
  }

  /** They hold every literal and every label, and every variable but two. */
  lemma SizesSuffice(n: nat, counts: Counts, literals: nat, maxLiteral: nat, maxVarRef: nat, totalVarRefs: nat,
      maxStack: nat)
    ensures var z := ChooseSizes(n, counts, literals, maxLiteral, maxVarRef, totalVarRefs, maxStack);
            && (literals <= 0x1_0000_0000 ==> literals <= Cap(z.literal))
            && (ComputedSize(n, counts, z) <= 0x1_0000_0000 ==> ComputedSize(n, counts, z) <= Cap(z.lab))
  {
    var z := ChooseSizes(n, counts, literals, maxLiteral, maxVarRef, totalVarRefs, maxStack);
    var z1 := z.(lab := 1);
    Positive(counts.labels, z.lab - 1);
    assert ComputedSize(n, counts, z) == ComputedSize(n, counts, z1) + counts.labels * (z.lab - 1);
  }

  /** What the width of slots is chosen by. */
  function SlotLimit(items: seq<Item>): nat {
    Max(MaxSlot(items, |items|), Count(items, |items|, VarK))
  }

  /** A slot is kept exactly if it is not 256 or 65536 while nothing calls for wider operands. */
  predicate SlotsKept(items: seq<Item>, z: Sizes) {
    SlotLimit(items) < 0x1_0000_0000 ==>
      forall p :: 0 <= p < |items| && IsKind(items[p], VarK) ==>
        (items[p].operand.slot < Cap(z.slot) <==>
          !(items[p].operand.slot == SlotLimit(items) && (SlotLimit(items) == 0x100 || SlotLimit(items) == 0x1_0000)))
  }

  lemma SlotsAreKept(items: seq<Item>, z: Sizes)
    requires z.slot == RefSize(SlotLimit(items))
    ensures SlotsKept(items, z)
  {
    hide Cap, RefSize;
    if SlotLimit(items) < 0x1_0000_0000 {
      forall p | 0 <= p < |items| && IsKind(items[p], VarK)
        ensures items[p].operand.slot < Cap(z.slot) <==>
          !(items[p].operand.slot == SlotLimit(items) && (SlotLimit(items) == 0x100 || SlotLimit(items) == 0x1_0000))
      {
        SlotsBelow(items, |items|, p);
        RefFits(items[p].operand.slot, SlotLimit(items));
      }
    }
  }

  lemma SlotWidth(items: seq<Item>, n: nat, counts: Counts, literals: nat, maxLiteral: nat, maxVarRef: nat,
      totalVarRefs: nat, maxStack: nat)
    requires VarsAre(items, |items|, maxVarRef, totalVarRefs)
    ensures ChooseSizes(n, counts, literals, maxLiteral, maxVarRef, totalVarRefs, maxStack).slot
        == RefSize(SlotLimit(items))
  {
  }

  /** The program, compiled and relocated.  The vector is as long as its computed size unless two- or
      four-byte stack operands occur, and it always holds the items of the program. */
  method StmtToCode(s: Stmts) returns (bc: Bytecodes, literals: seq<Value>)
    requires WellScoped(s, [])
    ensures var items := Flat(Program(s), Program(s));
            && bc.maxStack == MaxStack(s) && ValidSizes(bc.sizes) && bc.sizes.stack == RefSize(MaxStack(s))
              && Targets(items)
            && AllHold(items, literals, bc.sizes, bc.vector, |items|) && SlotsKept(items, bc.sizes)
            && DepthsKept(items, bc.sizes, MaxStack(s))
            && (|bc.vector| == bc.size <==> bc.sizes.stack == 1 || Count(items, |items|, StackK) == 0)
    ensures |literals| <= 0x1_0000_0000 ==> |literals| <= Cap(bc.sizes.literal)
    ensures bc.size <= 0x1_0000_0000 ==> bc.size <= Cap(bc.sizes.lab)
  {
    hide *;
    ghost var program := Program(s);
    ghost var items := Flat(program, program);
    ProgramParts(s);
    var g := new Generator(program);
    NoLoops(g.items, program, g.fixups);
    g.GenerateStmts(s, 0, []);
    g.Finish(SizeStmts(s));
    Closed(g.fixups, g.open, g.loops);
    literals := g.literals;
    var z := ChooseSizes(|g.bytes|, g.counts, |g.literals|, g.maxLiteral, g.maxVarRef, g.totalVarRefs, g.maxStack);
    var size := ComputedSize(|g.bytes|, g.counts, z);
    var vector := Relocate(g.bytes, g.fixups, z, items, literals);
    bc := Bytecodes(vector, size, z, g.maxStack);
    SizesSuffice(|g.bytes|, g.counts, |g.literals|, g.maxLiteral, g.maxVarRef, g.totalVarRefs, g.maxStack);
    SlotWidth(items, |g.bytes|, g.counts, |g.literals|, g.maxLiteral, g.maxVarRef, g.totalVarRefs, g.maxStack);
    SlotsAreKept(items, z);
    ProgramDepths(s);
    DepthsAreKept(items, z, MaxStack(s));
    SizeIsRight(items, z);
    HoldSize(items, literals, z, vector);
    ProgramTargets(s);
  }

  lemma ProgramParts(s: Stmts)
    requires WellScoped(s, [])
    ensures Ids([]) == [] && At(Program(s), 0, CodeStmts(s, 0, 0, [])) && |Program(s)| == SizeStmts(s) + 1
    ensures Program(s)[SizeStmts(s)] == Done && MaxStack(s) == Peak(0, 0, DepthStmts(s))
  {
    assert Ids([]) == [];
    AtSplit(Program(s), 0, CodeStmts(s, 0, 0, []), [Done]);
  }

  lemma NoLoops(items: seq<Item>, program: seq<Instr>, fixups: seq<Fixup>)
    ensures LoopsOk(items, program, fixups, [], [])
  {
  }

  lemma Closed(f: seq<Fixup>, open: set<int>, loops: seq<LoopState>)
    requires Progress([], {}, [], f, open, loops, {})
    ensures open == {}
  {
  }

  lemma HoldSize(items: seq<Item>, literals: seq<Value>, z: Sizes, vector: seq<Byte>)
    requires ValidSizes(z) && AllHold(items, literals, z, vector, |items|)
    ensures |vector| == NewPos(items, z, |items|)
  {
  }

  // ---- where the widths do not suffice ----

  /** An expression that needs n + 1 entries of the stack. */
  function Deep(n: nat): Expr {
    if n == 0 then Lit(IntV(1)) else Bin(AddOp, Lit(IntV(1)), Deep(n - 1))
  }

  lemma {:induction false} DeepDepth(n: nat)
    ensures DepthExpr(Deep(n)) == n + 1
    decreases n
  {
    if n > 0 {
      DeepDepth(n - 1);
    }
  }

  lemma {:induction false} CountHas(items: seq<Item>, q: nat, p: nat, kind: Kind)
    requires q < p <= |items| && IsKind(items[q], kind)
    ensures Count(items, p, kind) > 0
    decreases p
  {
    if q < p - 1 {
      CountHas(items, q, p - 1, kind);
    }
  }

  /** while (1) break; endwhile, followed by the expression. */
  function BreakThen(e: Expr): Stmts {
    SCons(WhileS(None, Lit(IntV(1)), SCons(BreakS(None), SNil)), SCons(ExprS(e), SNil))
  }

  lemma BreakThenCode(e: Expr)
    ensures WellScoped(BreakThen(e), []) && |Program(BreakThen(e))| > 2 && Program(BreakThen(e))[2] == Exit(0, 4)
  {
    hide CodeExpr, SizeExpr, DepthExpr;
    var s, w := BreakThen(e), BreakThen(e).head;
    assert Ids([]) == [];
    assert WellScopedStmt(BreakS(None), [None]) && WellScoped(w.body, [None]) && [] + [w.id] == [None];
    assert WellScopedStmt(w, []) && WellScoped(s.tail, []);
    var l := WhileLoop(w, 0, 0);
    assert CodeExpr(Lit(IntV(1)), 0) == [NumI(1)] by { LitCode(); }
    assert SizeExpr(Lit(IntV(1))) == 1 && DepthExpr(Lit(IntV(1))) == 1 by { LitCode(); }
    IdsAppend([], l);
    assert Target([l], None) == l;
    assert [] + [l] == [l];
    assert CodeStmts(w.body, 2, 0, [l]) == [Exit(0, 4)];
    var front := [NumI(1)] + [WhileI(4)] + [Exit(0, 4)] + [Jump(0)];
    assert CodeStmt(w, 0, 0, []) == front;
    assert Program(s) == front + CodeStmts(s.tail, SizeStmt(w), 0, []) + [Done];
    assert front[2] == Exit(0, 4);
  }

  lemma BreakThenDepth(e: Expr)
    ensures MaxStack(BreakThen(e)) == DepthExpr(e)
  {
    var s := BreakThen(e);
    assert DepthStmts(s.head.body) == 0;
    assert DepthStmt(s.head) == 1;
    assert DepthStmts(s.tail) == DepthExpr(e);
  }

  lemma LitCode()
    ensures CodeExpr(Lit(IntV(1)), 0) == [NumI(1)] && SizeExpr(Lit(IntV(1))) == 1 && DepthExpr(Lit(IntV(1))) == 1
  {
  }

  lemma ExitShape(at: nat)
    ensures LabelOf(Exit(0, 4)) == 4 && |Shape(Exit(0, 4), at)| == 4 && IsKind(Shape(Exit(0, 4), at)[2], StackK)
  {
  }

  /** A program whose vector does not fit the memory allocated for it: its stack operands take two bytes
      each and are counted as one. */
  lemma DeepStacksOverrun(n: nat)
    requires n >= 256
    ensures var s := BreakThen(Deep(n));
            && WellScoped(s, []) && RefSize(MaxStack(s)) > 1
            && var items := Flat(Program(s), Program(s)); Count(items, |items|, StackK) > 0
  {
    hide Program, Flat, Deep, BreakThen, WellScoped;
    var s := BreakThen(Deep(n));
    DeepDepth(n);
    BreakThenCode(Deep(n));
    BreakThenDepth(Deep(n));
    var program := Program(s);
    var items := Flat(program, program);
    FlatAt(program, program, 2);
    var p, shape := Pos(program, 2), Shape(Exit(0, 4), Pos(program, 4));
    ExitShape(Pos(program, 4));
    assert items[p + 2] == items[p..p + |shape|][2];
    CountHas(items, p + 2, |items|, StackK);
  }

  /** The program that is nothing but the variable in slot 256. */
  const READ_SLOT_256: Stmts := SCons(ExprS(Id(256)), SNil)

  lemma ReadSlot256Items()
    ensures WellScoped(READ_SLOT_256, [])
    ensures var items := Flat(Program(READ_SLOT_256), Program(READ_SLOT_256));
            && |items| == 4 && items[1] == Arg(VarRef(256)) && !items[0].Arg? && !items[2].Arg? && !items[3].Arg?
  {
    var code := [Push(256), Pop, Done];
    assert CodeExpr(Id(256), 0) == [Push(256)];
    assert CodeStmts(SNil, 2, 0, []) == [];
    assert Program(READ_SLOT_256) == code;
    assert code[1..] == [Pop, Done] && [Pop, Done][1..] == [Done] && [Done][1..] == [];
    FlatIs(code, code);
    FlatIs([Pop, Done], code);
    FlatIs([Done], code);
    assert Flat([], code) == [];
    assert Shape(Push(256), Pos(code, LabelOf(Push(256)))) == [Raw(OP_PUSH + NUM_READY_VARS), Arg(VarRef(256))];
  }

  /** Its slot is written as slot 0. */
  lemma Slot256IsCut(z: Sizes)
    requires SlotsKept(Flat(Program(READ_SLOT_256), Program(READ_SLOT_256)), z)
    ensures WellScoped(READ_SLOT_256, [])
    ensures var items := Flat(Program(READ_SLOT_256), Program(READ_SLOT_256));
            && |items| > 1 && items[1] == Arg(VarRef(256)) && !OperandFits(z, items[1])
  {
    hide Flat, Program, WellScoped;
    ReadSlot256Items();
    var items := Flat(Program(READ_SLOT_256), Program(READ_SLOT_256));
    assert MaxSlot(items, 1) == 0 && MaxSlot(items, 2) == 256 && MaxSlot(items, 3) == 256 && MaxSlot(items, 4) == 256;
    assert Count(items, 1, VarK) == 0 && Count(items, 2, VarK) == 1 && Count(items, 3, VarK) == 1
        && Count(items, 4, VarK) == 1;
  }

  /** Counted loops inside one another, and a continue in the innermost. */
  function Nest(n: nat): Stmts {
    if n == 0 then SCons(ContinueS(None), SNil) else SCons(RangeS(0, Lit(IntV(1)), Lit(IntV(2)), Nest(n - 1)), SNil)
  }

  lemma {:induction false} NestScoped(n: nat, ids: seq<Option<nat>>)
    requires n > 0 || ids != []
    ensures WellScoped(Nest(n), ids)
    decreases n
  {
    if n > 0 {
      NestScoped(n - 1, ids + [Some(0)]);
    }
  }

  lemma {:induction false} NestDepth(n: nat)
    ensures DepthStmts(Nest(n)) == 2 * n
    decreases n
  {
    assert DepthExpr(Lit(IntV(1))) == 1 && DepthExpr(Lit(IntV(2))) == 1;
    if n > 0 {
      NestDepth(n - 1);
    }
  }

  /** The continue goes back to the top of its loop, under the bounds of all of them. */
  lemma {:induction false} NestExit(n: nat, pc: nat, d: nat, loops: seq<Loop>) returns (i: nat)
    requires WellScoped(Nest(n), Ids(loops)) && (n == 0 ==> loops != [] && loops[|loops| - 1].topDepth == d)
    ensures var code := CodeStmts(Nest(n), pc, d, loops); i < |code| && code[i].Exit? && code[i].depth == d + 2 * n
    decreases n
  {
    hide *;
    NestIs(n);
    var s := Nest(n);
    StmtsParts(Idle(), s, pc, d, loops, map[], 0);
    if n == 0 {
      i := 0;
      ContinueCode(pc, d, loops);
    } else {
      RangeParts(Idle(), s.head, pc, d, loops, map[], 0);
      var l := RangeLoop(s.head, pc, d);
      LoopDepth(s.head, pc, d, loops);
      var body := CodeStmts(Nest(n - 1), l.top + 1, d + 2, loops + [l]);
      var k := NestExit(n - 1, l.top + 1, d + 2, loops + [l]);
      var front := CodeExpr(s.head.from, pc) + CodeExpr(s.head.to, pc + SizeExpr(s.head.from))
                   + [ForRange(s.head.slot, pc + SizeStmt(s.head))];
      i := |front| + k;
      assert CodeStmts(s, pc, d, loops)[i] == body[k];
    }
  }

  lemma NestIs(n: nat)
    ensures Nest(n).SCons? && Nest(n).tail == SNil
    ensures n == 0 ==> Nest(n).head == ContinueS(None)
    ensures n > 0 ==> Nest(n).head.RangeS? && Nest(n).head.body == Nest(n - 1)
  {
  }

  lemma LoopDepth(s: Stmt, pc: nat, d: nat, loops: seq<Loop>)
    requires s.RangeS?
    ensures var l := RangeLoop(s, pc, d); l.topDepth == d + 2 && (loops + [l])[|loops + [l]| - 1] == l
  {
  }

  lemma ContinueCode(pc: nat, d: nat, loops: seq<Loop>)
    requires WellScopedStmt(ContinueS(None), Ids(loops)) && loops != [] && loops[|loops| - 1].topDepth == d
    ensures CodeStmt(ContinueS(None), pc, d, loops) == [Exit(d, loops[|loops| - 1].top)]
  {
  }

  lemma LoopsNeed256()
    ensures WellScoped(Nest(128), []) && MaxStack(Nest(128)) == 256
  {
    hide *;
    NestScoped(128, []);
    NestDepth(128);
    MaxIs(Nest(128));
  }

  lemma MaxIs(s: Stmts)
    ensures MaxStack(s) == DepthStmts(s)
  {
  }

  /** 128 loops need 256 entries; the continue's operand is 256 and does not fit the one byte that is chosen for it. */
  lemma Depth256IsCut(s: Stmts, z: Sizes) returns (p: nat)
    requires s == Nest(128) && WellScoped(s, []) && DepthsKept(Flat(Program(s), Program(s)), z, MaxStack(s))
    ensures MaxStack(s) == 256 && RefSize(256) == 1
    ensures var items := Flat(Program(s), Program(s));
        p < |items| && items[p] == Arg(StackRef(256)) && !OperandFits(z, items[p])
  {
    hide *;
    LoopsNeed256();
    NoIds();
    var i := NestExit(128, 0, 0, []);
    var program := Program(s);
    ProgramStarts(s, i);
    var items := Flat(program, program);
    FlatAt(program, program, i);
    var at := Pos(program, LabelOf(program[i]));
    ExitItems(program[i], at);
    p := Pos(program, i) + 2;
    assert items[p] == items[Pos(program, i)..Pos(program, i) + |Shape(program[i], at)|][2];
    NotFitting(items, z, p);
  }

  lemma NoIds()
    ensures Ids([]) == []
  {
  }

  lemma ProgramStarts(s: Stmts, i: nat)
    requires WellScoped(s, []) && Ids([]) == [] && i < |CodeStmts(s, 0, 0, [])|
    ensures i < |Program(s)| && Program(s)[i] == CodeStmts(s, 0, 0, [])[i]
  {
    hide CodeStmts;
  }

  lemma ExitItems(i: Instr, at: nat)
    requires i.Exit? && i.depth == 256
    ensures |Shape(i, at)| == 4 && Shape(i, at)[2] == Arg(StackRef(256))
  {
  }

  lemma NotFitting(items: seq<Item>, z: Sizes, p: nat)
    requires DepthsKept(items, z, 256) && p < |items| && items[p] == Arg(StackRef(256))
    ensures !OperandFits(z, items[p]) && RefSize(256) == 1
  {
  }
}
