/** Errors across activations: find_handler_activ picks a frame, and unwind_stack, taken up again by
    EOP_CONTINUE after every FINALLY body, gets there. */
module MooUnwind {
  import opened Options
  import opened MooAst
  import opened MooSemantics
  import opened MooMachine

  type Frames = seq<seq<Slot>>

  // ---- what should happen to an error ----

  /** What is active on a run-time stack, innermost first, read without unwinding anything. */
  datatype Marker = FinallyAt(pc: nat) | Handlers(pairs: seq<Slot>)

  function Markers(stack: seq<Slot>): seq<Marker>
    decreases |stack|
  {
    if stack == [] then []
    else
      var top, rest := stack[|stack| - 1], stack[..|stack| - 1];
      if top.FinM? then [FinallyAt(top.pc)] + Markers(rest)
      else if top.CatchM? && 2 * top.n <= |rest| then
        var base := |rest| - 2 * top.n;
        [Handlers(rest[base..])] + Markers(rest[..base])
      else Markers(rest)
  }

  /** Every handler marker has its pairs of codes and address below it. */
  predicate Sane(stack: seq<Slot>)
    decreases |stack|
  {
    stack == [] ||
    var top, rest := stack[|stack| - 1], stack[..|stack| - 1];
    if top.CatchM? then
      2 * top.n <= |rest| &&
      var base := |rest| - 2 * top.n;
      Addresses(rest[base..]) && Sane(rest[..base])
    else Sane(rest)
  }

  predicate Addresses(pairs: seq<Slot>) {
    forall i :: 0 <= i < |pairs| && i % 2 == 1 ==> pairs[i].L?
  }

  /** These FINALLY bodies in this order, then the handler in this frame at this address, if any. */
  datatype Course = Course(finallys: seq<nat>, handler: Option<(nat, nat)>)

  function TakenBy(pairs: seq<Slot>, code: Value): (r: Option<nat>)
    ensures r.Some? ==> r.value + 1 < |pairs|
  {
    if |pairs| % 2 == 0 then FirstMatch(pairs, code) else None
  }

  /** The markers of one frame in turn: a FINALLY body each, up to the first handler that takes the code. */
  function Within(marks: seq<Marker>, code: Value, frame: nat): Course
  {
    if marks == [] then Course([], None)
    else if marks[0].FinallyAt? then Then([marks[0].pc], Within(marks[1..], code, frame))
    else
      var pairs := marks[0].pairs;
      var found := TakenBy(pairs, code);
      if found.Some? && pairs[found.value + 1].L? then Course([], Some((frame, pairs[found.value + 1].pc)))
      else Within(marks[1..], code, frame)
  }

  function Then(finallys: seq<nat>, c: Course): Course {
    Course(finallys + c.finallys, c.handler)
  }

  /** All frames, innermost first, up to the first handler that takes the code. */
  function Expected(frames: Frames, code: Value): Course {
    if frames == [] then Course([], None)
    else
      var n := |frames| - 1;
      var here := Within(Markers(frames[n]), code, n);
      if here.handler.Some? then here else Then(here.finallys, Expected(frames[..n], code))
  }

  // ---- what the server does ----

  /** find_handler_activ: the innermost frame with a handler for the code. */
  function HandlerFrame(frames: Frames, code: Value): Option<nat> {
    if frames == [] then None
    else if Handled(frames[|frames| - 1], code) then Some(|frames| - 1)
    else HandlerFrame(frames[..|frames| - 1], code)
  }

  datatype Resumption = Entered(pc: nat, frames: Frames) | TaskOver | Broken

  /** unwind_stack for an error, over all frames: why is Raise when there is a handler and Uncaught when there is
      none. */
  function UnwindFrames(why: Why, pay: Pay, frames: Frames): Resumption {
    if frames == [] then TaskOver
    else
      var n := |frames| - 1;
      var c := Unwind(why, pay, frames[n], map[]);
      if c.Running? then Entered(c.pc, frames[..n] + [c.stack])
      else if c.Halted? then UnwindFrames(why, pay, frames[..n])
      else Broken
  }

  /** A FINALLY body was entered: it finds the reason and the value on the innermost stack. */
  predicate AtFinally(frames: Frames, why: Why, pay: Pay) {
    |frames| > 0 &&
    var s := frames[|frames| - 1];
    |s| >= 2 && s[|s| - 2] == WhyS(why) && s[|s| - 1] == PayS(pay)
  }

  /** The FINALLY body has run to its end and EOP_CONTINUE takes both off again. */
  function Resume(frames: Frames, why: Why, pay: Pay): Frames
    requires AtFinally(frames, why, pay)
  {
    var n := |frames| - 1;
    frames[..n] + [frames[n][..|frames[n]| - 2]]
  }

  function Entries(frames: Frames): nat {
    if frames == [] then 0 else |frames[|frames| - 1]| + Entries(frames[..|frames| - 1])
  }

  /** Unwind and let every FINALLY body run to its end: the bodies entered, and the handler. */
  function Journey(why: Why, pay: Pay, frames: Frames): Course
    decreases Entries(frames)
  {
    var r := UnwindFrames(why, pay, frames);
    if !r.Entered? then Course([], None)
    else if AtFinally(r.frames, why, pay) then
      FramesShrink(why, pay, frames);
      Then([r.pc], Journey(why, pay, Resume(r.frames, why, pay)))
    else Course([], if |r.frames| > 0 then Some((|r.frames| - 1, r.pc)) else None)
  }

  /** raise_error: the reason depends on whether there is a handler. */
  function Raised(code: Value, frames: Frames): Course {
    if HandlerFrame(frames, code).Some? then Journey(Raise, PVal(Tuple(code)), frames)
      else Journey(Uncaught, PVal(IntV(0)), frames)
  }

  lemma {:induction false} UnwindShrinks(why: Why, pay: Pay, stack: seq<Slot>)
    ensures var c := Unwind(why, pay, stack, map[]);
            c.Running? ==> |c.stack| <= |stack| + 1
    decreases |stack|
  {
    if stack != [] && (why == ExitW) == pay.PExit? {
      var top, rest := stack[|stack| - 1], stack[..|stack| - 1];
      if !top.FinM? {
        if why == Raise && top.CatchM? {
          if 2 * top.n <= |rest| && pay.v.ListV? && |pay.v.elems| > 0 {
            UnwindShrinks(why, pay, rest[..|rest| - 2 * top.n]);
          }
        } else {
          UnwindShrinks(why, pay, rest);
        }
      }
    }
  }

  lemma {:induction false} Split(below: Frames, s: seq<Slot>)
    ensures (below + [s])[..|below + [s]| - 1] == below && (below + [s])[|below|] == s
    ensures Entries(below + [s]) == |s| + Entries(below)
  {
    assert (below + [s])[..|below|] == below;
  }

  lemma {:induction false} FramesShrink(why: Why, pay: Pay, frames: Frames)
    ensures var r := UnwindFrames(why, pay, frames);
            r.Entered? && AtFinally(r.frames, why, pay) ==> Entries(Resume(r.frames, why, pay)) < Entries(frames)
    decreases |frames|
  {
    if frames != [] {
      var n := |frames| - 1;
      var c := Unwind(why, pay, frames[n], map[]);
      UnwindShrinks(why, pay, frames[n]);
      if c.Running? {
        Split(frames[..n], c.stack);
        if |c.stack| >= 2 {
          Split(frames[..n], c.stack[..|c.stack| - 2]);
        }
      } else if c.Halted? {
        FramesShrink(why, pay, frames[..n]);
      }
    }
  }

  // ---- the two agree ----

  lemma {:induction false} JourneySame(code: Value, f: Frames, g: Frames)
    requires UnwindFrames(Raise, PVal(Tuple(code)), f) == UnwindFrames(Raise, PVal(Tuple(code)), g)
    ensures Journey(Raise, PVal(Tuple(code)), f) == Journey(Raise, PVal(Tuple(code)), g)
  {
  }

  /** What the topmost entry of the innermost stack does to unwinding. */
  lemma {:induction false} TopEntry(pay: Pay, below: Frames, rest: seq<Slot>, top: Slot)
    requires pay.PVal? && pay.v.ListV? && |pay.v.elems| > 0 && Sane(rest + [top])
    ensures var frames := below + [rest + [top]];
            if top.FinM? then
              Sane(rest) && UnwindFrames(Raise, pay, frames)
                == Entered(top.pc, below + [rest + [WhyS(Raise), PayS(pay)]])
            else if top.CatchM? then
              2 * top.n <= |rest| &&
              var base := |rest| - 2 * top.n;
              var found := FirstMatch(rest[base..], pay.v.elems[0]);
              Sane(rest[..base]) &&
              if found.Some? then
                rest[base..][found.value + 1].L?
                && UnwindFrames(Raise, pay, frames)
                  == Entered(rest[base..][found.value + 1].pc, below + [rest[..base] + [V(pay.v)]])
              else UnwindFrames(Raise, pay, frames) == UnwindFrames(Raise, pay, below + [rest[..base]])
            else Sane(rest) && UnwindFrames(Raise, pay, frames) == UnwindFrames(Raise, pay, below + [rest])
  {
    hide FirstMatch, Unwind, Sane, Addresses;
    var stack := rest + [top];
    Split(below, stack);
    Split(below, rest);
    TopUnwinds(pay, rest, top);
    if top.CatchM? {
      Split(below, rest[..|rest| - 2 * top.n]);
    }
  }

  lemma {:induction false} TopUnwinds(pay: Pay, rest: seq<Slot>, top: Slot)
    requires pay.PVal? && pay.v.ListV? && |pay.v.elems| > 0 && Sane(rest + [top])
    ensures var c := Unwind(Raise, pay, rest + [top], map[]);
            if top.FinM? then Sane(rest) && c == Running(top.pc, rest + [WhyS(Raise), PayS(pay)], map[])
            else if top.CatchM? then
              2 * top.n <= |rest| &&
              var base := |rest| - 2 * top.n;
              var found := FirstMatch(rest[base..], pay.v.elems[0]);
              Sane(rest[..base]) &&
              if found.Some? then
                rest[base..][found.value + 1].L?
                && c == Running(rest[base..][found.value + 1].pc, rest[..base] + [V(pay.v)], map[])
              else c == Unwind(Raise, pay, rest[..base], map[])
            else Sane(rest) && c == Unwind(Raise, pay, rest, map[])
  {
    hide FirstMatch, Unwind, Sane;
    SaneTop(rest, top);
    UnwindTop(pay, rest, top);
    if top.CatchM? {
      var base := |rest| - 2 * top.n;
      var found := FirstMatch(rest[base..], pay.v.elems[0]);
      if found.Some? {
        FirstMatchEven(rest[base..], pay.v.elems[0]);
        assert rest[base..][found.value + 1].L?;
      }
    }
  }

  lemma {:induction false} SaneTop(rest: seq<Slot>, top: Slot)
    requires Sane(rest + [top])
    ensures if top.CatchM? then
              2 * top.n <= |rest| && Addresses(rest[|rest| - 2 * top.n..]) && Sane(rest[..|rest| - 2 * top.n])
            else Sane(rest)
  {
    var stack := rest + [top];
    assert stack[..|stack| - 1] == rest;
  }

  lemma {:induction false} UnwindTop(pay: Pay, rest: seq<Slot>, top: Slot)
    requires pay.PVal? && pay.v.ListV? && |pay.v.elems| > 0 && (top.CatchM? ==> 2 * top.n <= |rest|)
    ensures var c := Unwind(Raise, pay, rest + [top], map[]);
            if top.FinM? then c == Running(top.pc, rest + [WhyS(Raise), PayS(pay)], map[])
            else if top.CatchM? then
              var base := |rest| - 2 * top.n;
              var found := FirstMatch(rest[base..], pay.v.elems[0]);
              if found.None? then c == Unwind(Raise, pay, rest[..base], map[])
              else
                var address := rest[base..][found.value + 1];
                c == if address.L? then Running(address.pc, rest[..base] + [V(pay.v)], map[]) else Stuck
            else c == Unwind(Raise, pay, rest, map[])
  {
    hide FirstMatch;
    var stack := rest + [top];
    assert stack[..|stack| - 1] == rest;
  }

  lemma {:induction false} FirstMatchEven(pairs: seq<Slot>, code: Value)
    requires |pairs| % 2 == 0 && FirstMatch(pairs, code).Some?
    ensures FirstMatch(pairs, code).value % 2 == 0
    decreases |pairs|
  {
    if !SlotMatches(pairs[0], code) {
      FirstMatchEven(pairs[2..], code);
    }
  }

  lemma {:induction false} MarkersOf(rest: seq<Slot>, top: Slot)
    ensures Markers(rest + [top])
            == if top.FinM? then [FinallyAt(top.pc)] + Markers(rest)
               else if top.CatchM? && 2 * top.n <= |rest| then
                 [Handlers(rest[|rest| - 2 * top.n..])] + Markers(rest[..|rest| - 2 * top.n])
               else Markers(rest)
  {
    var stack := rest + [top];
    assert stack[..|stack| - 1] == rest && stack[|stack| - 1] == top;
  }

  lemma {:induction false} ExpectedOf(below: Frames, stack: seq<Slot>, code: Value)
    ensures Expected(below + [stack], code)
            == var here := Within(Markers(stack), code, |below|);
               if here.handler.Some? then here else Then(here.finallys, Expected(below, code))
  {
    Split(below, stack);
  }

  lemma {:induction false} WithinOf(m: Marker, marks: seq<Marker>, code: Value, frame: nat)
    ensures Within([m] + marks, code, frame)
            == if m.FinallyAt? then Then([m.pc], Within(marks, code, frame))
               else
                 var found := TakenBy(m.pairs, code);
                 if found.Some? && m.pairs[found.value + 1].L?
                   then Course([], Some((frame, m.pairs[found.value + 1].pc)))
                 else Within(marks, code, frame)
  {
    assert ([m] + marks)[1..] == marks;
  }

  predicate AllSane(frames: Frames) {
    forall i :: 0 <= i < |frames| ==> Sane(frames[i])
  }

  lemma {:induction false} ThenThen(a: seq<nat>, b: seq<nat>, c: Course)
    ensures Then(a, Then(b, c)) == Then(a + b, c)
    ensures Then([], c) == c
  {
    assert a + (b + c.finallys) == a + b + c.finallys;
  }

  /** Unwinding to a handler and resuming runs every FINALLY body before it exactly once, innermost first, and enters
      the first handler that takes the code. */
  lemma {:induction false} RaisedReaches(code: Value, frames: Frames)
    requires AllSane(frames)
    ensures Journey(Raise, PVal(Tuple(code)), frames) == Expected(frames, code)
    decreases Entries(frames), |frames|
  {
    if frames != [] {
      var n := |frames| - 1;
      var below, stack := frames[..n], frames[n];
      assert frames == below + [stack];
      Split(below, stack);
      if stack == [] {
        EmptyFrame(code, below);
        RaisedReaches(code, below);
      } else {
        var rest, top := stack[..|stack| - 1], stack[|stack| - 1];
        assert stack == rest + [top];
        NextEntry(code, below, rest, top);
      }
    }
  }

  lemma {:induction false} EmptyFrame(code: Value, below: Frames)
    ensures Journey(Raise, PVal(Tuple(code)), below + [[]]) == Journey(Raise, PVal(Tuple(code)), below)
        && Expected(below + [[]], code) == Expected(below, code)
  {
    Split(below, []);
    ThenThen([], [], Expected(below, code));
    assert UnwindFrames(Raise, PVal(Tuple(code)), below + [[]]) == UnwindFrames(Raise, PVal(Tuple(code)), below);
    JourneySame(code, below + [[]], below);
    ExpectedOf(below, [], code);
  }

  lemma {:induction false} NextEntry(code: Value, below: Frames, rest: seq<Slot>, top: Slot)
    requires AllSane(below + [rest + [top]])
    ensures Journey(Raise, PVal(Tuple(code)), below + [rest + [top]]) == Expected(below + [rest + [top]], code)
    decreases Entries(below + [rest + [top]]), 0
  {
    hide Journey, Expected, Within, Markers, Unwind, UnwindFrames, Sane, FirstMatch, Then;
    var pay, frames := PVal(Tuple(code)), below + [rest + [top]];
    Split(below, rest + [top]);
    assert Sane(frames[|below|]);
    SaneBelow(below, rest + [top]);
    TopEntry(pay, below, rest, top);
    MarkersOf(rest, top);
    ExpectedOf(below, rest + [top], code);
    if top.FinM? {
      var entered := below + [rest + [WhyS(Raise), PayS(pay)]];
      Split(below, rest + [WhyS(Raise), PayS(pay)]);
      assert (rest + [WhyS(Raise), PayS(pay)])[..|rest|] == rest;
      assert Resume(entered, Raise, pay) == below + [rest];
      SaneOne(below, rest);
      Split(below, rest);
      RaisedReaches(code, below + [rest]);
      JourneyFinally(code, frames, top.pc, entered);
      WithinOf(FinallyAt(top.pc), Markers(rest), code, |below|);
      ExpectedOf(below, rest, code);
      ThenParts([top.pc], Within(Markers(rest), code, |below|));
      ThenThen([top.pc], Within(Markers(rest), code, |below|).finallys, Expected(below, code));
    } else if top.CatchM? {
      var base := |rest| - 2 * top.n;
      var found := FirstMatch(rest[base..], code);
      WithinOf(Handlers(rest[base..]), Markers(rest[..base]), code, |below|);
      if found.Some? {
        JourneyHandler(code, frames, rest[base..][found.value + 1].pc, below, rest[..base]);
      } else {
        SaneOne(below, rest[..base]);
        Split(below, rest[..base]);
        JourneySame(code, frames, below + [rest[..base]]);
        RaisedReaches(code, below + [rest[..base]]);
        ExpectedOf(below, rest[..base], code);
      }
    } else {
      SaneOne(below, rest);
      Split(below, rest);
      JourneySame(code, frames, below + [rest]);
      RaisedReaches(code, below + [rest]);
      ExpectedOf(below, rest, code);
    }
  }

  lemma {:induction false} ThenParts(a: seq<nat>, c: Course)
    ensures Then(a, c).handler == c.handler && Then(a, c).finallys == a + c.finallys
  {
  }

  lemma {:induction false} SaneBelow(below: Frames, s: seq<Slot>)
    requires AllSane(below + [s])
    ensures AllSane(below) && Sane(s)
  {
    hide Sane;
    var all := below + [s];
    assert all[|below|] == s;
    forall i | 0 <= i < |below| ensures Sane(below[i]) {
      assert all[i] == below[i];
    }
  }

  lemma {:induction false} SaneOne(below: Frames, s: seq<Slot>)
    requires AllSane(below) && Sane(s)
    ensures AllSane(below + [s])
  {
  }

  lemma {:induction false} JourneyFinally(code: Value, frames: Frames, pc: nat, entered: Frames)
    requires UnwindFrames(Raise, PVal(Tuple(code)), frames) == Entered(pc, entered)
        && AtFinally(entered, Raise, PVal(Tuple(code)))
    ensures Journey(Raise, PVal(Tuple(code)), frames)
        == Then([pc], Journey(Raise, PVal(Tuple(code)), Resume(entered, Raise, PVal(Tuple(code)))))
  {
    hide UnwindFrames;
  }

  lemma {:induction false} JourneyHandler(code: Value, frames: Frames, pc: nat, below: Frames, s: seq<Slot>)
    requires UnwindFrames(Raise, PVal(Tuple(code)), frames) == Entered(pc, below + [s + [V(Tuple(code))]])
    ensures Journey(Raise, PVal(Tuple(code)), frames) == Course([], Some((|below|, pc)))
  {
    hide UnwindFrames;
    Split(below, s + [V(Tuple(code))]);
  }

  /** The frame that find_handler_activ picks is the one whose handler is entered. */
  lemma {:induction false} PickedFrame(code: Value, frames: Frames)
    requires AllSane(frames)
    ensures var h, e := HandlerFrame(frames, code), Expected(frames, code);
            h.Some? == e.handler.Some? && (h.Some? ==> h.value == e.handler.value.0)
    decreases |frames|
  {
    if frames != [] {
      var n := |frames| - 1;
      HandledWithin(frames[n], code, n);
      PickedFrame(code, frames[..n]);
    }
  }

  lemma {:induction false} HandledWithin(stack: seq<Slot>, code: Value, frame: nat)
    requires Sane(stack)
    ensures var c := Within(Markers(stack), code, frame);
            Handled(stack, code) == c.handler.Some? && (c.handler.Some? ==> c.handler.value.0 == frame)
    decreases |stack|
  {
    hide Within, Markers, FirstMatch, Sane, Handled, Addresses, TakenBy;
    if stack == [] {
      NoMarkers(code, frame);
    } else {
      var rest, top := stack[..|stack| - 1], stack[|stack| - 1];
      assert stack == rest + [top];
      MarkersOf(rest, top);
      HandledOf(rest, top, code);
      if top.FinM? {
        HandledWithin(rest, code, frame);
        WithinOf(FinallyAt(top.pc), Markers(rest), code, frame);
      } else if top.CatchM? {
        var base := |rest| - 2 * top.n;
        HandledWithin(rest[..base], code, frame);
        HandledPairs(rest[base..], Markers(rest[..base]), code, frame);
      } else {
        HandledWithin(rest, code, frame);
      }
    }
  }

  /** A handler marker takes the code or leaves it to the markers below. */
  lemma {:induction false} HandledPairs(pairs: seq<Slot>, marks: seq<Marker>, code: Value, frame: nat)
    requires |pairs| % 2 == 0 && (FirstMatch(pairs, code).Some? ==> pairs[FirstMatch(pairs, code).value + 1].L?)
    ensures var c := Within([Handlers(pairs)] + marks, code, frame);
            if FirstMatch(pairs, code).Some? then c.handler.Some? && c.handler.value.0 == frame
              else c == Within(marks, code, frame)
  {
    hide Within, FirstMatch;
    WithinOf(Handlers(pairs), marks, code, frame);
  }

  lemma {:induction false} HandledOf(rest: seq<Slot>, top: Slot, code: Value)
    requires Sane(rest + [top])
    ensures if top.CatchM? then
              2 * top.n <= |rest| &&
              var base := |rest| - 2 * top.n;
              var found := FirstMatch(rest[base..], code);
              && Sane(rest[..base]) && (found.Some? ==> rest[base..][found.value + 1].L?)
              && (Handled(rest + [top], code) <==> found.Some? || Handled(rest[..base], code))
            else Sane(rest) && Handled(rest + [top], code) == Handled(rest, code)
  {
    assert (rest + [top])[..|rest|] == rest;
    if top.CatchM? {
      var pairs := rest[|rest| - 2 * top.n..];
      if FirstMatch(pairs, code).Some? {
        FirstMatchEven(pairs, code);
      }
    }
  }

  lemma {:induction false} NoMarkers(code: Value, frame: nat)
    ensures Markers([]) == [] && Within(Markers([]), code, frame) == Course([], None) && !Handled([], code)
  {
  }

  // ---- errors without a handler ----

  /** A handler marker lies on its pairs of codes and address. */
  predicate Proper(stack: seq<Slot>) {
    forall i :: 0 <= i < |stack| && stack[i].CatchM? ==> PairsBelow(stack[..i], stack[i].n)
  }

  lemma ProperPrefix(stack: seq<Slot>, j: nat)
    requires Proper(stack) && j <= |stack|
    ensures Proper(stack[..j])
  {
    forall i | 0 <= i < j && stack[..j][i].CatchM? ensures PairsBelow(stack[..j][..i], stack[..j][i].n) {
      assert stack[..j][..i] == stack[..i];
    }
  }

  lemma {:induction false} ProperSane(stack: seq<Slot>)
    requires Proper(stack)
    ensures Sane(stack)
    decreases |stack|
  {
    if stack != [] {
      var n := |stack| - 1;
      var top, rest := stack[n], stack[..n];
      ProperPrefix(stack, n);
      if top.CatchM? {
        assert PairsBelow(stack[..n], top.n);
        var base := |rest| - 2 * top.n;
        ProperPrefix(rest, base);
        ProperSane(rest[..base]);
      } else {
        ProperSane(rest);
      }
    }
  }

  /** Every FINALLY marker of a stack, innermost first. */
  function Bodies(stack: seq<Slot>): seq<nat>
    decreases |stack|
  {
    if stack == [] then []
    else
      var top, rest := stack[|stack| - 1], stack[..|stack| - 1];
      (if top.FinM? then [top.pc] else []) + Bodies(rest)
  }

  function AllBodies(frames: Frames): seq<nat> {
    if frames == [] then [] else Bodies(frames[|frames| - 1]) + AllBodies(frames[..|frames| - 1])
  }

  lemma {:induction false} BodiesOf(rest: seq<Slot>, top: Slot)
    ensures Bodies(rest + [top]) == (if top.FinM? then [top.pc] else []) + Bodies(rest)
  {
    assert (rest + [top])[..|rest|] == rest;
  }

  /** One entry after the other is popped. */
  lemma {:induction false} AwayTop(pay: Pay, below: Frames, rest: seq<Slot>, top: Slot)
    requires pay.PVal?
    ensures UnwindFrames(Uncaught, pay, below + [rest + [top]])
            == if top.FinM? then Entered(top.pc, below + [rest + [WhyS(Uncaught), PayS(pay)]])
              else UnwindFrames(Uncaught, pay, below + [rest])
  {
    var stack := rest + [top];
    assert stack[..|stack| - 1] == rest && stack[|stack| - 1] == top;
    Split(below, stack);
    Split(below, rest);
  }

  /** Without a handler every FINALLY body is run, once, innermost first. */
  lemma {:induction false} UncaughtRunsAll(pay: Pay, frames: Frames)
    requires pay.PVal?
    ensures Journey(Uncaught, pay, frames) == Course(AllBodies(frames), None)
    decreases Entries(frames), |frames|
  {
    hide Unwind;
    if frames != [] {
      var n := |frames| - 1;
      var below, stack := frames[..n], frames[n];
      assert frames == below + [stack];
      Split(below, stack);
      if stack == [] {
        NothingToPop(pay, below);
        UncaughtRunsAll(pay, below);
        assert [] + AllBodies(below) == AllBodies(below);
      } else {
        var rest, top := stack[..|stack| - 1], stack[|stack| - 1];
        assert stack == rest + [top];
        UncaughtNext(pay, below, rest, top);
      }
    }
  }

  lemma {:induction false} NothingToPop(pay: Pay, below: Frames)
    requires pay.PVal?
    ensures UnwindFrames(Uncaught, pay, below + [[]]) == UnwindFrames(Uncaught, pay, below)
    ensures Journey(Uncaught, pay, below + [[]]) == Journey(Uncaught, pay, below)
  {
    Split(below, []);
  }

  lemma {:induction false} UncaughtNext(pay: Pay, below: Frames, rest: seq<Slot>, top: Slot)
    requires pay.PVal?
    ensures Journey(Uncaught, pay, below + [rest + [top]]) == Course(AllBodies(below + [rest + [top]]), None)
    decreases Entries(below + [rest + [top]]), 0
  {
    hide Unwind, UnwindFrames, Journey, Bodies;
    var frames := below + [rest + [top]];
    Split(below, rest + [top]);
    Split(below, rest);
    AwayTop(pay, below, rest, top);
    BodiesOf(rest, top);
    UncaughtRunsAll(pay, below + [rest]);
    if top.FinM? {
      var entered := below + [rest + [WhyS(Uncaught), PayS(pay)]];
      Split(below, rest + [WhyS(Uncaught), PayS(pay)]);
      assert (rest + [WhyS(Uncaught), PayS(pay)])[..|rest|] == rest;
      assert Resume(entered, Uncaught, pay) == below + [rest];
      UncaughtResumes(pay, frames, top.pc, entered);
      assert [top.pc] + (Bodies(rest) + AllBodies(below)) == [top.pc] + Bodies(rest) + AllBodies(below);
    } else {
      UncaughtSame(pay, frames, below + [rest]);
      assert [] + Bodies(rest) == Bodies(rest);
    }
  }

  lemma {:induction false} UncaughtSame(pay: Pay, f: Frames, g: Frames)
    requires UnwindFrames(Uncaught, pay, f) == UnwindFrames(Uncaught, pay, g)
    ensures Journey(Uncaught, pay, f) == Journey(Uncaught, pay, g)
  {
  }

  lemma {:induction false} UncaughtResumes(pay: Pay, frames: Frames, pc: nat, entered: Frames)
    requires UnwindFrames(Uncaught, pay, frames) == Entered(pc, entered) && AtFinally(entered, Uncaught, pay)
    ensures Journey(Uncaught, pay, frames) == Then([pc], Journey(Uncaught, pay, Resume(entered, Uncaught, pay)))
  {
    hide UnwindFrames;
  }

  predicate NoFinally(pairs: seq<Slot>) {
    forall i :: 0 <= i < |pairs| ==> !pairs[i].FinM?
  }

  /** Pairs hold no FINALLY markers. */
  lemma {:induction false} NoBodies(below: seq<Slot>, pairs: seq<Slot>)
    requires NoFinally(pairs)
    ensures Bodies(below + pairs) == Bodies(below)
    decreases |pairs|
  {
    if pairs == [] {
      assert below + pairs == below;
    } else {
      var n := |pairs| - 1;
      NoBodies(below, pairs[..n]);
      assert below + pairs == (below + pairs[..n]) + [pairs[n]];
      BodiesOf(below + pairs[..n], pairs[n]);
      assert [] + Bodies(below) == Bodies(below);
    }
  }

  /** When nothing on a stack takes the code, the FINALLY bodies expected are all there are. */
  lemma {:induction false} WithinAll(stack: seq<Slot>, code: Value, frame: nat)
    requires Proper(stack) && !Handled(stack, code)
    ensures Within(Markers(stack), code, frame) == Course(Bodies(stack), None)
    decreases |stack|
  {
    hide Within, Markers, FirstMatch, Sane, Handled, Proper, Bodies, TakenBy;
    if stack == [] {
      NoMarkers(code, frame);
      NoneLeft();
    } else {
      var n := |stack| - 1;
      var rest, top := stack[..n], stack[n];
      assert stack == rest + [top];
      ProperPrefix(stack, n);
      ProperSane(stack);
      MarkersOf(rest, top);
      HandledOf(rest, top, code);
      BodiesOf(rest, top);
      if top.CatchM? {
        var base := |rest| - 2 * top.n;
        ProperPrefix(rest, base);
        WithinAll(rest[..base], code, frame);
        SkipPairs(rest, top, code, frame);
      } else {
        WithinAll(rest, code, frame);
        if top.FinM? {
          WithinOf(FinallyAt(top.pc), Markers(rest), code, frame);
        } else {
          assert [] + Bodies(rest) == Bodies(rest);
        }
      }
    }
  }

  lemma NoneLeft()
    ensures Bodies([]) == []
  {
  }

  /** A handler marker whose pairs do not take the code. */
  lemma {:induction false} SkipPairs(rest: seq<Slot>, top: Slot, code: Value, frame: nat)
    requires Proper(rest + [top]) && top.CatchM? && 2 * top.n <= |rest|
        && FirstMatch(rest[|rest| - 2 * top.n..], code).None?
    ensures Within([Handlers(rest[|rest| - 2 * top.n..])] + Markers(rest[..|rest| - 2 * top.n]), code, frame)
            == Within(Markers(rest[..|rest| - 2 * top.n]), code, frame)
    ensures [] + Bodies(rest) == Bodies(rest[..|rest| - 2 * top.n])
  {
    hide Within, Markers, FirstMatch, Proper, Bodies;
    var base := |rest| - 2 * top.n;
    assert (rest + [top])[..|rest|] == rest;
    ProperPairs(rest + [top]);
    WithinOf(Handlers(rest[base..]), Markers(rest[..base]), code, frame);
    NoBodies(rest[..base], rest[base..]);
    assert rest[..base] + rest[base..] == rest;
    assert [] + Bodies(rest) == Bodies(rest);
  }

  lemma ProperPairs(stack: seq<Slot>)
    requires Proper(stack) && stack != [] && stack[|stack| - 1].CatchM?
    ensures var rest, k := stack[..|stack| - 1], stack[|stack| - 1].n;
            2 * k <= |rest| && NoFinally(rest[|rest| - 2 * k..])
  {
    var n := |stack| - 1;
    assert PairsBelow(stack[..n], stack[n].n);
  }

  predicate AllProper(frames: Frames) {
    forall i :: 0 <= i < |frames| ==> Proper(frames[i])
  }

  lemma {:induction false} ExpectedAll(code: Value, frames: Frames)
    requires AllProper(frames) && HandlerFrame(frames, code).None?
    ensures Expected(frames, code) == Course(AllBodies(frames), None)
    decreases |frames|
  {
    hide Within, Markers, Bodies, Handled, Proper;
    if frames != [] {
      var n := |frames| - 1;
      assert Proper(frames[n]);
      WithinAll(frames[n], code, n);
      ExpectedAll(code, frames[..n]);
    }
  }

  /** An error runs exactly the FINALLY bodies between it and its handler, innermost first and once each, and enters
      that handler; one without a handler runs all of them. */
  lemma ErrorsTakeTheirCourse(code: Value, frames: Frames)
    requires AllProper(frames)
    ensures Raised(code, frames) == Expected(frames, code)
  {
    hide Journey, Expected, AllBodies, Proper, Sane, HandlerFrame;
    if HandlerFrame(frames, code).Some? {
      forall i | 0 <= i < |frames| ensures Sane(frames[i]) {
        assert Proper(frames[i]);
        ProperSane(frames[i]);
      }
      RaisedReaches(code, frames);
    } else {
      UncaughtRunsAll(PVal(IntV(0)), frames);
      ExpectedAll(code, frames);
    }
  }

  // ---- the activation stack of execute.cc ----

  class Task {
    /** The run-time stacks of activ_stack[0..top_activ_stack], innermost last. */
    var frames: Frames
    var pc: nat

    constructor (frames: Frames, pc: nat)
      ensures this.frames == frames && this.pc == pc
    {
      this.frames, this.pc := frames, pc;
    }

    method FindHandlerActiv(code: Value) returns (frame: int)
      ensures frame == (if HandlerFrame(frames, code).Some? then HandlerFrame(frames, code).value else -1)
      ensures frame >= 0 ==> frame < |frames| && Handled(frames[frame], code)
      ensures forall j :: frame < j < |frames| ==> !Handled(frames[j], code)
    {
      frame := |frames| - 1;
      assert frames[..|frames|] == frames;
      while frame >= 0
        invariant -1 <= frame < |frames| && HandlerFrame(frames, code) == HandlerFrame(frames[..frame + 1], code)
        invariant forall j :: frame < j < |frames| ==> !Handled(frames[j], code)
      {
        if Handled(frames[frame], code) {
          return;
        }
        assert frames[..frame + 1][..frame] == frames[..frame];
        frame := frame - 1;
      }
    }

    /** unwind_stack for an error, with or without a handler: true if no activation is left. */
    method UnwindStack(why: Why, pay: Pay) returns (over: bool)
      requires (why == Raise || why == Uncaught) && UnwindFrames(why, pay, frames) != Broken
      modifies this
      ensures over == old(UnwindFrames(why, pay, frames)).TaskOver?
      ensures !over ==> Entered(pc, frames) == old(UnwindFrames(why, pay, frames))
      ensures over ==> frames == []
    {
      ghost var goal := UnwindFrames(why, pay, frames);
      while frames != []
        invariant UnwindFrames(why, pay, frames) == goal
        decreases |frames|
      {
        var n := |frames| - 1;
        var c := Unwind(why, pay, frames[n], map[]);
        if c.Running? {
          frames, pc := frames[..n] + [c.stack], c.pc;
          return false;
        }
        frames := frames[..n];
      }
      return true;
    }
  }
}
