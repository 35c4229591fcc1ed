/** What the compiler promises: the machine does what the program means, within the stack that the
    generator asked for, with or without the fused IMM;POP and PUT;POP. */
module MooCompiler {
  import opened MooAst
  import opened MooSemantics
  import opened MooCode
  import opened MooMachine
  import opened MooExprRuns
  import opened MooStmtRuns

  /** How a program that has ended leaves the machine. */
  function Ended(r: (Outcome, Env)): Config {
    Halted(match r.0
           case Raised(_) => Aborted
           case Returned(v) => Finished(v)
           case _ => Finished(IntV(0)), r.1)
  }

  function Start(env: Env): Config {
    Running(0, [], env)
  }

  function Loaded(w: World, s: Stmts, fused: bool): Machine
    requires WellScoped(s, [])
  {
    Machine(w, Program(s), fused)
  }

  lemma LeaveProgram(r: (Outcome, Env))
    requires Scoped(r.0, [])
    ensures Leave(r.0, [], [], r.1) == Ended(r) && (r.0.Raised? || r.0.Returned?)
  {
    assert Ids([]) == [];
  }

  /** The plain machine. */
  lemma PlainRuns(w: World, s: Stmts, env: Env, fuel: nat) returns (n: nat)
    requires WellScoped(s, [])
    ensures var m, r := Loaded(w, s, false), Exec(w, s, env, fuel);
            if r.0 == Timeout then n >= fuel && Lasts(m, Start(env), n, MaxStack(s))
            else Runs(m, Start(env), n, Ended(r), MaxStack(s))
  {
    hide Exec, CodeStmts, DepthStmts, Unwind, Runs, Step, At;
    var m, r, bound, end := Loaded(w, s, false), Exec(w, s, env, fuel), MaxStack(s), SizeStmts(s);
    assert Ids([]) == [];
    ProgramAt(s);
    n := StmtsRun(m, s, 0, [], [], env, fuel, bound);
    if r.0 == Normal {
      DoesNormal(m, Start(env), n, r.1, fuel, end, [], [], bound);
      StepReturn0(m, Done, end, [], r.1, bound);
      LeaveReturned(IntV(0), [], [], r.1);
      LeaveProgram((Returned(IntV(0)), r.1));
      RunsOn(m, Start(env), n, Running(end, [], r.1), 1, Unwind(ReturnW, PVal(IntV(0)), [], r.1), bound);
      n := n + 1;
    } else if r.0 != Timeout {
      DoesLeave(m, Start(env), n, r, fuel, end, [], [], bound);
      LeaveProgram(r);
    }
  }

  lemma ProgramAt(s: Stmts)
    requires WellScoped(s, [])
    ensures Ids([]) == [] && At(Program(s), 0, CodeStmts(s, 0, 0, [])) && At(Program(s), SizeStmts(s), [Done])
  {
    assert Ids([]) == [];
    AtSplit(Program(s), 0, CodeStmts(s, 0, 0, []), [Done]);
  }

  // ---- fusion ----

  /** A step of the fused machine is one or two of the plain one. */
  lemma FusedStep(m: Machine, c: Config)
    requires c.Running? && !m.fused
    ensures var c' := Step(m.(fused := true), c);
            c' == Step(m, c) || (Step(m, c).Running? && c' == Step(m, Step(m, c)))
  {
    if c.pc < |m.code| {
      match m.code[c.pc]
      case Imm(v) =>
        assert (c.stack + [V(v)])[..|c.stack|] == c.stack;
      case _ =>
    }
  }

  /** What the plain machine reaches when it halts, the fused one reaches. */
  lemma {:induction false} FusedHalts(m: Machine, c: Config, n: nat, d: Config, bound: nat) returns (k: nat)
    requires !m.fused && Runs(m, c, n, d, bound) && d.Halted?
    ensures Runs(m.(fused := true), c, k, d, bound)
    decreases n
  {
    hide Step;
    k := 0;
    if n > 0 {
      var c' := Step(m.(fused := true), c);
      FusedStep(m, c);
      if c' == Step(m, c) {
        k := FusedHalts(m, c', n - 1, d, bound);
      } else {
        k := FusedHalts(m, c', n - 2, d, bound);
      }
      k := k + 1;
    }
  }

  /** While the plain machine runs, the fused one runs at least half as long. */
  lemma {:induction false} FusedLasts(m: Machine, c: Config, n: nat, d: Config, bound: nat) returns (k: nat, d': Config)
    requires !m.fused && Runs(m, c, n, d, bound) && d.Running?
    ensures 2 * k + 1 >= n && d'.Running? && Runs(m.(fused := true), c, k, d', bound)
    decreases n
  {
    hide Step;
    k, d' := 0, c;
    if n > 1 {
      var c' := Step(m.(fused := true), c);
      FusedStep(m, c);
      if c' == Step(m, c) {
        k, d' := FusedLasts(m, c', n - 1, d, bound);
      } else {
        k, d' := FusedLasts(m, c', n - 2, d, bound);
      }
      k := k + 1;
    }
  }

  /** Either machine. */
  lemma ProgramRuns(w: World, s: Stmts, env: Env, fuel: nat, fused: bool) returns (n: nat)
    requires WellScoped(s, [])
    ensures var m, r := Loaded(w, s, fused), Exec(w, s, env, fuel);
            if r.0 == Timeout then 2 * n + 1 >= fuel && Lasts(m, Start(env), n, MaxStack(s))
            else Runs(m, Start(env), n, Ended(r), MaxStack(s))
  {
    hide Exec, Runs, CodeStmts, DepthStmts, Program;
    n := PlainRuns(w, s, env, fuel);
    if fused {
      var m, r := Loaded(w, s, false), Exec(w, s, env, fuel);
      assert Loaded(w, s, true) == m.(fused := true);
      if r.0 == Timeout {
        var d: Config :| d.Running? && Runs(m, Start(env), n, d, MaxStack(s));
        var d';
        n, d' := FusedLasts(m, Start(env), n, d, MaxStack(s));
      } else {
        n := FusedHalts(m, Start(env), n, Ended(r), MaxStack(s));
      }
    }
  }

  // ---- whole runs ----

  /** The machine after n steps; a machine that is not running stays as it is. */
  function StateAfter(m: Machine, c: Config, n: nat): Config
    decreases n
  {
    if n == 0 || !c.Running? then c else StateAfter(m, Step(m, c), n - 1)
  }

  lemma {:induction false} AfterRuns(m: Machine, c: Config, n: nat, d: Config, bound: nat, k: nat)
    requires Runs(m, c, n, d, bound) && (k <= n || !d.Running?)
    ensures Fits(StateAfter(m, c, k), bound) && (StateAfter(m, c, k).Running? || StateAfter(m, c, k) == d)
    ensures k >= n && !d.Running? ==> StateAfter(m, c, k) == d
    ensures k < n ==> StateAfter(m, c, k).Running?
    decreases n
  {
    hide Step;
    if n > 0 && k > 0 {
      AfterRuns(m, Step(m, c), n - 1, d, bound, k - 1);
    }
  }

  /** No run of compiled code overflows the stack that the generator asked for, underflows it, or finds
      on it anything other than what the opcode expects, whatever the number of steps. */
  lemma StackIsSafe(w: World, s: Stmts, env: Env, fused: bool, k: nat)
    requires WellScoped(s, [])
    ensures var c := StateAfter(Loaded(w, s, fused), Start(env), k);
            c != Stuck && (c.Running? ==> |c.stack| <= MaxStack(s))
  {
    hide Exec, Runs, Program, CodeStmts, DepthStmts, StateAfter, Loaded;
    var m, fuel := Loaded(w, s, fused), 2 * k + 2;
    var n := ProgramRuns(w, s, env, fuel, fused);
    var r := Exec(w, s, env, fuel);
    if r.0 == Timeout {
      var d: Config :| d.Running? && Runs(m, Start(env), n, d, MaxStack(s));
      AfterRuns(m, Start(env), n, d, MaxStack(s), k);
    } else {
      AfterRuns(m, Start(env), n, Ended(r), MaxStack(s), k);
    }
  }

  ghost predicate Halts(m: Machine, c: Config, d: Config) {
    d.Halted? && exists n: nat :: StateAfter(m, c, n) == d
  }

  ghost predicate Means(w: World, s: Stmts, env: Env, d: Config) {
    exists fuel: nat :: Exec(w, s, env, fuel).0 != Timeout && Ended(Exec(w, s, env, fuel)) == d
  }

  lemma {:induction false} HaltsOnce(m: Machine, c: Config, n: nat, k: nat)
    requires n <= k && !StateAfter(m, c, n).Running?
    ensures StateAfter(m, c, k) == StateAfter(m, c, n)
    decreases n
  {
    hide Step;
    if c.Running? {
      HaltsOnce(m, Step(m, c), n - 1, k - 1);
    }
  }

  /** The machine halts with a result and variables exactly when the program means them. */
  lemma CompilerIsCorrect(w: World, s: Stmts, env: Env, fused: bool, d: Config)
    requires WellScoped(s, [])
    ensures Halts(Loaded(w, s, fused), Start(env), d) <==> Means(w, s, env, d)
  {
    hide Exec, Runs, Program, CodeStmts, DepthStmts, StateAfter, Loaded;
    var m, c := Loaded(w, s, fused), Start(env);
    if Means(w, s, env, d) {
      var fuel: nat :| Exec(w, s, env, fuel).0 != Timeout && Ended(Exec(w, s, env, fuel)) == d;
      var n := ProgramRuns(w, s, env, fuel, fused);
      AfterRuns(m, c, n, d, MaxStack(s), n);
    }
    if Halts(m, c, d) {
      var k: nat :| StateAfter(m, c, k) == d;
      var fuel := 2 * k + 2;
      var n := ProgramRuns(w, s, env, fuel, fused);
      var r := Exec(w, s, env, fuel);
      if r.0 == Timeout {
        var e: Config :| e.Running? && Runs(m, c, n, e, MaxStack(s));
        AfterRuns(m, c, n, e, MaxStack(s), k);
        assert false;
      } else {
        AfterRuns(m, c, n, Ended(r), MaxStack(s), n);
        if n <= k { HaltsOnce(m, c, n, k); } else { HaltsOnce(m, c, k, n); }
      }
    }
  }

  /** The fused opcodes change nothing that can be seen. */
  lemma FusionIsInvisible(w: World, s: Stmts, env: Env, d: Config)
    requires WellScoped(s, [])
    ensures Halts(Loaded(w, s, true), Start(env), d) <==> Halts(Loaded(w, s, false), Start(env), d)
  {
    CompilerIsCorrect(w, s, env, true, d);
    CompilerIsCorrect(w, s, env, false, d);
  }
}
