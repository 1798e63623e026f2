/** A program and the same program with one more operation run alike until control leaves the
    shorter one, where it fails. */
module Extension {
  import opened Il
  import opened Machine
  import opened OptimizerProof

  /** Control stands just past the last of `n` operations. */
  predicate JustPast(n: nat, o: Outcome) { o.Run? && o.st.pc == n }

  lemma {:induction false} LongerJump(prog: seq<Op>, x: Op, st: State, target: int)
    ensures var o, e := Jump(prog, st, target), Jump(prog + [x], st, target);
            o == e || (JustPast(|prog|, e) && o == Failed(Leaves(e.st)))
  {}

  lemma {:induction false} LongerComplex(m: Machine, prog: seq<Op>, x: Op, st: State, i: Instr)
    requires i.FComplex? && x.code != ForIncr
    ensures var o, e := StepComplex(m, prog, st, i), StepComplex(m, prog + [x], st, i);
            o == e || (JustPast(|prog|, e) && o == Failed(Leaves(e.st)))
  {
    hide ComplexVars, Escapes, StepForIncr, ComplexReal, ComplexImag;
  }

  lemma {:induction false} LongerInstr(m: Machine, prog: seq<Op>, x: Op, st: State, i: Instr)
    requires x.code != ForIncr
    ensures var o, e := StepInstr(m, prog, st, i), StepInstr(m, prog + [x], st, i);
            o == e || (JustPast(|prog|, e) && o == Failed(Leaves(e.st)))
  {
    hide Eval, BinValue, Write, Paint, StepLoad, StepStore, StepBin, StepNumeric, StepForInit, StepForCheck,
        StepForIncr, StepMinMul,
      StepGray, StepGrayStack, StepPlot, StepColor, StepPset, StepFusedPush, StepFusedAssign, StepComplex,
          TopNumbers, Jump;
    match i
    case IJmp(target) => LongerJump(prog, x, st, target);
    case IJz(target) => if |st.stack| > 0 { LongerJump(prog, x, Pop(st, 1), target); }
    case IExitLoop(target, discard, _) =>
      if 0 <= discard <= |st.fors| { LongerJump(prog, x, st.(fors := st.fors[..|st.fors| - discard]), target); }
    case FBranch(_, target) => LongerJump(prog, x, st, target);
    case FBinJz(_, target) => if |st.stack| > 1 { LongerJump(prog, x, Pop(st, 2), target); }
    case FNotJz(target) => if |st.stack| > 0 { LongerJump(prog, x, Pop(st, 1), target); }
    case FComplex(_, _, _, _, _, _, _, _, _, _) => LongerComplex(m, prog, x, st, i);
    case _ =>
  }

  lemma {:induction false} LongerStep(m: Machine, prog: seq<Op>, x: Op, st: State)
    requires x.code != ForIncr && st.pc != |prog|
    ensures var o, e := Step(m, prog, st), Step(m, prog + [x], st);
            o == e || (JustPast(|prog|, e) && o == Failed(Leaves(e.st)))
  {
    hide StepInstr, Decode;
    if 0 <= st.pc < |prog| {
      assert (prog + [x])[st.pc] == prog[st.pc];
      LongerInstr(m, prog, x, st, Decode(m.pool, prog[st.pc]));
    }
  }

  /** A jump to itself, just past the program. */
  function Spin(prog: seq<Op>): Op { Op(Jmp, 0, 0, |prog|, 0) }

  lemma {:induction false} Spins(m: Machine, prog: seq<Op>, st: State, n: nat)
    requires st.pc == |prog|
    ensures RunN(m, prog + [Spin(prog)], Run(st), n) == Run(st)
    decreases n
  {
    if n > 0 {
      SpinStep(m, prog, st);
      Spins(m, prog, st, n - 1);
    }
  }

  lemma {:induction false} SpinStep(m: Machine, prog: seq<Op>, st: State)
    requires st.pc == |prog|
    ensures Step(m, prog + [Spin(prog)], st) == Run(st)
  {
    assert (prog + [Spin(prog)])[st.pc] == Spin(prog);
    assert Decode(m.pool, Spin(prog)) == IJmp(|prog|);
  }

  lemma {:induction false} PastFails(m: Machine, prog: seq<Op>, st: State)
    requires st.pc == |prog|
    ensures RunN(m, prog, Run(st), 1) == Failed(Leaves(st))
  {
    OneStep(m, prog, st);
  }

  /** Where the longer program gets just past the shorter one, the shorter one fails. */
  lemma {:induction false} LeavesAndFails(m: Machine, prog: seq<Op>, st: State, n: nat)
    ensures var e := RunN(m, prog + [Spin(prog)], Run(st), n);
            if JustPast(|prog|, e) then RunN(m, prog, Run(st), n + 1) == Failed(Leaves(e.st))
                else RunN(m, prog, Run(st), n) == e
    decreases n
  {
    hide Step;
    var ext := prog + [Spin(prog)];
    if st.pc == |prog| {
      Spins(m, prog, st, n);
      PastFails(m, prog, st);
      RunAdds(m, prog, Run(st), 1, n);
      StoppedStays(m, prog, Failed(Leaves(st)), n);
    } else if n > 0 {
      LongerStep(m, prog, Spin(prog), st);
      var o, e := Step(m, prog, st), Step(m, ext, st);
      if o == e {
        if e.Run? { LeavesAndFails(m, prog, e.st, n - 1); }
      } else {
        Spins(m, prog, e.st, n - 1);
        StoppedStays(m, prog, o, n);
      }
    }
  }

  lemma {:induction false} HaltStops(m: Machine, prog: seq<Op>, st: State)
    requires st.pc == |prog|
    ensures Step(m, prog + [Op(Halt, 0, 0, 0, 0)], st) == Done(st)
  {
    assert (prog + [Op(Halt, 0, 0, 0, 0)])[st.pc] == Op(Halt, 0, 0, 0, 0);
  }

  /** While the program with a HALT added runs on, so does the one without. */
  lemma {:induction false} StaysInside(m: Machine, prog: seq<Op>, st: State, n: nat)
    requires RunN(m, prog + [Op(Halt, 0, 0, 0, 0)], Run(st), n + 1).Run?
    ensures RunN(m, prog, Run(st), n).Run?
    decreases n
  {
    hide Step;
    var ext := prog + [Op(Halt, 0, 0, 0, 0)];
    if n > 0 {
      if st.pc == |prog| {
        HaltStops(m, prog, st);
        StoppedStays(m, ext, Done(st), n);
      } else {
        LongerStep(m, prog, Op(Halt, 0, 0, 0, 0), st);
        var o, e := Step(m, prog, st), Step(m, ext, st);
        if o == e {
          if e.Run? { StaysInside(m, prog, e.st, n - 1); } else { StoppedStays(m, ext, e, n); }
        } else {
          HaltStops(m, prog, e.st);
          StoppedStays(m, ext, Done(e.st), n - 1);
        }
      }
    }
  }

  lemma {:induction false} PastNeverOverflows(m: Machine, prog: seq<Op>, st: State, n: nat)
    requires st.pc == |prog|
    ensures RunN(m, prog + [Op(Halt, 0, 0, 0, 0)], Run(st), n) != Overflow
  {
    hide Step;
    if n > 0 {
      HaltStops(m, prog, st);
      StoppedStays(m, prog + [Op(Halt, 0, 0, 0, 0)], Done(st), n - 1);
    }
  }

  lemma {:induction false} OverflowsInside(m: Machine, prog: seq<Op>, st: State, n: nat)
    requires RunN(m, prog + [Op(Halt, 0, 0, 0, 0)], Run(st), n) == Overflow
    ensures n > 0 && RunN(m, prog, Run(st), n) == Overflow
    decreases n
  {
    hide Step;
    var ext := prog + [Op(Halt, 0, 0, 0, 0)];
    assert st.pc != |prog| by { if st.pc == |prog| { PastNeverOverflows(m, prog, st, n); } }
    LongerStep(m, prog, Op(Halt, 0, 0, 0, 0), st);
    var o, e := Step(m, prog, st), Step(m, ext, st);
    assert !JustPast(|prog|, e) by { if JustPast(|prog|, e) { PastNeverOverflows(m, prog, e.st, n - 1); } }
    if e.Run? { OverflowsInside(m, prog, e.st, n - 1); }
        else { StoppedStays(m, ext, e, n - 1); StoppedStays(m, prog, e, n - 1); }
  }
}
