/** Where the value stack is too small: exactly when an assignment overflows it, and a program that
    overflows as written and runs to its end once it is optimized. */
module FullStack {
  import opened Wrappers
  import opened Il
  import opened Machine
  import opened Statements
  import opened Labels
  import opened Blocks
  import opened BlockCompiler
  import opened Semantics
  import opened Simulation
  import opened Fusion
  import opened Justification
  import opened Optimizer
  import opened Spelling
  import opened OptimizerProof
  import AliasedProgram
  import opened Correctness
  import StackNeed

  // ---------- one assignment ----------

  function Assigning(slot: int, e: Expr): Block { Cons(Let(slot, e), Nil) }

  lemma {:induction false} AssigningCode(pool: seq<Num>, slot: int, e: Expr)
    ensures BlockBody(pool, Assigning(slot, e), 0, TOP) == PlainOps(Ops(pool, e) + [Op(StoreNum, 0, 0, slot, 0)])
    ensures StackNeed.BlockNeed(Assigning(slot, e)) == Peak(e)
  {
    var s := Let(slot, e);
    assert BlockBody(pool, Nil, Size(s), TOP) == [];
    assert Body(pool, s, 0, TOP) == PlainOps(SimpleOps(pool, s));
    assert Body(pool, s, 0, TOP) + [] == Body(pool, s, 0, TOP);
  }

  /** Code for an expression that has a value overflows if there is no room for its peak. */
  lemma {:induction false} ExprOverflows(m: Machine, prog: seq<Op>, e: Expr, st: State)
    requires ExprFits(m, e) && st.pc >= 0 && CodeAt(prog, st.pc, PlainOps(Ops(m.pool, e))) && st.locals.None?
    requires Valued(m.arith, WorldOf(st), e).Some? && m.limit < |st.stack| + Peak(e)
    ensures RunN(m, prog, Run(st), CodeLength(e)) == Overflow
  {
    hide Exec, Code, Eval, Valued, CodeAt;
    ExprSpelled(m, prog, e, st.pc);
    CodeIsStraight(e);
    ExecIsDispatch(m, prog, st.pc, Code(e), st);
    CodeComputes(m, prog, e, st);
    ValueIs(m, st, e);
  }

  /** An assignment whose expression has a value overflows if and only if its need is not there. */
  lemma {:induction false} AssignmentOverflowsExactly(m: Machine, slot: int, e: Expr, st: State)
    requires var b := Assigning(slot, e); Compiled(m.pool, b).Some? && BlockFits(m, b, 0, false)
    requires Starting(st) && Valued(m.arith, WorldOf(st), e).Some?
    ensures var b := Assigning(slot, e);
            Ends(m, Compiled(m.pool, b).value, st, Overflow) <==> m.limit < |st.stack| + StackNeed.BlockNeed(b)
  {
    hide RunN, Compiled, CodeAt, Correctness.Whole, Valued, Ops, PlainOps, ExprFits, BlockBody, StackNeed.BlockNeed;
    var b := Assigning(slot, e);
    var prog := Compiled(m.pool, b).value;
    AssigningCode(m.pool, slot, e);
    if m.limit < |st.stack| + StackNeed.BlockNeed(b) {
      CompiledIsWhole(m.pool, b);
      WholeParts(m.pool, prog, b);
      PlainSplit(prog, 0, Ops(m.pool, e), [Op(StoreNum, 0, 0, slot, 0)]);
      ExprOverflows(m, prog, e, st);
    } else {
      NeverOverflows(m, b, st);
    }
  }

  // ---------- X = A + B ----------

  const SUM := Assigning(0, Bin(Add, G(1), G(2)))

  /** X, A and B, no constants, one line. */
  const SUM_PROGRAM := Program([], [false, false, false], [0], [], true)

  const SUM_CODE: seq<Op> :=
    [Op(LoadNum, 0, 0, 1, 0), Op(LoadNum, 0, 0, 2, 0), Simple(AddNum), Op(StoreNum, 0, 0, 0, 0), Simple(Halt)]

  const FUSED_SUM := Op(AddVvStore, 0, 0, 0, 1 + 256 * 2)

  lemma {:induction false} SumOps()
    ensures Ops([], Bin(Add, G(1), G(2))) == SUM_CODE[..3] && SimpleOps([], SUM.head) == SUM_CODE[..4]
  {
    assert Ops([], G(1)) == [SUM_CODE[0]] && Ops([], G(2)) == [SUM_CODE[1]];
    assert Ops([], Bin(Add, G(1), G(2))) == [SUM_CODE[0]] + [SUM_CODE[1]] + [Simple(AddNum)];
  }

  lemma {:induction false} SumCompiles()
    ensures Compiled([], SUM).Some?
  {
    hide Compile, CompileRow, Ops;
    SumOps();
    var t := Statement.Straight(SUM_CODE[..4]);
    assert WrittenBlock([], SUM) == [t] by {
      assert Written([], SUM.head) == [t];
      assert WrittenBlock([], Nil) == [] && [t] + [] == [t];
    }
    RowsAreStatements(EMPTY, [t]);
    CompileOne(EMPTY, t);
    StraightCompiles(SUM_CODE[..4]);
  }

  lemma {:induction false} StraightCompiles(ops: seq<Op>)
    requires |ops| < 5
    ensures Compile(true, EMPTY, Statement.Straight(ops), 0) == Some(EMPTY.(code := PlainOps(ops)))
  {
    assert EMPTY.code + PlainOps(ops) == PlainOps(ops);
  }

  lemma {:induction false} SumIsCompiled()
    ensures Compiled([], SUM) == Some(SUM_CODE)
  {
    hide Compiled, CodeAt, Ops;
    SumCompiles();
    CompiledIsWhole([], SUM);
    AssigningCode([], 0, Bin(Add, G(1), G(2)));
    SumOps();
    var code := PlainOps(SUM_CODE[..4]);
    assert SUM_CODE[..3] + [Op(StoreNum, 0, 0, 0, 0)] == SUM_CODE[..4];
    assert !EndsInHalt(code) && Correctness.Whole([], SUM) == code + [Plain(Simple(Halt))] == PlainOps(SUM_CODE);
    SameCode(Compiled([], SUM).value, SUM_CODE);
  }

  lemma {:induction false} SameCode(prog: seq<Op>, ops: seq<Op>)
    requires CodeAt(prog, 0, PlainOps(ops)) && |prog| == |ops|
    ensures prog == ops
  {
    forall k | 0 <= k < |ops| ensures prog[k] == ops[k] { assert prog[0 + k] == Lower(PlainOps(ops)[k]); }
  }

  // ---------- optimized ----------

  lemma {:induction false} SumIsStraight()
    ensures var t := Marks(SUM_PROGRAM, SUM_CODE); |t| == 5 && forall i :: 0 < i < 4 ==> !t[i].line && !t[i].flow
  {
    forall i | 0 < i < 4 ensures !IsFlow(SUM_PROGRAM, SUM_CODE, i) {
      forall k | 0 <= k < 5 ensures i !in FlowTargets(SUM_CODE[k], k) { SumFlow(k); }
    }
  }

  lemma {:induction false} SumFlow(k: int)
    requires 0 <= k < 5
    ensures forall i :: i in FlowTargets(SUM_CODE[k], k) ==> i >= 4
  {}

  lemma {:induction false} LongPatternsKeep(t: seq<Mark>, code: seq<Op>)
    requires |t| < 6
    ensures MulSubAddAt(SUM_PROGRAM, t, code, 0) == AddProductAt(SUM_PROGRAM, t, code, 0) == ProductAddAt(SUM_PROGRAM,
        t, code, 0) == MulCvvAddAt(SUM_PROGRAM, t, code, 0) == Keep
    ensures Sq2At(SUM_PROGRAM, t, code, 0) == SumSqAt(SUM_PROGRAM, t, code, 0) == RgbPsetAt(SUM_PROGRAM, t, code, 0) == Keep
  {
    hide Pack6, NumericSlot, ConstantIndex, Is, Arg, PaintsFrom;
  }

  lemma {:induction false} SumMatches(t: seq<Mark>)
    requires |t| == 5 && forall i :: 0 < i < 4 ==> !t[i].line && !t[i].flow
    ensures FirstMatch(SUM_PROGRAM, t, SUM_CODE, 0) == Fuse(FUSED_SUM, 4)
  {
    hide MulSubAddAt, AddProductAt, ProductAddAt, MulCvvAddAt, Sq2At, SumSqAt, RgbPsetAt, MulCvAt, VvPushAt, MoveAt;
    LongPatternsKeep(t, SUM_CODE);
    assert ConditionAt(t, SUM_CODE, 0) == Keep;
  }

  lemma {:induction false} SumIsFused()
    ensures |Optimized(SUM_PROGRAM, SUM_CODE)| == 5 && Optimized(SUM_PROGRAM, SUM_CODE)[0] == FUSED_SUM
  {
    hide SweepAll, Marks, FirstMatch;
    var t := Marks(SUM_PROGRAM, SUM_CODE);
    SumIsStraight();
    assert SweepFunctions(SUM_PROGRAM, t, SUM_CODE, 0) == SUM_CODE;
    FirstFuses(t);
    var c0 := SweepAll(FirstPass, SUM_PROGRAM, t, SUM_CODE);
    AliasedProgram.LaterPassKeeps(ComplexPass, SUM_PROGRAM, t, c0);
    AliasedProgram.LaterPassesKeep(SUM_PROGRAM, t, SweepAll(ComplexPass, SUM_PROGRAM, t, c0));
  }

  lemma {:induction false} FirstFuses(t: seq<Mark>)
    requires |t| == 5 && forall i :: 0 < i < 4 ==> !t[i].line && !t[i].flow
    ensures var c := SweepAll(FirstPass, SUM_PROGRAM, t, SUM_CODE); |c| == 5 && c[0] == FUSED_SUM
  {
    hide FirstMatch;
    SumMatches(t);
    AliasedProgram.SweepLeaves(FirstPass, SUM_PROGRAM, t, SUM_CODE[0 := FUSED_SUM], 4, 5);
  }

  lemma {:induction false} SumIsUnfused()
    ensures Unfused(SUM_PROGRAM, SUM_CODE) && SlotsFit(SUM_PROGRAM)
  {
    hide Decode;
    forall k | 0 <= k < 5 ensures !FusedInstr(Decode([], SUM_CODE[k])) && SUM_CODE[k].code != PushNum {
      NotFused([], SUM_CODE[k]);
    }
  }

  lemma {:induction false} SumValue(a: Arith, st: State)
    ensures Eval(a, st, Bin(Add, G(1), G(2))) == Some(a.apply(Add, Get(st.globals, 1), Get(st.globals, 2)))
  {
    assert Eval(a, st, G(1)) == Some(Get(st.globals, 1)) && Eval(a, st, G(2)) == Some(Get(st.globals, 2));
  }

  /** The fused assignment needs no stack at all. */
  lemma {:induction false} FusedSumSteps(m: Machine, st: State)
    requires m.pool == [] && st.pc == 0
    ensures Step(m, Optimized(SUM_PROGRAM, SUM_CODE), st)
            == Run(st.(globals := st.globals[0 := m.arith.apply(Add, Get(st.globals, 1), Get(st.globals, 2))], pc := 4))
  {
    hide Optimized;
    SumIsFused();
    SumValue(m.arith, st);
    assert Decode([], FUSED_SUM) == FAssign(Global(0), Bin(Add, G(1), G(2)));
  }

  /** With one cell left, `X = A + B` overflows as written, and is done once it is optimized. */
  lemma {:induction false} OnlyTheRawProgramOverflows(m: Machine, st: State)
    requires m.pool == [] && m.symbols == 3 && Starting(st) && |st.stack| + 1 == m.limit
    ensures Compiled(m.pool, SUM).Some?
    ensures var raw := Compiled(m.pool, SUM).value;
            Ends(m, raw, st, Overflow) && !Ends(m, Optimized(SUM_PROGRAM, raw), st, Overflow) &&
            exists end :: Ends(m, Optimized(SUM_PROGRAM, raw), st, Done(end)) &&
                          end.globals == st.globals[0 := m.arith.apply(Add, Get(st.globals, 1), Get(st.globals, 2))]
  {
    hide Optimized, RunN, Step, Compiled, Decode, Valued, Eval;
    SumIsCompiled();
    var e := Bin(Add, G(1), G(2));
    AssigningCode([], 0, e);
    assert BlockFits(m, SUM, 0, false);
    SumValue(m.arith, st);
    ValueIs(m, st, e);
    AssignmentOverflowsExactly(m, 0, e, st);
    var opt := Optimized(SUM_PROGRAM, SUM_CODE);
    SumIsFused();
    SumIsUnfused();
    FusedSumSteps(m, st);
    AliasedProgram.HaltDecodes([]);
    AliasedProgram.HaltStands(SUM_PROGRAM, SUM_CODE, 4);
    OneStep(m, opt, st);
    var end := st.(globals := st.globals[0 := m.arith.apply(Add, Get(st.globals, 1), Get(st.globals, 2))], pc := 4);
    AliasedProgram.Reaches(m, opt, st, 1, end);
    if Ends(m, opt, st, Overflow) { AliasedProgram.SameEnd(m, opt, st, Overflow, Done(end)); }
  }
}
