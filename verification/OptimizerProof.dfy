/** The whole optimizer preserves meaning: from every slot and every machine state, the rewritten
    program stops as the original does. */
module OptimizerProof {
  import opened Wrappers
  import opened Il
  import opened Machine
  import opened Spelling
  import opened Optimizer
  import opened Justification
  import opened Fusion
  import Pipelines
  import LocalPatterns

  // ---------- every pass keeps the code faithful ----------

  /** What the compiler hands over: no fused operation yet, and constants as pool indices. */
  predicate Unfused(p: Program, raw: seq<Op>) {
    forall k {:trigger raw[k]} :: 0 <= k < |raw| ==>
      !FusedInstr(Decode(p.pool, raw[k])) && (raw[k].code == PushNum ==> raw[k].a >= 0)
  }

  lemma {:induction false} UnfusedIsFaithful(p: Program, raw: seq<Op>)
    requires Unfused(p, raw)
    ensures Faithful(p, Decoded(p.pool, raw), raw)
  {
    hide Decode;
  }

  lemma {:induction false} FaithfulIndexed(p: Program, d: seq<Instr>, code: seq<Op>)
    requires Faithful(p, d, code)
    ensures LocalPatterns.IndexedConstants(code)
  {
    forall k | 0 <= k < |code| && code[k].code == PushNum ensures code[k].a >= 0 {
      assert Stands(p, d, k, code[k]);
    }
  }

  lemma {:induction false} SpecializeStands(p: Program, code: seq<Op>, d: seq<Instr>, i: nat)
    requires Faithful(p, d, code) && i < |code| && SpecializeAt(code, i).Fuse?
    ensures Stands(p, d, i, SpecializeAt(code, i).op)
  {
    hide Justified;
    var op := SpecializeAt(code, i).op;
    assert Decode(p.pool, op) == Decode(p.pool, code[i]) by { SpecializedCall(p.pool, code[i], op); }
    assert Stands(p, d, i, code[i]);
  }

  /** COLOR and PSET have no numeric arity, so the fast form of a call means the call. */
  lemma {:induction false} SpecializedCall(pool: seq<Num>, was: Op, op: Op)
    requires was.code == CallFn && NumericArity(was.a) >= 0 && was.b == NumericArity(was.a)
    requires op.a == was.a
    requires op.code == (match was.b case 0 => Fn0Num case 1 => Fn1Num case 2 => Fn2Num case _ => Fn3Num)
    ensures Decode(pool, op) == Decode(pool, was) == NumericInstr(was.a, was.b)
  {
    DecodesCall(pool, was);
    DecodesNamedCall(pool, op, was.b);
  }

  lemma {:induction false} DecodesCall(pool: seq<Num>, op: Op)
    requires op.code == CallFn && NumericArity(op.a) >= 0 && op.b == NumericArity(op.a)
    ensures Decode(pool, op) == NumericInstr(op.a, op.b)
  {}

  lemma {:induction false} DecodesNamedCall(pool: seq<Num>, op: Op, n: int)
    requires NumericArity(op.a) == n && 0 <= n <= 3
    requires op.code == (match n case 0 => Fn0Num case 1 => Fn1Num case 2 => Fn2Num case _ => Fn3Num)
    ensures Decode(pool, op) == NumericInstr(op.a, n)
  {}

  lemma {:induction false} FusedStands(p: Program, d: seq<Instr>, i: nat, op: Op)
    requires i < |d| && Justified(Symbols(p), d, i, Decode(p.pool, op))
    ensures Stands(p, d, i, op)
  {
    hide Decode;
    JustifiedIsFused(Symbols(p), d, i, Decode(p.pool, op));
  }

  lemma {:induction false} JustifiedIsFused(symbols: nat, d: seq<Instr>, i: nat, f: Instr)
    requires Justified(symbols, d, i, f)
    ensures FusedInstr(f)
  {}

  lemma {:induction false} MatchStands(pass: Pass, p: Program, t: seq<Mark>, code: seq<Op>, d: seq<Instr>, i: nat)
    requires Faithful(p, d, code) && SlotsFit(p) && i < |code| && Match(pass, p, t, code, i).Fuse?
    ensures Stands(p, d, i, Match(pass, p, t, code, i).op)
  {
    hide Decode, Stands, Justified, Reads, LocalMatch, FirstMatch, ComplexAt, GrayAt, MinMulAt, GrayAgainAt, GrayTailAt,
      ResidualMatch, SpecializeAt;
    var op := Match(pass, p, t, code, i).op;
    if pass.SpecializePass? {
      SpecializeStands(p, code, d, i);
    } else {
      FaithfulReads(p, d, code);
      match pass {
        case LocalPass(fn) => FaithfulIndexed(p, d, code); LocalPatterns.LocalJustified(p, fn, t, code, d, i);
        case FirstPass => FirstJustified(p, t, code, d, i);
        case ComplexPass => Pipelines.ComplexJustified(p, t, code, d, i);
        case PixelPass =>
          if GrayAt(p, t, code, i).Fuse? { Pipelines.GrayJustified(p, t, code, d, i); }
          else { Pipelines.MinMulJustified(p, t, code, d, i); }
        case GrayAgainPass => Pipelines.GrayAgainJustified(p, t, code, d, i);
        case GrayTailPass => Pipelines.GrayTailJustified(p, t, code, d, i);
        case ResidualPass => Pipelines.ResidualJustified(p, t, code, d, i);
        case SpecializePass =>
      }
      FusedStands(p, d, i, op);
    }
  }

  lemma {:induction false} SweepKeeps(
      pass: Pass, p: Program, t: seq<Mark>, code: seq<Op>, d: seq<Instr>, i: nat, end: nat)
    requires Faithful(p, d, code) && SlotsFit(p) && end <= |code|
    ensures Faithful(p, d, Sweep(pass, p, t, code, i, end))
    decreases end - i
  {
    hide Match, Stands;
    if i < end {
      var f := Match(pass, p, t, code, i);
      if f.Fuse? {
        MatchStands(pass, p, t, code, d, i);
        SweepKeeps(pass, p, t, code[i := f.op], d, i + f.length, end);
      } else {
        SweepKeeps(pass, p, t, code, d, i + 1, end);
      }
    }
  }

  lemma {:induction false} SweepFunctionsKeeps(p: Program, t: seq<Mark>, code: seq<Op>, d: seq<Instr>, f: nat)
    requires Faithful(p, d, code) && SlotsFit(p)
    ensures Faithful(p, d, SweepFunctions(p, t, code, f))
    decreases |p.functions| - f
  {
    hide Faithful, Sweep;
    if f < |p.functions| {
      var fn := p.functions[f];
      SweepKeeps(LocalPass(fn), p, t, code, d, Clamp(fn.entry, |code|), Clamp(fn.end, |code|));
      SweepFunctionsKeeps(p, t, Sweep(LocalPass(fn), p, t, code, Clamp(fn.entry, |code|), Clamp(fn.end, |code|)), d,
          f + 1);
    }
  }

  lemma {:induction false} PassKeeps(pass: Pass, p: Program, t: seq<Mark>, code: seq<Op>, d: seq<Instr>)
    requires Faithful(p, d, code) && SlotsFit(p)
    ensures Faithful(p, d, SweepAll(pass, p, t, code))
  {
    SweepKeeps(pass, p, t, code, d, 0, |code|);
  }

  /** After all passes, each slot is the original operation or a fused one spelled by the original code there. */
  lemma {:induction false} OptimizedIsFaithful(p: Program, raw: seq<Op>)
    requires Unfused(p, raw) && SlotsFit(p)
    ensures Faithful(p, Decoded(p.pool, raw), Optimized(p, raw))
  {
    hide Faithful, SweepAll, SweepFunctions, Decoded, Marks;
    var d, t := Decoded(p.pool, raw), Marks(p, raw);
    UnfusedIsFaithful(p, raw);
    var c0 := SweepFunctions(p, t, raw, 0);
    SweepFunctionsKeeps(p, t, raw, d, 0);
    var c1 := SweepAll(FirstPass, p, t, c0);
    PassKeeps(FirstPass, p, t, c0, d);
    var c2 := SweepAll(ComplexPass, p, t, c1);
    PassKeeps(ComplexPass, p, t, c1, d);
    var c3 := SweepAll(PixelPass, p, t, c2);
    PassKeeps(PixelPass, p, t, c2, d);
    var c4 := SweepAll(SpecializePass, p, t, c3);
    PassKeeps(SpecializePass, p, t, c3, d);
    var c5 := SweepAll(GrayAgainPass, p, t, c4);
    PassKeeps(GrayAgainPass, p, t, c4, d);
    var c6 := SweepAll(GrayTailPass, p, t, c5);
    PassKeeps(GrayTailPass, p, t, c5, d);
    PassKeeps(ResidualPass, p, t, c6, d);
  }

  // ---------- straight-line code along the original program ----------

  /** Operations that only move on to the next slot. */
  predicate Straight(i: Instr) { i.ILoad? || i.IStore? || i.IBin? || i.INot? || i.IInt? || i.IColor? || i.IPset? }

  ghost predicate StraightBut(ins: seq<Instr>) { forall k :: 0 <= k < |ins| - 1 ==> Straight(ins[k]) }

  lemma {:induction false} StraightMovesOn(m: Machine, code: seq<Op>, st: State, i: Instr)
    requires Straight(i)
    ensures var o := StepInstr(m, code, st, i); o.Run? ==> o.st.pc == st.pc + 1
  {}

  lemma {:induction false} TailSpelled(d: seq<Instr>, pos: nat, ins: seq<Instr>)
    requires SpellsAt(d, pos, ins) && ins != []
    ensures SpellsAt(d, pos + 1, ins[1..])
  {
    forall k | 0 <= k < |ins[1..]| ensures d[pos + 1 + k] == ins[1..][k] { assert d[pos + (k + 1)] == ins[k + 1]; }
  }

  /** Straight-line execution is dispatch, slot after slot, of the original program. */
  lemma {:induction false} ExecIsDispatch(m: Machine, raw: seq<Op>, pos: nat, ins: seq<Instr>, st: State)
    requires SpellsAt(Decoded(m.pool, raw), pos, ins) && StraightBut(ins) && st.pc == pos
    ensures RunN(m, raw, Run(st), |ins|) == Exec(m, raw, ins, st)
    decreases |ins|
  {
    hide StepInstr, Decode;
    if ins != [] {
      var d := Decoded(m.pool, raw);
      assert d[pos + 0] == ins[0];
      var o := StepInstr(m, raw, st, ins[0]);
      assert Step(m, raw, st) == o;
      if o.Run? {
        if |ins| > 1 {
          StraightMovesOn(m, raw, st, ins[0]);
          TailSpelled(d, pos, ins);
          ExecIsDispatch(m, raw, pos + 1, ins[1..], o.st);
        } else {
          assert Exec(m, raw, ins[1..], o.st) == o;
        }
      } else {
        assert RunN(m, raw, o, |ins| - 1) == o;
      }
    }
  }

  // ---------- spellings are straight-line code ending in at most one jump ----------

  ghost predicate AllStraight(ins: seq<Instr>) { forall k :: 0 <= k < |ins| ==> Straight(ins[k]) }

  lemma {:induction false} StraightConcat(a: seq<Instr>, b: seq<Instr>)
    requires AllStraight(a)
    ensures AllStraight(b) ==> AllStraight(a + b)
    ensures StraightBut(b) ==> StraightBut(a + b)
  {}

  lemma {:induction false} CodeIsStraight(e: Expr)
    ensures AllStraight(Code(e))
    decreases e
  {
    if e.Bin? {
      CodeIsStraight(e.l);
      CodeIsStraight(e.r);
      StraightConcat(Code(e.l), Code(e.r));
      StraightConcat(Code(e.l) + Code(e.r), [IBin(e.op)]);
    }
  }

  lemma {:induction false} AssignmentIsStraight(dst: Operand, e: Expr)
    ensures AllStraight(Assignment(dst, e))
  {
    CodeIsStraight(e);
    StraightConcat(Code(e), [IStore(dst)]);
  }

  lemma {:induction false} BranchIsStraight(e: Expr, target: int)
    ensures StraightBut(BranchCode(e, target))
  {
    CodeIsStraight(e);
    StraightConcat(Code(e), [IJz(target)]);
  }

  lemma {:induction false} ComplexIsStraight(f: Instr)
    requires f.FComplex?
    ensures StraightBut(ComplexCode(f))
  {
    hide Assignment, Code, BranchCode, EscapeTest, RealPart, ImagPart;
    var a, b := Assignment(Global(f.t), RealPart(f)), Assignment(Global(f.zy), ImagPart(f));
    AssignmentIsStraight(Global(f.t), RealPart(f));
    AssignmentIsStraight(Global(f.zy), ImagPart(f));
    AssignmentIsStraight(Global(f.zx), G(f.t));
    StraightConcat(a, b);
    StraightConcat(a + b, Assignment(Global(f.zx), G(f.t)));
    if f.move.Some? { AssignmentIsStraight(Global(f.move.value.0), G(f.move.value.1)); }
    StraightConcat(IterationCode(f), MoveCode(f.move));
    BranchIsStraight(EscapeTest(f.either, f.zx, f.zy, f.limit), f.target);
    StraightConcat(IterationCode(f) + MoveCode(f.move), BranchCode(EscapeTest(f.either, f.zx, f.zy, f.limit),
        f.target));
  }

  lemma {:induction false} MinMulIsStraight(f: Instr, w: Order)
    requires f.FMinMul?
    ensures AllStraight(Spell(f, w))
  {
    hide Assignment, Code, Channel;
    var a := Assignment(Global(f.d.0), Channel(f.cap, f.src, f.k.0, w.first));
    var b := Assignment(Global(f.d.1), Channel(f.cap, f.src, f.k.1, w.second));
    var c := Assignment(Global(f.d.2), Channel(f.cap, f.src, f.k.2, w.third));
    AssignmentIsStraight(Global(f.d.0), Channel(f.cap, f.src, f.k.0, w.first));
    AssignmentIsStraight(Global(f.d.1), Channel(f.cap, f.src, f.k.1, w.second));
    AssignmentIsStraight(Global(f.d.2), Channel(f.cap, f.src, f.k.2, w.third));
    StraightConcat(a, b);
    StraightConcat(a + b, c);
    var paint := Painting(Global(f.d.0), Global(f.d.1), Global(f.d.2), Global(f.column), Global(f.row));
    assert AllStraight(paint);
    StraightConcat(a + b + c, paint);
  }

  lemma {:induction false} SpellIsStraight(f: Instr, w: Order)
    requires FusedInstr(f)
    ensures StraightBut(Spell(f, w)) && |Spell(f, w)| >= 1
  {
    hide Code, Painting;
    match f
    case FPush(e) =>
      CodeIsStraight(e);
      if ConstantTimes(e) { CodeIsStraight(Bin(Mul, e.r, e.l)); }
      NonEmpty(e);
    case FAssign(dst, e) => AssignmentIsStraight(dst, e);
    case FBranch(e, target) => BranchIsStraight(e, target);
    case FPlot(r, g, b, px, py) => PaintingIsStraight(r, g, b, px, py);
    case FGray(dst, lhs, rhs, px, py) =>
      CodeIsStraight(Bin(Mul, Leaf(lhs), Leaf(rhs)));
      PaintingIsStraight(dst, dst, dst, px, py);
      StraightConcat([IInt, IStore(dst)], Painting(dst, dst, dst, px, py));
      StraightConcat(Code(Bin(Mul, Leaf(lhs), Leaf(rhs))), [IInt, IStore(dst)] + Painting(dst, dst, dst, px, py));
    case FGrayStack(dst, px, py) =>
      PaintingIsStraight(dst, dst, dst, px, py);
      StraightConcat([IInt, IStore(dst)], Painting(dst, dst, dst, px, py));
    case FMinMul(_, _, _, _, _, _) => MinMulIsStraight(f, w);
    case FComplex(_, _, _, _, _, _, _, _, _, _) => ComplexIsStraight(f);
    case _ =>
  }

  lemma {:induction false} NonEmpty(e: Expr)
    ensures |Code(e)| >= 1 && (ConstantTimes(e) ==> |Code(Bin(Mul, e.r, e.l))| >= 1)
  {}

  lemma {:induction false} PaintingIsStraight(r: Operand, g: Operand, b: Operand, px: Operand, py: Operand)
    ensures AllStraight(Painting(r, g, b, px, py)) && |Painting(r, g, b, px, py)| == 7
  {}

  // ---------- one dispatch ----------

  /** Near stack overflow the local gray pipeline hands over to its tail after the first load. */
  predicate HandsOver(m: Machine, st: State, f: Instr) {
    f.FGray? && f.dst.Local? && st.locals.Some? && |st.stack| > m.limit - 3
  }

  /** The loop superinstruction without the increment it may run on. */
  function Core(f: Instr): Instr { if f.FComplex? then f.(next := false) else f }

  lemma {:induction false} SpanMeaning(m: Machine, code: seq<Op>, f: Instr, w: Order, st: State)
    requires FusedInstr(f) && OperandsOk(m.symbols, f) && AliasFree(f) && Lawful(m.arith) && !HandsOver(m, st, f)
    requires f.FBinJz? ==> f.op != Min
    ensures SameOrOverflow(Exec(m, code, Spell(f, w), st), StepInstr(m, code, st, Core(f)))
  {
    hide Exec, Eval, Code, Assignment, StepComplex, StepMinMul, StepGray, StepFusedPush, StepFusedAssign,
        StepFusedBranch,
      StepPlot, Lawful, Painting, StepBinJz, StepNotJz, StepGrayStack, BranchCode, ComplexCode;
    match f
    case FPush(e) => PushSpan(m, code, e, w, st);
    case FAssign(dst, e) => AssignMeaning(m, code, dst, e, st);
    case FBranch(e, target) => BranchMeaning(m, code, e, target, st);
    case FBinJz(op, target) => BinJzMeaning(m, code, op, target, st);
    case FNotJz(target) => NotJzMeaning(m, code, target, st);
    case FPlot(r, g, b, px, py) => PlotSpan(m, code, f, st);
    case FGray(dst, lhs, rhs, px, py) => GrayMeaning(m, code, f, st);
    case FGrayStack(dst, px, py) => GrayStackMeaning(m, code, dst, px, py, st);
    case FMinMul(_, _, _, _, _, _) => MinMulMeaning(m, code, f, w, st);
    case FComplex(_, _, _, _, _, _, _, _, _, _) => ComplexSpan(m, code, f, st);
  }

  lemma {:induction false} ComplexSpan(m: Machine, code: seq<Op>, f: Instr, st: State)
    requires f.FComplex? && OperandsOk(m.symbols, f) && AliasFree(f) && Lawful(m.arith)
    ensures SameOrOverflow(Exec(m, code, ComplexCode(f), st), StepComplex(m, code, st, Core(f)))
  {
    hide StepComplex, Exec, EscapeTest, RealPart, ImagPart;
    ComplexMeaning(m, code, Core(f), st);
    SameComplexCode(f);
  }

  lemma {:induction false} SameComplexCode(f: Instr)
    requires f.FComplex?
    ensures ComplexCode(Core(f)) == ComplexCode(f)
  {}

  lemma {:induction false} PlotSpan(m: Machine, code: seq<Op>, f: Instr, st: State)
    requires f.FPlot? && OperandsOk(m.symbols, f)
    ensures SameOrOverflow(Exec(m, code, Painting(f.r, f.g, f.bl, f.px, f.py), st), StepPlot(st, f.r, f.g, f.bl,
        f.px, f.py))
  {
    hide Exec, Painting;
    PaintMeaning(m, code, f.r, f.g, f.bl, f.px, f.py, st);
  }

  lemma {:induction false} Commuted(m: Machine, st: State, e: Expr)
    requires ConstantTimes(e) && ExprOk(m.symbols, e) && Lawful(m.arith)
    ensures ExprOk(m.symbols, Bin(Mul, e.r, e.l))
    ensures StepFusedPush(m, st, Bin(Mul, e.r, e.l)) == StepFusedPush(m, st, e)
  {
    var k, x := e.l.x.v, Get(st.globals, e.r.x.slot);
    assert e == Bin(Mul, C(k), G(e.r.x.slot));
    Node(m, st, Mul, C(k), G(e.r.x.slot));
    Node(m, st, Mul, G(e.r.x.slot), C(k));
    assert m.arith.apply(Mul, k, x) == m.arith.apply(Mul, x, k);
  }

  lemma {:induction false} PushSpan(m: Machine, code: seq<Op>, e: Expr, w: Order, st: State)
    requires ExprOk(m.symbols, e) && Lawful(m.arith)
    ensures SameOrOverflow(Exec(m, code, Spell(FPush(e), w), st), StepFusedPush(m, st, e))
  {
    hide Exec, Code, Eval, StepFusedPush;
    if ConstantTimes(e) && w.first {
      Commuted(m, st, e);
      PushMeaning(m, code, Bin(Mul, e.r, e.l), st);
    } else {
      PushMeaning(m, code, e, st);
    }
  }

  // ---------- one dispatch of the optimized program, several of the original ----------

  /** Every fused operation of `code` may be run on values read before it stores. */
  ghost predicate AllAliasFree(pool: seq<Num>, code: seq<Op>) {
    forall k {:trigger code[k]} :: 0 <= k < |code| ==> AliasFree(Decode(pool, code[k]))
  }

  /** A machine for program `p`, its original code and a faithful rewriting of it. */
  ghost predicate Setting(p: Program, m: Machine, raw: seq<Op>, opt: seq<Op>) {
    m.pool == p.pool && m.symbols == Symbols(p) && Lawful(m.arith) &&
    Faithful(p, Decoded(p.pool, raw), opt) && AllAliasFree(p.pool, opt)
  }

  lemma {:induction false} NeverMin(pool: seq<Num>, op: Op)
    ensures Decode(pool, op).FBinJz? ==> Decode(pool, op).op != Min
  {}

  /** Only the increment run on from the loop superinstruction looks at the code; the rest use its length. */
  lemma {:induction false} OnlyLength(m: Machine, raw: seq<Op>, opt: seq<Op>, st: State, f: Instr)
    requires |raw| == |opt| && (f.FComplex? ==> !f.next)
    ensures StepInstr(m, raw, st, f) == StepInstr(m, opt, st, f)
  {
    hide Eval, BinValue, Write, Paint, StepLoad, StepStore, StepBin, StepNumeric, StepForInit, StepForCheck,
        StepForIncr, ComplexVars,
      StepMinMul, StepGray, StepGrayStack, StepPlot, StepColor, StepPset, StepFusedPush, StepFusedAssign, Escapes,
          TopNumbers;
  }

  lemma {:induction false} SameLength(p: Program, m: Machine, raw: seq<Op>, opt: seq<Op>)
    requires Setting(p, m, raw, opt)
    ensures |raw| == |opt| && m.pool == p.pool
  {}

  lemma {:induction false} OneStep(m: Machine, code: seq<Op>, st: State)
    ensures RunN(m, code, Run(st), 1) == Step(m, code, st)
  {
    hide Step;
    assert RunN(m, code, Step(m, code, st), 0) == Step(m, code, st);
  }

  lemma {:induction false} PlainStep(p: Program, m: Machine, raw: seq<Op>, opt: seq<Op>, st: State)
    requires Setting(p, m, raw, opt) && 0 <= st.pc < |opt| && !FusedInstr(Decode(p.pool, opt[st.pc]))
    ensures Step(m, raw, st) == Step(m, opt, st)
  {
    hide Decode, StepInstr;
    assert Stands(p, Decoded(p.pool, raw), st.pc, opt[st.pc]);
    PlainIsNotComplex(Decode(p.pool, opt[st.pc]));
    OnlyLength(m, raw, opt, st, Decode(p.pool, opt[st.pc]));
  }

  lemma {:induction false} PlainIsNotComplex(i: Instr)
    requires !FusedInstr(i)
    ensures !i.FComplex?
  {}

  /** A fused slot, up to the increment the loop superinstruction may run on. */
  lemma {:induction false} FusedStep(p: Program, m: Machine, raw: seq<Op>, opt: seq<Op>, st: State) returns (k: nat)
    requires Setting(p, m, raw, opt) && 0 <= st.pc < |opt|
    requires var f := Decode(p.pool, opt[st.pc]); FusedInstr(f) && !HandsOver(m, st, f)
    ensures k >= 1 && SameOrOverflow(RunN(m, raw, Run(st), k), StepInstr(m, opt, st, Core(Decode(p.pool, opt[st.pc]))))
  {
    hide Decode, StepInstr, Spell, Exec, Lawful, AliasFree, FusedInstr, OperandsOk, HandsOver;
    var d, f := Decoded(p.pool, raw), Decode(p.pool, opt[st.pc]);
    assert Stands(p, d, st.pc, opt[st.pc]);
    var w :| SpellsAt(d, st.pc, Spell(f, w));
    SpellIsStraight(f, w);
    NeverMin(p.pool, opt[st.pc]);
    SpanMeaning(m, raw, f, w, st);
    ExecIsDispatch(m, raw, st.pc, Spell(f, w), st);
    OnlyLength(m, raw, opt, st, Core(f));
    k := |Spell(f, w)|;
  }

  lemma {:induction false} GrayStart(f: Instr, w: Order)
    requires f.FGray?
    ensures |Spell(f, w)| > 0 && Spell(f, w)[0] == ILoad(f.lhs)
  {
    assert Code(Bin(Mul, Leaf(f.lhs), Leaf(f.rhs)))[0] == ILoad(f.lhs) by {
      assert Code(Leaf(f.lhs)) == [ILoad(f.lhs)];
    }
  }

  lemma {:induction false} HandedOverStep(p: Program, m: Machine, raw: seq<Op>, opt: seq<Op>, st: State)
    requires Setting(p, m, raw, opt) && 0 <= st.pc < |opt| && HandsOver(m, st, Decode(p.pool, opt[st.pc]))
    ensures Step(m, raw, st) == Step(m, opt, st)
  {
    hide Decode;
    var d, f := Decoded(p.pool, raw), Decode(p.pool, opt[st.pc]);
    assert Stands(p, d, st.pc, opt[st.pc]);
    var w :| SpellsAt(d, st.pc, Spell(f, w));
    GrayStart(f, w);
    assert d[st.pc + 0] == ILoad(f.lhs);
  }

  lemma {:induction false} IncrementStands(p: Program, m: Machine, raw: seq<Op>, opt: seq<Op>, k: nat)
    requires Setting(p, m, raw, opt) && k < |opt| && opt[k].code == ForIncr
    ensures |raw| == |opt| && Decode(p.pool, raw[k]) == IForIncr(opt[k].a)
  {
    var d := Decoded(p.pool, raw);
    assert Stands(p, d, k, opt[k]);
    DecodesIncrement(p.pool, opt[k]);
  }

  /** What the loop superinstruction does once it has jumped. */
  lemma {:induction false} CoreStep(m: Machine, opt: seq<Op>, st: State, f: Instr)
    requires f.FComplex? && f.next
    ensures var o := StepComplex(m, opt, st, Core(f));
            StepComplex(m, opt, st, f) == o ||
            (0 <= f.target < |opt| && opt[f.target].code == ForIncr && o.Run? && o.st.pc == f.target &&
             StepComplex(m, opt, st, f) == StepForIncr(m, o.st, opt[f.target].a))
  {
    hide ComplexVars, Escapes, StepForIncr;
    CoreVars(m, st, f);
  }

  lemma {:induction false} SamePool(p: Program, m: Machine, raw: seq<Op>, opt: seq<Op>)
    requires Setting(p, m, raw, opt)
    ensures m.pool == p.pool
  {}

  lemma {:induction false} ComplexDispatch(m: Machine, code: seq<Op>, st: State, f: Instr)
    requires f.FComplex?
    ensures StepInstr(m, code, st, f) == StepComplex(m, code, st, f) && Core(f).FComplex?
  {}

  lemma {:induction false} IncrementStep(p: Program, m: Machine, raw: seq<Op>, opt: seq<Op>, st: State)
    requires Setting(p, m, raw, opt) && 0 <= st.pc < |opt| && opt[st.pc].code == ForIncr
    ensures Step(m, raw, st) == StepForIncr(m, st, opt[st.pc].a)
  {
    hide Decode, StepForIncr;
    IncrementStands(p, m, raw, opt, st.pc);
  }

  /** The increment run on is the original operation at the jump's target. */
  lemma {:induction false} RunsOn(p: Program, m: Machine, raw: seq<Op>, opt: seq<Op>, st: State)
    requires Setting(p, m, raw, opt) && 0 <= st.pc < |opt|
    requires var f := Decode(p.pool, opt[st.pc]); f.FComplex? && f.next
    ensures var f := Decode(p.pool, opt[st.pc]);
            var o := StepInstr(m, opt, st, Core(f));
            Step(m, opt, st) == o || (o.Run? && Step(m, opt, st) == Step(m, raw, o.st))
  {
    hide Decode, StepForIncr, StepComplex, StepInstr, Setting, Core;
    var f := Decode(p.pool, opt[st.pc]);
    ComplexDispatch(m, opt, st, f);
    ComplexDispatch(m, opt, st, Core(f));
    CoreStep(m, opt, st, f);
    var o := StepComplex(m, opt, st, Core(f));
    if StepComplex(m, opt, st, f) != o { IncrementStep(p, m, raw, opt, o.st); }
    assert m.pool == p.pool by { SamePool(p, m, raw, opt); }
  }

  lemma {:induction false} CoreVars(m: Machine, st: State, f: Instr)
    requires f.FComplex?
    ensures ComplexVars(m, st, f) == ComplexVars(m, st, Core(f))
    ensures Escapes(m.arith, f.either, ComplexReal(m, st, f), ComplexImag(m, st, f), f.limit)
        <==> Escapes(m.arith, f.either, ComplexReal(m, st, Core(f)), ComplexImag(m, st, Core(f)), f.limit)
  {}

  lemma {:induction false} DecodesIncrement(pool: seq<Num>, op: Op)
    requires op.code == ForIncr
    ensures Decode(pool, op) == IForIncr(op.a) && !FusedInstr(Decode(pool, op))
  {}

  /** Each dispatch of the rewritten program is one or more of the original one, unless the
      original, which needs more stack, overflows. */
  lemma {:induction false} StepSimulated(p: Program, m: Machine, raw: seq<Op>, opt: seq<Op>, st: State) returns (k: nat)
    requires Setting(p, m, raw, opt)
    ensures k >= 1 && SameOrOverflow(RunN(m, raw, Run(st), k), Step(m, opt, st))
  {
    hide Decode, StepInstr, FusedInstr, HandsOver, Setting;
    k := 1;
    OneStep(m, raw, st);
    SameLength(p, m, raw, opt);
    if 0 <= st.pc < |opt| {
      var f := Decode(p.pool, opt[st.pc]);
      if !FusedInstr(f) { PlainStep(p, m, raw, opt, st); }
      else if HandsOver(m, st, f) { HandedOverStep(p, m, raw, opt, st); }
      else {
        k := FusedStep(p, m, raw, opt, st);
        if f.FComplex? && f.next {
          RunsOn(p, m, raw, opt, st);
          var o := StepInstr(m, opt, st, Core(f));
          if Step(m, opt, st) != o {
            RunAdds(m, raw, Run(st), k, 1);
            OneStep(m, raw, o.st);
            k := k + 1;
          }
        }
      }
    }
  }

  // ---------- whole runs ----------

  lemma {:induction false} StoppedStays(m: Machine, code: seq<Op>, o: Outcome, n: nat)
    requires !o.Run?
    ensures RunN(m, code, o, n) == o
  {}

  lemma {:induction false} RawRunsAsOptimized(p: Program, m: Machine, raw: seq<Op>, opt: seq<Op>, st: State, n: nat)
    requires Setting(p, m, raw, opt) && !RunN(m, opt, Run(st), n).Run?
    ensures Ends(m, raw, st, RunN(m, opt, Run(st), n)) || Ends(m, raw, st, Overflow)
    decreases n
  {
    hide Setting, Step;
    var k := StepSimulated(p, m, raw, opt, st);
    var o := Step(m, opt, st);
    if RunN(m, raw, Run(st), k) == o && o.Run? {
      RawRunsAsOptimized(p, m, raw, opt, o.st, n - 1);
      var e := if Ends(m, raw, o.st, Overflow) then Overflow else RunN(m, opt, o, n - 1);
      var j: nat :| RunN(m, raw, Run(o.st), j) == e;
      RunAdds(m, raw, Run(st), k, j);
      assert RunN(m, raw, Run(st), k + j) == e;
    } else if o.Run? {
    } else {
      StoppedStays(m, opt, o, n - 1);
    }
  }

  lemma {:induction false} OptimizedRunsAsRaw(p: Program, m: Machine, raw: seq<Op>, opt: seq<Op>, st: State, n: nat)
    requires Setting(p, m, raw, opt)
    requires var o := RunN(m, raw, Run(st), n); !o.Run? && o != Overflow
    ensures Ends(m, opt, st, RunN(m, raw, Run(st), n))
    decreases n
  {
    hide Setting, Step;
    var k := StepSimulated(p, m, raw, opt, st);
    var o := RunN(m, raw, Run(st), n);
    var s := Step(m, opt, st);
    if k >= n {
      RunAdds(m, raw, Run(st), n, k - n);
      StoppedStays(m, raw, o, k - n);
      OneStep(m, opt, st);
    } else {
      RunAdds(m, raw, Run(st), k, n - k);
      var mid := RunN(m, raw, Run(st), k);
      if !mid.Run? { StoppedStays(m, raw, mid, n - k); }
      if s.Run? {
        OptimizedRunsAsRaw(p, m, raw, opt, s.st, n - k);
        var j: nat :| RunN(m, opt, s, j) == o;
        assert RunN(m, opt, Run(st), j + 1) == o;
      } else {
        OneStep(m, opt, st);
      }
    }
  }

  /** Two programs stop alike from `st`, except that the first may need more stack. */
  ghost predicate StopAlike(m: Machine, raw: seq<Op>, opt: seq<Op>, st: State) {
    (forall o :: Ends(m, raw, st, o) && o != Overflow ==> Ends(m, opt, st, o)) &&
    (forall o :: Ends(m, opt, st, o) ==> Ends(m, raw, st, o) || Ends(m, raw, st, Overflow))
  }

  // ---------- the condition on the original program ----------

  /** The fused operations that cross statements. */
  predicate Crosses(f: Instr) { f.FMinMul? || f.FComplex? }

  /** Every complex iteration and every capped-channel pixel the original operations spell, from any
      slot, is free of aliasing. */
  ghost predicate RawAliasFree(p: Program, raw: seq<Op>) {
    forall k: nat, f: Instr, w: Order :: Crosses(f) && OperandsOk(Symbols(p), f) && SpellsAt(Decoded(p.pool, raw), k, Spell(f, w)) ==>
      AliasFree(f)
  }

  lemma {:induction false} OnlyCrossingAliases(f: Instr)
    requires !Crosses(f)
    ensures AliasFree(f)
  {}

  lemma {:induction false} FusedIsAliasFree(p: Program, raw: seq<Op>)
    requires Unfused(p, raw) && SlotsFit(p) && RawAliasFree(p, raw)
    ensures AllAliasFree(p.pool, Optimized(p, raw))
  {
    hide Decode, Optimized, Spell, SpellsAt, OperandsOk, AliasFree;
    OptimizedIsFaithful(p, raw);
    var opt := Optimized(p, raw);
    forall k | 0 <= k < |opt| ensures AliasFree(Decode(p.pool, opt[k])) {
      var f := Decode(p.pool, opt[k]);
      assert Stands(p, Decoded(p.pool, raw), k, opt[k]);
      if !Crosses(f) { OnlyCrossingAliases(f); }
    }
  }

  /** The optimizer preserves meaning: from any slot, also inside a covered span, and any machine
      state, the rewritten program stops with the outcome of the original one. */
  lemma {:induction false} OptimizerPreservesMeaning(p: Program, m: Machine, raw: seq<Op>, st: State)
    requires Unfused(p, raw) && SlotsFit(p) && m.pool == p.pool && m.symbols == Symbols(p) && Lawful(m.arith)
    requires RawAliasFree(p, raw)
    ensures StopAlike(m, raw, Optimized(p, raw), st)
  {
    hide Optimized, Faithful, Lawful, AllAliasFree, Unfused, RunN, RawAliasFree;
    var opt := Optimized(p, raw);
    OptimizedIsFaithful(p, raw);
    FusedIsAliasFree(p, raw);
    forall o | Ends(m, raw, st, o) && o != Overflow ensures Ends(m, opt, st, o) {
      var n: nat :| RunN(m, raw, Run(st), n) == o;
      OptimizedRunsAsRaw(p, m, raw, opt, st, n);
    }
    forall o | Ends(m, opt, st, o) ensures Ends(m, raw, st, o) || Ends(m, raw, st, Overflow) {
      var n: nat :| RunN(m, opt, Run(st), n) == o;
      RawRunsAsOptimized(p, m, raw, opt, st, n);
    }
  }
}
