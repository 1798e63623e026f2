/** What aliasing means for the optimizer: each fused slot means the original operations it covers
    exactly when they spell nothing aliased, and a program whose fused loop goes wrong. */
module AliasedProgram {
  import opened Wrappers
  import opened Il
  import opened Machine
  import opened Optimizer
  import opened Spelling
  import opened Justification
  import opened Fusion
  import opened OptimizerProof
  import opened Aliasing
  import Pipelines

  // ---------- the original operations determine the aliasing ----------

  lemma {:induction false} ChannelCode(d: int, cap: int, src: int, k: int, swapped: bool)
    ensures Assignment(Global(d), Channel(cap, src, k, swapped)) ==
            [ILoad(Literal(Whole(cap)))] +
            (if swapped then [ILoad(Literal(Whole(k))), ILoad(Global(src))]
                else [ILoad(Global(src)), ILoad(Literal(Whole(k)))]) +
            [IBin(Mul), IBin(Min), IStore(Global(d))]
  {
    var product := Product(G(src), C(Whole(k)), swapped);
    assert Code(G(src)) == [ILoad(Global(src))] && Code(C(Whole(k))) == [ILoad(Literal(Whole(k)))];
    assert Code(C(Whole(cap))) == [ILoad(Literal(Whole(cap)))];
    assert Code(product) == Code(product.l) + Code(product.r) + [IBin(Mul)];
    assert Code(Channel(cap, src, k, swapped)) == Code(C(Whole(cap))) + Code(product) + [IBin(Min)];
  }

  /** What a channel at `pos` says about its fields. */
  ghost predicate ChannelAtPos(d: seq<Instr>, pos: nat, dst: int, src: int, k: int) {
    pos + 5 < |d| && d[pos].ILoad? && d[pos].x.Literal? && d[pos + 5] == IStore(Global(dst)) &&
    ((d[pos + 1] == ILoad(Global(src)) && d[pos + 2] == ILoad(Literal(Whole(k)))) ||
     (d[pos + 2] == ILoad(Global(src)) && d[pos + 1] == ILoad(Literal(Whole(k)))))
  }

  lemma {:induction false} ChannelReads(d: seq<Instr>, pos: nat, dst: int, cap: int, src: int, k: int, swapped: bool)
    requires SpellsAt(d, pos, Assignment(Global(dst), Channel(cap, src, k, swapped)))
    ensures ChannelAtPos(d, pos, dst, src, k)
  {
    hide Assignment, Channel;
    var ins := Assignment(Global(dst), Channel(cap, src, k, swapped));
    ChannelCode(dst, cap, src, k, swapped);
    assert d[pos + 0] == ins[0] && d[pos + 1] == ins[1] && d[pos + 2] == ins[2] && d[pos + 5] == ins[5];
  }

  lemma {:induction false} MinMulReads(d: seq<Instr>, pos: nat, f: Instr, w: Order)
    requires f.FMinMul? && SpellsAt(d, pos, Spell(f, w))
    ensures ChannelAtPos(d, pos, f.d.0, f.src, f.k.0) && ChannelAtPos(d, pos + 6, f.d.1, f.src, f.k.1) &&
            ChannelAtPos(d, pos + 12, f.d.2, f.src, f.k.2)
  {
    hide Assignment, Channel, Painting, ChannelAtPos, SpellsAt;
    var a := Assignment(Global(f.d.0), Channel(f.cap, f.src, f.k.0, w.first));
    var b := Assignment(Global(f.d.1), Channel(f.cap, f.src, f.k.1, w.second));
    var c := Assignment(Global(f.d.2), Channel(f.cap, f.src, f.k.2, w.third));
    var paint := Painting(Global(f.d.0), Global(f.d.1), Global(f.d.2), Global(f.column), Global(f.row));
    ChannelCode(f.d.0, f.cap, f.src, f.k.0, w.first);
    ChannelCode(f.d.1, f.cap, f.src, f.k.1, w.second);
    ChannelCode(f.d.2, f.cap, f.src, f.k.2, w.third);
    SpellsPart(d, pos, a + b + c, paint);
    SpellsPart(d, pos, a + b, c);
    SpellsPart(d, pos, a, b);
    ChannelReads(d, pos, f.d.0, f.cap, f.src, f.k.0, w.first);
    ChannelReads(d, pos + 6, f.d.1, f.cap, f.src, f.k.1, w.second);
    ChannelReads(d, pos + 12, f.d.2, f.cap, f.src, f.k.2, w.third);
  }

  lemma {:induction false} RealCode(f: Instr)
    requires f.FComplex?
    ensures Assignment(Global(f.t), RealPart(f)) ==
            [ILoad(Global(f.zx)), ILoad(Global(f.zx)), IBin(Mul), ILoad(Global(f.zy)), ILoad(Global(f.zy)),
                IBin(Mul), IBin(Sub),
             ILoad(Global(f.re)), IBin(Add), IStore(Global(f.t))]
  {
    var xx, yy := Bin(Mul, G(f.zx), G(f.zx)), Bin(Mul, G(f.zy), G(f.zy));
    assert Code(xx) == [ILoad(Global(f.zx)), ILoad(Global(f.zx)), IBin(Mul)];
    assert Code(yy) == [ILoad(Global(f.zy)), ILoad(Global(f.zy)), IBin(Mul)];
    assert Code(Bin(Sub, xx, yy)) == Code(xx) + Code(yy) + [IBin(Sub)];
    assert Code(G(f.re)) == [ILoad(Global(f.re))];
    assert Code(RealPart(f)) == Code(Bin(Sub, xx, yy)) + Code(G(f.re)) + [IBin(Add)];
  }

  lemma {:induction false} ImagCode(f: Instr)
    requires f.FComplex?
    ensures Assignment(Global(f.zy), ImagPart(f)) ==
            [ILoad(Literal(TWO)), ILoad(Global(f.zx)), IBin(Mul), ILoad(Global(f.zy)), IBin(Mul),
                ILoad(Global(f.im)), IBin(Add),
             IStore(Global(f.zy))]
  {
    var twice := Bin(Mul, C(TWO), G(f.zx));
    assert Code(twice) == [ILoad(Literal(TWO)), ILoad(Global(f.zx)), IBin(Mul)];
    assert Code(Bin(Mul, twice, G(f.zy))) == Code(twice) + Code(G(f.zy)) + [IBin(Mul)];
    assert Code(G(f.zy)) == [ILoad(Global(f.zy))] && Code(G(f.im)) == [ILoad(Global(f.im))];
    assert Code(ImagPart(f)) == Code(Bin(Mul, twice, G(f.zy))) + Code(G(f.im)) + [IBin(Add)];
  }

  lemma {:induction false} TestStarts(f: Instr)
    requires f.FComplex?
    ensures var test := BranchCode(EscapeTest(f.either, f.zx, f.zy, f.limit), f.target);
            |test| >= 2 && test[0] == ILoad(Global(f.zx)) && test[1] == ILoad(Global(f.zx))
  {
    var xx := Bin(Mul, G(f.zx), G(f.zx));
    assert Code(xx) == [ILoad(Global(f.zx)), ILoad(Global(f.zx)), IBin(Mul)];
    assert Code(Bin(Gt, xx, C(f.limit))) == Code(xx) + Code(C(f.limit)) + [IBin(Gt)];
    assert Code(SquareSum(f.zx, f.zy)) == Code(xx) + Code(Bin(Mul, G(f.zy), G(f.zy))) + [IBin(Add)];
  }

  /** What a complex iteration at `pos` says about its fields. */
  ghost predicate ComplexAtPos(d: seq<Instr>, pos: nat, f: Instr)
    requires f.FComplex?
  {
    pos + 21 < |d| && d[pos] == ILoad(Global(f.zx)) && d[pos + 3] == ILoad(Global(f.zy)) &&
        d[pos + 9] == IStore(Global(f.t)) &&
    d[pos + 15] == ILoad(Global(f.im)) &&
    d[pos + 20] == ILoad(Global(if f.move.Some? then f.move.value.1 else f.zx)) &&
    d[pos + 21] == if f.move.Some? then IStore(Global(f.move.value.0)) else ILoad(Global(f.zx))
  }

  lemma {:induction false} IterationReads(d: seq<Instr>, pos: nat, f: Instr)
    requires f.FComplex? && SpellsAt(d, pos, IterationCode(f))
    ensures |IterationCode(f)| == 20 && pos + 15 < |d|
    ensures d[pos] == ILoad(Global(f.zx)) && d[pos + 3] == ILoad(Global(f.zy)) && d[pos + 9] == IStore(Global(f.t)) &&
        d[pos + 15] == ILoad(Global(f.im))
  {
    hide Assignment, RealPart, ImagPart;
    var a, b, c := Assignment(Global(f.t), RealPart(f)), Assignment(Global(f.zy), ImagPart(f)),
        Assignment(Global(f.zx), G(f.t));
    RealCode(f);
    ImagCode(f);
    MoveLength(f.zx, f.t);
    SpellsPart(d, pos, a + b, c);
    SpellsPart(d, pos, a, b);
    assert d[pos + 0] == a[0] && d[pos + 3] == a[3] && d[pos + 9] == a[9];
    assert d[pos + 10 + 5] == b[5];
  }

  lemma {:induction false} ComplexReads(d: seq<Instr>, pos: nat, f: Instr)
    requires f.FComplex? && SpellsAt(d, pos, ComplexCode(f))
    ensures ComplexAtPos(d, pos, f)
  {
    hide Assignment, IterationCode, BranchCode, EscapeTest;
    var test := BranchCode(EscapeTest(f.either, f.zx, f.zy, f.limit), f.target);
    TestStarts(f);
    SpellsPart(d, pos, IterationCode(f) + MoveCode(f.move), test);
    SpellsPart(d, pos, IterationCode(f), MoveCode(f.move));
    IterationReads(d, pos, f);
    if f.move.Some? {
      MoveLength(f.move.value.0, f.move.value.1);
      assert d[pos + 20 + 0] == MoveCode(f.move)[0] && d[pos + 20 + 1] == MoveCode(f.move)[1];
    } else {
      assert d[pos + 20 + 0] == test[0] && d[pos + 20 + 1] == test[1];
    }
  }

  lemma {:induction false} MoveLength(dst: int, src: int)
    ensures Assignment(Global(dst), G(src)) == [ILoad(Global(src)), IStore(Global(dst))]
  {
    assert Code(G(src)) == [ILoad(Global(src))];
  }

  /** However the same original operations are read, they alias alike. */
  lemma {:induction false} OneReading(d: seq<Instr>, pos: nat, f: Instr, w: Order, g: Instr, v: Order)
    requires Crosses(f) && Crosses(g) && SpellsAt(d, pos, Spell(f, w)) && SpellsAt(d, pos, Spell(g, v))
    ensures AliasFree(f) == AliasFree(g)
  {
    hide Spell, SpellsAt, ComplexCode;
    if f.FMinMul? { MinMulReads(d, pos, f, w); } else { ComplexSpelledAs(f, w); ComplexReads(d, pos, f); }
    if g.FMinMul? { MinMulReads(d, pos, g, v); } else { ComplexSpelledAs(g, v); ComplexReads(d, pos, g); }
  }

  lemma {:induction false} ComplexSpelledAs(f: Instr, w: Order)
    requires f.FComplex?
    ensures Spell(f, w) == ComplexCode(f)
  {}

  // ---------- slot by slot, exactly when ----------

  /** The original operations a fused slot covers. */
  function Covered(p: Program, raw: seq<Op>, k: nat, f: Instr): seq<Instr>
    requires k + |Spell(f, PLAIN)| <= |raw|
  {
    Decoded(p.pool, raw)[k..k + |Spell(f, PLAIN)|]
  }

  /** On every lawful machine, from every state, the fused slot does what the operations it covers do. */
  ghost predicate SlotMeans(p: Program, raw: seq<Op>, k: nat, f: Instr) {
    k + |Spell(f, PLAIN)| <= |raw| &&
    forall m: Machine, code: seq<Op>, st: State :: m.symbols == Symbols(p) && Lawful(m.arith) && !HandsOver(m, st, f) ==>
      SameOrOverflow(Exec(m, code, Covered(p, raw, k, f), st), StepInstr(m, code, st, Core(f)))
  }

  /** The original operations from slot `k` on spell nothing aliased. */
  ghost predicate SpanAliasFree(p: Program, raw: seq<Op>, k: nat) {
    forall g: Instr, v: Order :: Crosses(g) && SpellsAt(Decoded(p.pool, raw), k, Spell(g, v)) ==> AliasFree(g)
  }

  lemma {:induction false} SpellLength(f: Instr, w: Order)
    ensures |Spell(f, w)| == |Spell(f, PLAIN)|
  {
    hide Code, Painting;
    match f
    case FPush(e) => if ConstantTimes(e) { CodeSizes(e); }
    case FMinMul(_, _, _, _, _, _) => MinMulIsShort(f, w); MinMulIsShort(f, PLAIN);
    case _ =>
  }

  lemma {:induction false} CodeSizes(e: Expr)
    requires ConstantTimes(e)
    ensures |Code(Bin(Mul, e.r, e.l))| == |Code(e)| == 3
  {}

  lemma {:induction false} CoveredIsSpelled(p: Program, raw: seq<Op>, k: nat, f: Instr, w: Order)
    requires SpellsAt(Decoded(p.pool, raw), k, Spell(f, w))
    ensures k + |Spell(f, PLAIN)| <= |raw| && Covered(p, raw, k, f) == Spell(f, w)
  {
    hide Spell, Decode;
    SpellLength(f, w);
    var d := Decoded(p.pool, raw);
    assert d[k..k + |Spell(f, w)|] == Spell(f, w);
  }

  lemma {:induction false} BytesAreNatural(pool: seq<Num>, op: Op)
    ensures var f := Decode(pool, op); f.FMinMul? ==> f.k.0 >= 0 && f.k.1 >= 0 && f.k.2 >= 0
  {
    hide Field6, Field7, EscapeTest, Constant;
  }

  /** Each slot the optimizer fuses means the original operations it covers if and only if those
      operations spell nothing aliased; slots that stay within one statement always do. */
  lemma {:induction false} FusesRightExactlyWhenAliasFree(p: Program, raw: seq<Op>, k: nat)
    requires Unfused(p, raw) && SlotsFit(p) && k < |raw|
    requires |Optimized(p, raw)| == |raw| && FusedInstr(Decode(p.pool, Optimized(p, raw)[k]))
    ensures var f := Decode(p.pool, Optimized(p, raw)[k]);
            SlotMeans(p, raw, k, f) <==> (Crosses(f) ==> SpanAliasFree(p, raw, k))
  {
    hide Optimized, Decode, Spell, Exec, StepInstr, Lawful, OperandsOk, HandsOver, Unfused, SpellsAt, Covered;
    var d, f := Decoded(p.pool, raw), Decode(p.pool, Optimized(p, raw)[k]);
    OptimizedIsFaithful(p, raw);
    assert Stands(p, d, k, Optimized(p, raw)[k]);
    var w :| SpellsAt(d, k, Spell(f, w));
    CoveredIsSpelled(p, raw, k, f, w);
    NeverMin(p.pool, Optimized(p, raw)[k]);
    if Crosses(f) {
      forall g: Instr, v: Order | Crosses(g) && SpellsAt(d, k, Spell(g, v)) ensures AliasFree(g) == AliasFree(f) {
        OneReading(d, k, f, w, g, v);
      }
    }
    if AliasFree(f) {
      forall m: Machine, code: seq<Op>, st: State | m.symbols == Symbols(p) && Lawful(m.arith) && !HandsOver(m, st, f)
        ensures SameOrOverflow(Exec(m, code, Covered(p, raw, k, f), st), StepInstr(m, code, st, Core(f)))
      {
        SpanMeaning(m, code, f, w, st);
      }
    } else {
      BytesAreNatural(p.pool, Optimized(p, raw)[k]);
      SpanDiffers(Symbols(p), f, w);
    }
  }

  lemma {:induction false} SpanDiffers(symbols: nat, f: Instr, w: Order)
    requires FusedInstr(f) && OperandsOk(symbols, f) && !AliasFree(f)
    requires f.FMinMul? ==> f.k.0 >= 0 && f.k.1 >= 0 && f.k.2 >= 0
    ensures exists m: Machine, code: seq<Op>, st: State :: m.symbols == symbols && Lawful(m.arith) && !HandsOver(m, st, f) &&
              !SameOrOverflow(Exec(m, code, Spell(f, w), st), StepInstr(m, code, st, Core(f)))
  {
    hide Exec, Spell, StepInstr, Lawful, OperandsOk, Witness;
    if f.FMinMul? {
      MinMulDiffers(symbols, f, w);
      WitnessIsLawful(symbols, -1);
      assert Witness(symbols, -1).symbols == symbols;
    } else {
      var d := ComplexDiffers(symbols, f);
      ComplexSpelledAs(f, w);
      WitnessIsLawful(symbols, d);
      assert Witness(symbols, d).symbols == symbols;
    }
  }

  // ---------- a program that goes wrong ----------

  // X, Y, C and T; T = X*X - Y*Y + C : Y = 2*X*Y + T : X = T : IF X*X + Y*Y > 4 ...
  const ALIASED := Program([Whole(2), Whole(4)], [false, false, false, false], [0], [], true)

  function Load(slot: int): Op { Op(LoadNum, 0, 0, slot, 0) }
  function Store(slot: int): Op { Op(StoreNum, 0, 0, slot, 0) }
  function Push(k: int): Op { Op(PushNum, 0, 0, k, 0) }
  function Bare(c: OpCode): Op { Op(c, 0, 0, 0, 0) }

  /** The loop's statements, then HALT on escape and HALT otherwise. */
  const RAW: seq<Op> :=
    [Load(0), Load(0), Bare(MulNum), Load(1), Load(1), Bare(MulNum), Bare(SubNum), Load(2), Bare(AddNum), Store(3),
     Push(0), Load(0), Bare(MulNum), Load(1), Bare(MulNum), Load(3), Bare(AddNum), Store(1),
     Load(3), Store(0),
     Load(0), Load(0), Bare(MulNum), Load(1), Load(1), Bare(MulNum), Bare(AddNum), Push(1), Bare(CgtNum), Op(Jz, 0,
         0, 31, 0),
     Bare(Halt), Bare(Halt)]

  /** The loop superinstruction with its imaginary addend in the temporary. */
  const FUSED := FComplex(0, 1, 2, 3, 3, false, Whole(4), 31, None, false)

  const FUSED_REAL := Op(MulSubAddStore, 0, 0, Pack6(3, 0, 0, 1, 1), 2)
  const FUSED_IMAG := Op(MulCvvAddStore, 0, 0, Pack6(1, 0, 1, 3, 0), 0)
  const FUSED_TAKE := Op(MovNum, 0, 0, 0, 3)
  const FUSED_TEST := Op(SumSqGtJz, 0, Pack6(0, 1, 0, 0, 0), 31, 1)
  const FUSED_LOOP := Op(ComplexIterSumSqJz, 0, 0, Pack6(0, 1, 2, 3, 3), 31 + 4096 * 1)

  predicate Quiet(op: Op) {
    op.code in {LoadNum, StoreNum, PushNum, MulNum, AddNum, SubNum, CgtNum}
  }

  lemma {:induction false} RawIsQuiet()
    ensures |RAW| == 32 && forall k :: 0 <= k < 29 ==> Quiet(RAW[k]) && RAW[k].a >= 0
    ensures RAW[29] == Op(Jz, 0, 0, 31, 0) && RAW[30] == RAW[31] == Bare(Halt)
  {}

  /** No line starts and no control arrives inside the loop's code. */
  ghost predicate StraightTo30(t: seq<Mark>) { |t| == 32 && forall i :: 0 < i < 30 ==> !t[i].line && !t[i].flow }

  lemma {:induction false} QuietFlow(op: Op, k: int)
    requires Quiet(op)
    ensures FlowTargets(op, k) == {}
  {}

  lemma {:induction false} RawIsStraight()
    ensures StraightTo30(Marks(ALIASED, RAW))
  {
    RawIsQuiet();
    hide FlowTargets;
    forall i | 0 < i < 30 ensures !IsFlow(ALIASED, RAW, i) {
      forall k | 0 <= k < |RAW| ensures i !in FlowTargets(RAW[k], k) {
        if k < 29 { QuietFlow(RAW[k], k); } else { LastFlow(k); }
      }
    }
  }

  lemma {:induction false} LastFlow(k: int)
    requires 29 <= k < 32
    ensures forall i :: i in FlowTargets(RAW[k], k) ==> i >= 30
  {
    RawIsQuiet();
  }

  // ---------- the passes over it ----------

  predicate RealAt(code: seq<Op>) {
    |code| == 32 && code[0] == code[1] == Load(0) && code[2] == Bare(MulNum) && code[3] == code[4] == Load(1) &&
    code[5] == Bare(MulNum) && code[6] == Bare(SubNum) && code[7] == Load(2) && code[8] == Bare(AddNum) &&
        code[9] == Store(3)
  }

  predicate ImagAt(code: seq<Op>) {
    |code| == 32 && code[10] == Push(0) && code[11] == Load(0) && code[12] == Bare(MulNum) && code[13] == Load(1) &&
    code[14] == Bare(MulNum) && code[15] == Load(3) && code[16] == Bare(AddNum) && code[17] == Store(1)
  }

  predicate TakeAt(code: seq<Op>) { |code| == 32 && code[18] == Load(3) && code[19] == Store(0) && code[20] == Load(0) }

  predicate TestAt(code: seq<Op>) {
    |code| == 32 && code[20] == code[21] == Load(0) && code[22] == Bare(MulNum) && code[23] == code[24] == Load(1) &&
    code[25] == Bare(MulNum) && code[26] == Bare(AddNum) && code[27] == Push(1) && code[28] == Bare(CgtNum) &&
    code[29] == Op(Jz, 0, 0, 31, 0) && code[30] == code[31] == Bare(Halt)
  }

  lemma {:induction false} RawParts()
    ensures RealAt(RAW) && ImagAt(RAW) && TakeAt(RAW) && TestAt(RAW)
  {}

  lemma {:induction false} FusesReal(t: seq<Mark>, code: seq<Op>)
    requires StraightTo30(t) && RealAt(code)
    ensures FirstMatch(ALIASED, t, code, 0) == Fuse(FUSED_REAL, 10)
  {
    hide AddProductAt, ProductAddAt, MulCvvAddAt, Sq2At, SumSqAt, ConditionAt, RgbPsetAt, VvStoreAt, MulCvAt,
        VvPushAt, MoveAt, Pack6,
      TailIsStraight;
    TailTo30(t, 0, 10);
  }

  lemma {:induction false} PushOnlyStarts(t: seq<Mark>, code: seq<Op>, i: nat)
    requires Is(code, i, PushNum)
    ensures MulSubAddAt(ALIASED, t, code, i) == AddProductAt(ALIASED, t, code, i) == ProductAddAt(ALIASED, t, code,
        i) == Keep
  {
    hide TailIsStraight;
  }

  lemma {:induction false} FusesImag(t: seq<Mark>, code: seq<Op>)
    requires StraightTo30(t) && ImagAt(code)
    ensures FirstMatch(ALIASED, t, code, 10) == Fuse(FUSED_IMAG, 8)
  {
    hide MulSubAddAt, AddProductAt, ProductAddAt, Sq2At, SumSqAt, ConditionAt, RgbPsetAt, VvStoreAt, MulCvAt,
        VvPushAt, MoveAt, Pack6,
      TailIsStraight;
    PushOnlyStarts(t, code, 10);
    TailTo30(t, 10, 8);
  }

  /** A load and a store before another load: only a move matches. */
  lemma {:induction false} FusesTake(t: seq<Mark>, code: seq<Op>)
    requires StraightTo30(t) && TakeAt(code)
    ensures FirstMatch(ALIASED, t, code, 18) == Fuse(FUSED_TAKE, 2)
  {
    hide TailIsStraight;
    TailTo30(t, 18, 2);
  }

  lemma {:induction false} TailTo30(t: seq<Mark>, i: nat, n: nat)
    requires StraightTo30(t) && i + n <= 30
    ensures TailIsStraight(t, i, n) && FlowIsStraight(t, i, n)
  {}

  lemma {:induction false} NotBeforeTest(t: seq<Mark>, code: seq<Op>, i: nat)
    requires i + 10 <= |code| && code[i].code == LoadNum && code[i + 2].code == MulNum && code[i + 3].code == LoadNum
    requires code[i + 4].code == LoadNum && code[i + 6].code == AddNum
    ensures MulSubAddAt(ALIASED, t, code, i) == AddProductAt(ALIASED, t, code, i) == ProductAddAt(ALIASED, t, code,
        i) == Keep
    ensures MulCvvAddAt(ALIASED, t, code, i) == Sq2At(ALIASED, t, code, i) == Keep
  {
    hide TailIsStraight;
  }

  lemma {:induction false} FusesTest(t: seq<Mark>, code: seq<Op>)
    requires StraightTo30(t) && TestAt(code)
    ensures FirstMatch(ALIASED, t, code, 20) == Fuse(FUSED_TEST, 10)
  {
    hide TailIsStraight, MulSubAddAt, AddProductAt, ProductAddAt, MulCvvAddAt, Sq2At, ConditionAt, RgbPsetAt,
        VvStoreAt, MulCvAt,
      VvPushAt, MoveAt, Pack6;
    NotBeforeTest(t, code, 20);
    TailTo30(t, 20, 10);
  }

  lemma {:induction false} KeepsHalt(t: seq<Mark>, code: seq<Op>, i: nat)
    requires i < |code| && code[i].code == Halt
    ensures FirstMatch(ALIASED, t, code, i) == Keep
  {
    hide TailIsStraight;
  }

  /** The code after the first pass. */
  function AfterFirst(raw: seq<Op>): seq<Op>
    requires |raw| == 32
  {
    raw[0 := FUSED_REAL][10 := FUSED_IMAG][18 := FUSED_TAKE][20 := FUSED_TEST]
  }

  lemma {:induction false} FirstPassGives(t: seq<Mark>, raw: seq<Op>)
    requires StraightTo30(t) && RealAt(raw) && ImagAt(raw) && TakeAt(raw) && TestAt(raw)
    ensures SweepAll(FirstPass, ALIASED, t, raw) == AfterFirst(raw)
  {
    hide FirstMatch, Pack6;
    var c1 := raw[0 := FUSED_REAL];
    var c2 := c1[10 := FUSED_IMAG];
    var c3 := c2[18 := FUSED_TAKE];
    var c4 := AfterFirst(raw);
    FusesReal(t, raw);
    assert Sweep(FirstPass, ALIASED, t, raw, 0, 32) == Sweep(FirstPass, ALIASED, t, c1, 10, 32);
    FusesImag(t, c1);
    assert Sweep(FirstPass, ALIASED, t, c1, 10, 32) == Sweep(FirstPass, ALIASED, t, c2, 18, 32);
    FusesTake(t, c2);
    assert Sweep(FirstPass, ALIASED, t, c2, 18, 32) == Sweep(FirstPass, ALIASED, t, c3, 20, 32);
    FusesTest(t, c3);
    assert Sweep(FirstPass, ALIASED, t, c3, 20, 32) == Sweep(FirstPass, ALIASED, t, c4, 30, 32);
    KeepsHalt(t, c4, 30);
    KeepsHalt(t, c4, 31);
    assert Sweep(FirstPass, ALIASED, t, c4, 31, 32) == c4;
  }

  /** The first pass has left the two assignments, the move and the test. */
  predicate LoopParts(code: seq<Op>) {
    |code| == 32 && code[0] == FUSED_REAL && code[10] == FUSED_IMAG && code[18] == FUSED_TAKE &&
        code[20] == FUSED_TEST &&
    code[31].code == Halt
  }

  lemma {:induction false} FusesCondition(t: seq<Mark>, code: seq<Op>)
    requires StraightTo30(t) && LoopParts(code)
    ensures ComplexCondition(ALIASED, t, code, 0, Pack6(0, 1, 2, 3, 3)) == Fuse(FUSED_LOOP, 30)
  {
    hide FlowIsStraight, Pack6, Field6;
    TailTo30(t, 0, 30);
    Unpack6(0, 1, 0, 0, 0);
    Unpack6(0, 1, 2, 3, 3);
  }

  lemma {:induction false} FusesLoop(t: seq<Mark>, code: seq<Op>)
    requires StraightTo30(t) && LoopParts(code)
    ensures ComplexAt(ALIASED, t, code, 0) == Fuse(FUSED_LOOP, 30)
  {
    hide ComplexCondition, Pack6, Field6;
    FusesCondition(t, code);
    Unpack6(3, 0, 0, 1, 1);
    Unpack6(1, 0, 1, 3, 0);
    assert Field6(2, 0) == 2 by { FieldOfSlot(2); }
  }

  lemma {:induction false} TooShort(t: seq<Mark>, code: seq<Op>, i: nat)
    requires |code| <= i + 20
    ensures ComplexAt(ALIASED, t, code, i) == Keep
  {}

  lemma {:induction false} ComplexPassGives(t: seq<Mark>, was: seq<Op>)
    requires StraightTo30(t) && LoopParts(was)
    ensures SweepAll(ComplexPass, ALIASED, t, was) == was[0 := FUSED_LOOP]
  {
    hide ComplexAt, Pack6;
    FusesLoop(t, was);
    var code := was[0 := FUSED_LOOP];
    assert Sweep(ComplexPass, ALIASED, t, was, 0, 32) == Sweep(ComplexPass, ALIASED, t, code, 30, 32);
    TooShort(t, code, 30);
    TooShort(t, code, 31);
    assert Sweep(ComplexPass, ALIASED, t, code, 31, 32) == code;
  }

  predicate Later(pass: Pass) { !pass.LocalPass? && !pass.FirstPass? }

  /** Operations no later pass starts a match on. */
  predicate Settled(op: Op) { op.code == ComplexIterSumSqJz || op.code == AddVvStore }

  lemma {:induction false} LaterKeeps(pass: Pass, p: Program, t: seq<Mark>, code: seq<Op>)
    requires Later(pass) && |code| > 0 && Settled(code[0])
    ensures Match(pass, p, t, code, 0) == Keep
  {
    hide FlowIsStraight, TailIsStraight, PaintTail, PaintsFrom, Pack6, PackBytes, NumericSlot;
  }

  lemma {:induction false} SweepLeaves(pass: Pass, p: Program, t: seq<Mark>, code: seq<Op>, i: nat, end: nat)
    requires end <= |code|
    ensures |Sweep(pass, p, t, code, i, end)| == |code| && (i > 0 && |code| > 0 ==> Sweep(pass, p, t, code, i, end)[0] == code[0])
    decreases end - i
  {
    hide Match;
    if i < end {
      var f := Match(pass, p, t, code, i);
      if f.Fuse? { SweepLeaves(pass, p, t, code[i := f.op], i + f.length, end); }
          else { SweepLeaves(pass, p, t, code, i + 1, end); }
    }
  }

  lemma {:induction false} LaterPassKeeps(pass: Pass, p: Program, t: seq<Mark>, code: seq<Op>)
    requires Later(pass) && |code| > 0 && Settled(code[0])
    ensures var c := SweepAll(pass, p, t, code); |c| == |code| && c[0] == code[0]
  {
    hide Match, Settled;
    LaterKeeps(pass, p, t, code);
    SweepLeaves(pass, p, t, code, 1, |code|);
  }

  lemma {:induction false} LaterPassesKeep(p: Program, t: seq<Mark>, c0: seq<Op>)
    requires |c0| > 0 && Settled(c0[0])
    ensures var c2 := SweepAll(SpecializePass, p, t, SweepAll(PixelPass, p, t, c0));
            var c4 := SweepAll(GrayTailPass, p, t, SweepAll(GrayAgainPass, p, t, c2));
            var c5 := SweepAll(ResidualPass, p, t, c4);
            |c5| == |c0| && c5[0] == c0[0]
  {
    hide SweepAll, Settled;
    LaterPassKeeps(PixelPass, p, t, c0);
    var c1 := SweepAll(PixelPass, p, t, c0);
    LaterPassKeeps(SpecializePass, p, t, c1);
    var c2 := SweepAll(SpecializePass, p, t, c1);
    LaterPassKeeps(GrayAgainPass, p, t, c2);
    var c3 := SweepAll(GrayAgainPass, p, t, c2);
    LaterPassKeeps(GrayTailPass, p, t, c3);
    LaterPassKeeps(ResidualPass, p, t, SweepAll(GrayTailPass, p, t, c3));
  }

  lemma {:induction false} SourceIsFused(raw: seq<Op>)
    requires StraightTo30(Marks(ALIASED, raw)) && RealAt(raw) && ImagAt(raw) && TakeAt(raw) && TestAt(raw)
    ensures |Optimized(ALIASED, raw)| == 32 && Optimized(ALIASED, raw)[0] == FUSED_LOOP
  {
    hide SweepAll, Marks, Pack6;
    var t := Marks(ALIASED, raw);
    assert SweepFunctions(ALIASED, t, raw, 0) == raw;
    FirstPassGives(t, raw);
    ComplexPassGives(t, AfterFirst(raw));
    LaterPassesKeep(ALIASED, t, AfterFirst(raw)[0 := FUSED_LOOP]);
  }

  /** The optimizer fuses the aliased loop. */
  lemma {:induction false} AliasedLoopIsFused()
    ensures |Optimized(ALIASED, RAW)| == |RAW| == 32 &&
        Decode(ALIASED.pool, Optimized(ALIASED, RAW)[0]) == FUSED && !AliasFree(FUSED)
  {
    hide Decode, Marks, Optimized, StraightTo30, RealAt, ImagAt, TakeAt, TestAt;
    RawIsQuiet();
    RawParts();
    RawIsStraight();
    SourceIsFused(RAW);
    Pipelines.DecodesComplex(ALIASED.pool, false, 0, 1, 2, 3, 3, 31, 1, None, false);
  }

  // ---------- running it ----------

  lemma {:induction false} RawIsUnfused()
    ensures Unfused(ALIASED, RAW) && SlotsFit(ALIASED)
  {
    hide Decode, FusedInstr;
    RawIsQuiet();
    forall k | 0 <= k < |RAW| ensures !FusedInstr(Decode(ALIASED.pool, RAW[k])) &&
      (RAW[k].code == PushNum ==> RAW[k].a >= 0) {
      QuietIsUnfused(ALIASED.pool, RAW[k]);
    }
  }

  lemma {:induction false} QuietIsUnfused(pool: seq<Num>, op: Op)
    requires Quiet(op) || op.code == Jz || op.code == Halt
    ensures !FusedInstr(Decode(pool, op))
  {}

  lemma {:induction false} SpellStarts(f: Instr, w: Order)
    requires FusedInstr(f)
    ensures |Spell(f, w)| >= 1 && Spell(f, w)[0] != IHalt
  {
    hide Code, Painting, Assignment, BranchCode, ComplexCode, Channel;
    SpellIsStraight(f, w);
    if f.FPush? {
      CodeIsStraight(f.e);
      NonEmpty(f.e);
      if ConstantTimes(f.e) { CodeIsStraight(Bin(Mul, f.e.r, f.e.l)); }
    } else {
      SpellIsLong(f, w);
    }
  }

  lemma {:induction false} SpellIsLong(f: Instr, w: Order)
    requires FusedInstr(f) && !f.FPush?
    ensures |Spell(f, w)| >= 2
  {
    match f
    case FAssign(_, e) => NonEmpty(e);
    case FBranch(e, _) => NonEmpty(e);
    case FMinMul(_, _, _, _, _, _) => MinMulIsShort(f, w);
    case FComplex(_, _, _, _, _, _, _, _, _, _) => IterationIsLong(f);
    case _ =>
  }

  lemma {:induction false} IterationIsLong(f: Instr)
    requires f.FComplex?
    ensures |ComplexCode(f)| >= 2
  {
    hide RealPart, ImagPart;
    RealCode(f);
  }

  /** A HALT stays a HALT. */
  lemma {:induction false} HaltStands(p: Program, raw: seq<Op>, k: nat)
    requires Unfused(p, raw) && SlotsFit(p) && k < |raw| && Decode(p.pool, raw[k]) == IHalt
    ensures k < |Optimized(p, raw)| && Decode(p.pool, Optimized(p, raw)[k]) == IHalt
  {
    hide Optimized, Decode, Spell, OperandsOk, FusedInstr, Unfused;
    OptimizedIsFaithful(p, raw);
    var d, f := Decoded(p.pool, raw), Decode(p.pool, Optimized(p, raw)[k]);
    assert Stands(p, d, k, Optimized(p, raw)[k]);
    assert !FusedInstr(f) by {
      if FusedInstr(f) {
        var w :| SpellsAt(d, k, Spell(f, w));
        SpellIsStraight(f, w);
        assert d[k + 0] == Spell(f, w)[0];
        SpellStarts(f, w);
      }
    }
  }

  function OnWholes(x: Num, y: Num, f: (int, int) -> int): Num { if x.Whole? && y.Whole? then Whole(f(x.n, y.n)) else ZERO }

  /** Addition, subtraction and multiplication of whole numbers as anyone knows them; the loop does not divide. */
  function Ordinary(op: BinOp, x: Num, y: Num): Num {
    match op
    case Add => OnWholes(x, y, (a, b) => a + b)
    case Sub => OnWholes(x, y, (a, b) => a - b)
    case Mul => OnWholes(x, y, (a, b) => a * b)
    case _ => ZERO
  }

  function Compared(op: BinOp, x: Num, y: Num): bool {
    x.Whole? && y.Whole? &&
    match op
    case Eq => x.n == y.n
    case Ne => x.n != y.n
    case Lt => x.n < y.n
    case Le => x.n <= y.n
    case Gt => x.n > y.n
    case Ge => x.n >= y.n
    case _ => false
  }

  const MACHINE := Machine(Arith(Ordinary, Compared, IsZero, Same, NoText, NoFunction), ALIASED.pool, 4, 100, NoOther)

  /** X, Y and T are zero and C is one. */
  const FIRST := START.(globals := map[2 := Whole(1)])

  lemma {:induction false} OrdinaryIsLawful()
    ensures Lawful(MACHINE.arith)
  {}

  /** The variables the original loop leaves, and those the fused one leaves: Y is 1 in one, 0 in the other. */
  lemma {:induction false} LoopsLeave()
    ensures ComplexSpelled(MACHINE, RAW, FIRST, FUSED) == Run(FIRST.(globals :=
        Iterated(MACHINE, FIRST, FUSED), pc := 31))
    ensures StepComplex(MACHINE, Optimized(ALIASED, RAW), FIRST, FUSED) == Run(FIRST.(globals :=
        ComplexVars(MACHINE, FIRST, FUSED), pc := 31))
    ensures Get(Iterated(MACHINE, FIRST, FUSED), 1) == Whole(1) &&
        Get(ComplexVars(MACHINE, FIRST, FUSED), 1) == Whole(0)
  {
    hide Optimized;
    AliasedLoopIsFused();
    RawIsQuiet();
    assert ComplexReal(MACHINE, FIRST, FUSED) == Whole(1) && ComplexImag(MACHINE, FIRST, FUSED) == Whole(0);
    var g1 := FIRST.globals[3 := Whole(1)];
    assert ComplexImag(MACHINE, FIRST.(globals := g1), FUSED) == Whole(1);
    assert Iterated(MACHINE, FIRST, FUSED) == g1[1 := Whole(1)][0 := Whole(1)];
  }

  lemma {:induction false} HaltEnds(m: Machine, code: seq<Op>, st: State)
    requires 0 <= st.pc < |code| && Decode(m.pool, code[st.pc]) == IHalt
    ensures RunN(m, code, Run(st), 1) == Done(st)
  {
    hide Decode;
    OneStep(m, code, st);
  }

  lemma {:induction false} RawSpellsLoop()
    ensures SpellsAt(Decoded(ALIASED.pool, RAW), 0, ComplexCode(FUSED))
  {
    hide Decode, Spell, OperandsOk, SpellsAt, ComplexCode, Optimized;
    RawIsUnfused();
    AliasedLoopIsFused();
    OptimizedIsFaithful(ALIASED, RAW);
    RawIsQuiet();
    var d := Decoded(ALIASED.pool, RAW);
    assert Stands(ALIASED, d, 0, Optimized(ALIASED, RAW)[0]);
    var w :| SpellsAt(d, 0, Spell(FUSED, w));
    ComplexSpelledAs(FUSED, w);
  }

  lemma {:induction false} LoopRuns(code: seq<Op>)
    requires SpellsAt(Decoded(MACHINE.pool, code), 0, ComplexCode(FUSED))
    ensures RunN(MACHINE, code, Run(FIRST), |ComplexCode(FUSED)|) == ComplexSpelled(MACHINE, code, FIRST, FUSED)
  {
    hide Decode, Exec, ComplexCode, ComplexSpelled, StraightBut, SpellsAt, RunN;
    ComplexIsStraight(FUSED);
    ExecIsDispatch(MACHINE, code, 0, ComplexCode(FUSED), FIRST);
    OrdinaryIsLawful();
    ComplexSpelling(MACHINE, code, FUSED, FIRST);
    LoopHasRoom(code);
  }

  lemma {:induction false} LoopHasRoom(code: seq<Op>)
    ensures Exec(MACHINE, code, ComplexCode(FUSED), FIRST) != Overflow
  {
    hide Exec, StraightBut, ComplexCode;
    ComplexIsShort(FUSED);
    ComplexIsStraight(FUSED);
    EndsInJump(FUSED);
    AllSimple(ComplexCode(FUSED), 31);
    NoOverflow(MACHINE, code, ComplexCode(FUSED), FIRST);
  }

  lemma {:induction false} Reaches(m: Machine, code: seq<Op>, st: State, n: nat, mid: State)
    requires RunN(m, code, Run(st), n) == Run(mid) && 0 <= mid.pc < |code| && Decode(m.pool, code[mid.pc]) == IHalt
    ensures Ends(m, code, st, Done(mid))
  {
    hide Decode, RunN;
    HaltEnds(m, code, mid);
    RunAdds(m, code, Run(st), n, 1);
  }

  lemma {:induction false} HaltDecodes(pool: seq<Num>)
    ensures Decode(pool, Bare(Halt)) == IHalt
  {}

  lemma {:induction false} RawLoopEnds() returns (e: State)
    ensures Ends(MACHINE, RAW, FIRST, Done(e)) && Get(e.globals, 1) == Whole(1)
  {
    hide Decode, RunN, ComplexSpelled, ComplexCode, SpellsAt;
    RawIsQuiet();
    LoopsLeave();
    RawSpellsLoop();
    LoopRuns(RAW);
    HaltDecodes(ALIASED.pool);
    e := FIRST.(globals := Iterated(MACHINE, FIRST, FUSED), pc := 31);
    Reaches(MACHINE, RAW, FIRST, |ComplexCode(FUSED)|, e);
  }

  lemma {:induction false} FusedLoopEnds() returns (e: State)
    ensures Ends(MACHINE, Optimized(ALIASED, RAW), FIRST, Done(e)) && Get(e.globals, 1) == Whole(0)
  {
    hide Decode, RunN, Optimized, StepComplex, StepInstr;
    var opt := Optimized(ALIASED, RAW);
    RawIsQuiet();
    RawIsUnfused();
    AliasedLoopIsFused();
    LoopsLeave();
    HaltDecodes(ALIASED.pool);
    HaltStands(ALIASED, RAW, 31);
    OneStep(MACHINE, opt, FIRST);
    ComplexDispatch(MACHINE, opt, FIRST, FUSED);
    e := FIRST.(globals := ComplexVars(MACHINE, FIRST, FUSED), pc := 31);
    Reaches(MACHINE, opt, FIRST, 1, e);
  }

  lemma {:induction false} SameEnd(m: Machine, code: seq<Op>, st: State, o: Outcome, e: Outcome)
    requires Ends(m, code, st, o) && Ends(m, code, st, e)
    ensures o == e
  {
    hide RunN;
    var j: nat :| RunN(m, code, Run(st), j) == o;
    var k: nat :| RunN(m, code, Run(st), k) == e;
    if j <= k { RunAdds(m, code, Run(st), j, k - j); StoppedStays(m, code, o, k - j); }
    else { RunAdds(m, code, Run(st), k, j - k); StoppedStays(m, code, e, j - k); }
  }

  /** T = X*X - Y*Y + C : Y = 2*X*Y + T : X = T : IF X*X + Y*Y > 4, in plain operations, is fused and then
      stops with another Y than the program that was written: from C = 1 and the rest 0, with 0 instead of 1. */
  lemma {:induction false} AliasedProgramGoesWrong() returns (raw: State, opt: State)
    ensures Unfused(ALIASED, RAW) && SlotsFit(ALIASED) && Lawful(MACHINE.arith) && MACHINE.pool == ALIASED.pool &&
        MACHINE.symbols == Symbols(ALIASED)
    ensures Ends(MACHINE, RAW, FIRST, Done(raw)) && Ends(MACHINE, Optimized(ALIASED, RAW), FIRST, Done(opt))
    ensures Get(raw.globals, 1) == Whole(1) && Get(opt.globals, 1) == Whole(0) && !StopAlike(MACHINE, RAW, Optimized(ALIASED, RAW), FIRST) &&
        !RawAliasFree(ALIASED, RAW)
  {
    hide Optimized, Ends, RawAliasFree, Unfused;
    RawIsUnfused();
    OrdinaryIsLawful();
    raw := RawLoopEnds();
    opt := FusedLoopEnds();
    assert !StopAlike(MACHINE, RAW, Optimized(ALIASED, RAW), FIRST) by {
      if Ends(MACHINE, Optimized(ALIASED, RAW), FIRST, Done(raw)) {
        SameEnd(MACHINE, Optimized(ALIASED, RAW), FIRST, Done(raw), Done(opt));
      }
    }
    if RawAliasFree(ALIASED, RAW) { OptimizerPreservesMeaning(ALIASED, MACHINE, RAW, FIRST); }
  }
}
