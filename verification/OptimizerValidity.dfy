/** The optimizer preserves static validity. Marks keep every fused span inside one function, so a
    jump moved to the head of its span still stays in its function, and local spans fit theirs. */
module OptimizerValidity {
  import opened Wrappers
  import opened Il
  import opened Optimizer
  import opened Validation
  import OptimizerProof

  // ---------- spans and function boundaries ----------

  /** No function starts or ends strictly after `from` and up to `to`. */
  ghost predicate NoBoundary(p: Program, from: int, to: int) { forall pc :: from < pc <= to ==> !IsBoundary(p, pc) }

  lemma {:induction false} SameOwner(p: Program, from: int, to: int, f: nat)
    requires NoBoundary(p, from, to) && from <= to
    ensures OwnerFrom(p.functions, from, f) == OwnerFrom(p.functions, to, f)
    decreases |p.functions| - f
  {
    if f < |p.functions| {
      var fn := p.functions[f];
      assert InFunction(fn, from) == InFunction(fn, to) by {
        if from < fn.entry <= to { assert IsBoundary(p, fn.entry); }
        if from < fn.end <= to { assert IsBoundary(p, fn.end); }
      }
      SameOwner(p, from, to, f + 1);
    }
  }

  /** A span without flow marks never crosses a function boundary. */
  lemma {:induction false} StraightSpanStaysInside(p: Program, raw: seq<Op>, i: nat, length: nat, k: nat)
    requires FlowIsStraight(Marks(p, raw), i, length) && k < length && i < |raw|
    ensures Owner(p, i) == Owner(p, i + k)
  {
    forall pc | i < pc <= i + k ensures !IsBoundary(p, pc) {
      assert Marks(p, raw)[pc] == Mark(IsLine(p, pc), IsFlow(p, raw, pc));
    }
    SameOwner(p, i, i + k, 0);
  }

  lemma {:induction false} TailMeansFlow(target: seq<Mark>, i: nat, length: nat)
    requires TailIsStraight(target, i, length)
    ensures FlowIsStraight(target, i, length)
  {}

  /** A span that starts in a function ends in it. */
  lemma {:induction false} EndIsMarked(p: Program, raw: seq<Op>, fn: Function)
    requires fn in p.functions && 0 <= fn.end < |raw|
    ensures Marks(p, raw)[fn.end].flow
  {
    var f :| 0 <= f < |p.functions| && p.functions[f] == fn;
    assert IsBoundary(p, fn.end);
  }

  lemma {:induction false} StraightSpanFits(p: Program, raw: seq<Op>, fn: Function, i: nat, length: nat)
    requires FlowIsStraight(Marks(p, raw), i, length) && fn in p.functions && InFunction(fn, i)
    ensures |Marks(p, raw)| == |raw| ==> i + length <= fn.end
  {
    hide Marks;
    if fn.end < |raw| { EndIsMarked(p, raw, fn); }
  }

  lemma {:induction false} Ordered(p: Program, n: nat, f: nat, g: nat)
    requires FunctionsOk(p, n) && f < g < |p.functions|
    ensures p.functions[f].end <= p.functions[g].entry
    decreases g
  {
    if f < g - 1 {
      Ordered(p, n, f, g - 1);
      assert FunctionOk(p.functions[g - 1], n);
    }
  }

  lemma {:induction false} OwnerIs(p: Program, n: nat, f: nat, pc: int, from: nat)
    requires FunctionsOk(p, n) && f < |p.functions| && InFunction(p.functions[f], pc) && from <= f
    ensures OwnerFrom(p.functions, pc, from) == f
    decreases f - from
  {
    if from < f {
      Ordered(p, n, from, f);
      OwnerIs(p, n, f, pc, from + 1);
    }
  }

  // ---------- what a pass may put into a slot ----------

  /** The part of an operation's check that does not look at its neighbours. */
  ghost predicate OpsOk(p: Program, texts: set<int>, code: seq<Op>) {
    forall i {:trigger code[i]} :: 0 <= i < |code| ==> OpOk(p, texts, |code|, i, code[i])
  }

  ghost predicate TailsKept(code: seq<Op>) {
    forall i {:trigger code[i]} :: 0 <= i < |code| && code[i].code == LocalGrayPsetMulInt ==> GrayTail(code, i)
  }

  /** Operations the check accepts in any slot: those it does not mention. */
  predicate Unchecked(c: OpCode) {
    match c
    case MovNum | AddVvPush | SubVvPush | MulVvPush | MulCvPush | AddVvStore | SubVvStore | MulVvStore | RgbPsetVv
      | MulAddStore | MulSubAddStore | MulCvvAddStore | GrayPsetMulInt | GrayPsetIntStack | RgbPsetMinMul |
      Fn0Num | Fn1Num | Fn2Num | Fn3Num | StoreConstNum | AddVcPush | SubVcPush | DivVcPush => true
    case _ => false
  }

  lemma {:induction false} UncheckedIsOk(p: Program, texts: set<int>, n: nat, i: nat, op: Op)
    requires Unchecked(op.code)
    ensures OpOk(p, texts, n, i, op)
  {}

  lemma {:induction false} JumpIsOk(p: Program, texts: set<int>, n: nat, i: nat, op: Op)
    requires IsJump(op.code)
    ensures OpOk(p, texts, n, i, op) == LocalEdge(p, n, i, op.a)
  {}

  /** A jump at the end of a straight span, moved to its head, stays in its function. */
  lemma {:induction false} MovedJump(
      p: Program, texts: set<int>, raw: seq<Op>, code: seq<Op>, i: nat, length: nat, k: nat, op: Op)
    requires OpsOk(p, texts, code) && |code| == |raw| && FlowIsStraight(Marks(p, raw), i, length) && k < length
    requires IsJump(code[i + k].code) && IsJump(op.code) && op.a == code[i + k].a
    ensures OpOk(p, texts, |code|, i, op)
  {
    hide OpOk, IsJump, Owner;
    StraightSpanStaysInside(p, raw, i, length, k);
    JumpIsOk(p, texts, |code|, i + k, code[i + k]);
    JumpIsOk(p, texts, |code|, i, op);
  }

  ghost predicate Quiet(f: Rewrite) { f.Fuse? ==> Unchecked(f.op.code) }

  /** The jump that ended a span, moved to its head. */
  ghost predicate Moved(t: seq<Mark>, code: seq<Op>, i: nat, f: Rewrite, length: nat) {
    f.Fuse? ==> length > 0 && TailIsStraight(t, i, length) && i + length <= |code| && IsJump(f.op.code) &&
                code[i + length - 1].code == Jz && f.op.a == code[i + length - 1].a
  }

  lemma {:induction false} ExpressionsQuiet(p: Program, t: seq<Mark>, code: seq<Op>, i: nat)
    ensures Quiet(MulSubAddAt(p, t, code, i)) && Quiet(AddProductAt(p, t, code, i)) &&
        Quiet(ProductAddAt(p, t, code, i))
    ensures Quiet(MulCvvAddAt(p, t, code, i)) && Quiet(RgbPsetAt(p, t, code, i)) && Quiet(MoveAt(p, t, code, i))
  {
    hide Pack6, TailIsStraight, NumericSlot, ConstantIndex, Is, Arg, PaintsFrom;
  }

  lemma {:induction false} PairsQuiet(p: Program, t: seq<Mark>, code: seq<Op>, i: nat)
    ensures Quiet(VvStoreAt(p, t, code, i)) && Quiet(VvPushAt(p, t, code, i)) && Quiet(MulCvAt(p, t, code, i))
  {
    hide TailIsStraight, NumericSlot, ConstantIndex, Arg;
  }

  lemma {:induction false} EscapesMove(p: Program, t: seq<Mark>, code: seq<Op>, i: nat)
    ensures Moved(t, code, i, Sq2At(p, t, code, i), 12) && Moved(t, code, i, SumSqAt(p, t, code, i), 10)
  {
    hide Pack6, TailIsStraight, NumericSlot, ConstantIndex, IsJump;
    assert IsJump(Sq2GtOrJz) && IsJump(SumSqGtJz) by { JumpsAre(); }
  }

  lemma {:induction false} JumpsAre()
    ensures IsJump(Sq2GtOrJz) && IsJump(SumSqGtJz) && IsJump(Jz)
  {}

  lemma {:induction false} ConditionMoves(t: seq<Mark>, code: seq<Op>, i: nat)
    ensures Moved(t, code, i, ConditionAt(t, code, i), 2)
  {
    hide TailIsStraight, IsJump;
    if i < |code| && JumpingForm(code[i].code).Some? { JumpingFormJumps(code[i].code); }
  }

  /** Every first-pass rewrite is an unchecked operation, or the jump that ended its span. */
  lemma {:induction false} FirstShape(p: Program, t: seq<Mark>, code: seq<Op>, i: nat) returns (length: nat)
    requires FirstMatch(p, t, code, i).Fuse?
    ensures Quiet(FirstMatch(p, t, code, i)) || Moved(t, code, i, FirstMatch(p, t, code, i), length)
  {
    hide MulSubAddAt, AddProductAt, ProductAddAt, MulCvvAddAt, Sq2At, SumSqAt, ConditionAt, RgbPsetAt, VvStoreAt,
        MulCvAt,
      VvPushAt, MoveAt, Moved, Unchecked;
    ExpressionsQuiet(p, t, code, i);
    PairsQuiet(p, t, code, i);
    EscapesMove(p, t, code, i);
    ConditionMoves(t, code, i);
    length := if Sq2At(p, t, code, i).Fuse? then 12 else if SumSqAt(p, t, code, i).Fuse? then 10 else 2;
  }

  lemma {:induction false} JumpingFormJumps(c: OpCode)
    requires JumpingForm(c).Some?
    ensures IsJump(JumpingForm(c).value)
  {}

  lemma {:induction false} FirstIsOk(p: Program, texts: set<int>, raw: seq<Op>, code: seq<Op>, i: nat)
    requires OpsOk(p, texts, code) && |code| == |raw| && FirstMatch(p, Marks(p, raw), code, i).Fuse?
    ensures OpOk(p, texts, |code|, i, FirstMatch(p, Marks(p, raw), code, i).op)
  {
    hide OpOk, OpsOk, Marks, FirstMatch;
    var op := FirstMatch(p, Marks(p, raw), code, i).op;
    var length := FirstShape(p, Marks(p, raw), code, i);
    if Unchecked(op.code) { UncheckedIsOk(p, texts, |code|, i, op); }
    else {
      TailMeansFlow(Marks(p, raw), i, length);
      MovedJump(p, texts, raw, code, i, length, length - 1, op);
    }
  }

  /** The condition a loop superinstruction ends in, and the span up to it. */
  lemma {:induction false} ComplexShape(p: Program, t: seq<Mark>, code: seq<Op>, i: nat) returns (pc: nat, length: nat)
    requires ComplexAt(p, t, code, i).Fuse?
    ensures var op := ComplexAt(p, t, code, i).op;
            i <= pc < i + length && pc < |code| && FlowIsStraight(t, i, length) && IsJump(code[pc].code) &&
            (op.code == ComplexIterOrJz || op.code == ComplexIterSumSqJz) &&
            op.b == code[pc].a + 4096 * code[pc].b && 0 <= code[pc].a <= 4095 && 0 <= code[pc].b <= 4095 &&
                ConstantIndex(p, code[pc].b)
  {
    hide Pack6, Field6, NumericSlot, FlowIsStraight;
    pc := if code[i + 20].code == MovNum then i + 22 else i + 20;
    length := (pc - i) + (if code[pc].code == Sq2GtOrJz then 12 else 10);
  }

  lemma {:induction false} ComplexIsOk(p: Program, texts: set<int>, raw: seq<Op>, code: seq<Op>, i: nat)
    requires OpsOk(p, texts, code) && |code| == |raw| && i < |code| && ComplexAt(p, Marks(p, raw), code, i).Fuse?
    ensures OpOk(p, texts, |code|, i, ComplexAt(p, Marks(p, raw), code, i).op)
  {
    hide Marks, ComplexAt, OpOk, IsJump, FlowIsStraight, Owner;
    var op := ComplexAt(p, Marks(p, raw), code, i).op;
    var pc, length := ComplexShape(p, Marks(p, raw), code, i);
    StraightSpanStaysInside(p, raw, i, length, pc - i);
    JumpIsOk(p, texts, |code|, pc, code[pc]);
    assert op.b % 4096 == code[pc].a && op.b / 4096 == code[pc].b;
    ComplexOpOk(p, texts, |code|, i, op);
  }

  lemma {:induction false} ComplexOpOk(p: Program, texts: set<int>, n: nat, i: nat, op: Op)
    requires op.code == ComplexIterOrJz || op.code == ComplexIterSumSqJz
    ensures OpOk(p, texts, n, i, op) == (LocalEdge(p, n, i, op.b % 4096) && op.b / 4096 % 4096 < |p.pool|)
  {}

  // ---------- local superinstructions ----------

  /** Packing `count` slots leaves the bits above them clear and reads back each slot. */
  lemma {:induction false} PackedFits(slots: seq<int>, limit: int)
    requires forall k :: 0 <= k < |slots| ==> 0 <= slots[k] < limit && slots[k] < 128
    requires |slots| <= 6
    ensures var (a, b) := PackedLocals(slots);
            0 <= a < Capacity(|slots|) && (if |slots| <= 4 then b == 0 else 0 <= b < Capacity(|slots| - 4)) &&
            (|slots| > 4 ==> Field7(b, 0) < limit) && (|slots| > 5 ==> Field7(b, 1) < limit) &&
            forall k :: 0 <= k < |slots| && k < 4 ==> Field7(a, k) < limit
  {
    hide Field7, Pack7;
    var d0, d1, d2, d3 := SlotAt(slots, 0), SlotAt(slots, 1), SlotAt(slots, 2), SlotAt(slots, 3);
    OptimizerProof.LocalPatterns.Unpacked(slots);
    PackedBelow(d0, d1, d2, d3, |slots|);
    PackedBelow(SlotAt(slots, 4), SlotAt(slots, 5), 0, 0, if |slots| <= 4 then 0 else |slots| - 4);
  }

  lemma {:induction false} PackedBelow(d0: int, d1: int, d2: int, d3: int, count: nat)
    requires Slot7(d0) && Slot7(d1) && Slot7(d2) && Slot7(d3)
    requires (count <= 3 ==> d3 == 0) && (count <= 2 ==> d2 == 0) && (count <= 1 ==> d1 == 0) &&
        (count == 0 ==> d0 == 0)
    ensures 0 <= Pack7(d0, d1, d2, d3) < Capacity(count)
  {}

  lemma {:induction false} FoldedIsValid(
      p: Program, fn: Function, t: seq<Mark>, i: nat, pattern: int, length: Span, slots: seq<int>,
      constant: Option<int>)
    requires FoldLocal(p, fn, t, i, pattern, length, slots, constant).Fuse?
    requires PatternShape(pattern) == Some(Shape(|slots|, length, constant.Some?))
    requires constant.Some? ==> constant.value >= 0
    requires |slots| <= 6 && (constant.Some? ==> |slots| <= 4)
    ensures ValidLocalNumeric(FoldLocal(p, fn, t, i, pattern, length, slots, constant).op, fn.numericLocals, |p.pool|)
  {
    hide PackedLocals, PatternShape, TailIsStraight, Field7, Capacity;
    PackedFits(slots, fn.numericLocals);
    var op := FoldLocal(p, fn, t, i, pattern, length, slots, constant).op;
    forall k | 0 <= k < |slots| ensures LocalOperand(op, k) < fn.numericLocals {
      if k >= 4 { assert constant.None?; }
    }
  }

  /** The fused operation a local pattern yields, its covered length, and the checks it passes. */
  ghost predicate LocalGood(p: Program, fn: Function, t: seq<Mark>, code: seq<Op>, i: nat, f: Rewrite) {
    f.Fuse? ==> i < |code| && TailIsStraight(t, i, f.length) && f.op.s == f.length &&
                ((f.op.code == LocalNumFused && ValidLocalNumeric(f.op, fn.numericLocals, |p.pool|)) ||
                 (f.op.code == LocalGrayPsetMulInt && ValidLocalGray(f.op, fn.numericLocals) && f.length == 12 &&
                  i + 12 <= fn.end && GrayTail(code[i := f.op], i)))
  }

  lemma {:induction false} FoldGood(
      p: Program, fn: Function, t: seq<Mark>, code: seq<Op>, i: nat, pattern: int, length: Span, slots: seq<int>,
      constant: Option<int>)
    requires PatternShape(pattern) == Some(Shape(|slots|, length, constant.Some?)) && i < |code|
    requires constant.Some? ==> constant.value >= 0
    requires |slots| <= 6 && (constant.Some? ==> |slots| <= 4)
    ensures LocalGood(p, fn, t, code, i, FoldLocal(p, fn, t, i, pattern, length, slots, constant))
  {
    hide PackedLocals, PatternShape, TailIsStraight, ValidLocalNumeric;
    if FoldLocal(p, fn, t, i, pattern, length, slots, constant).Fuse? {
      FoldedIsValid(p, fn, t, i, pattern, length, slots, constant);
    }
  }

  lemma {:induction false} GrayOperands(fn: Function, g: int, x: int, y: int, u: int, v: int)
    requires LocalSlots(fn, [g, x, y, u, v])
    ensures ValidLocalGray(Op(LocalGrayPsetMulInt, 0, 12, Pack7(g, x, y, u), v), fn.numericLocals)
    ensures var a := Pack7(g, x, y, u); Field7(a, 0) == g && Field7(a, 1) == x && Field7(a, 2) == y && Field7(a, 3) == u
  {
    hide Field7;
    var slots := [g, x, y, u, v];
    assert slots[0] == g && slots[1] == x && slots[2] == y && slots[3] == u && slots[4] == v;
    Unpack7(g, x, y, u);
    PackedBelow(g, x, y, u, 4);
  }

  lemma {:induction false} GrayGood(p: Program, fn: Function, t: seq<Mark>, code: seq<Op>, i: nat)
    requires i < |code|
    ensures LocalGood(p, fn, t, code, i, LocalGrayAt(fn, t, code, i))
  {
    hide Field7, Pack7, TailIsStraight, ValidLocalGray, LocalSlots;
    if LocalGrayAt(fn, t, code, i).Fuse? {
      GrayOperands(fn, Arg(code, i, 4), Arg(code, i, 0), Arg(code, i, 1), Arg(code, i, 9), Arg(code, i, 10));
    }
  }

  lemma {:induction false} LocalKeepGood(p: Program, fn: Function, t: seq<Mark>, code: seq<Op>, i: nat)
    ensures forall f: Rewrite :: f.Keep? ==> LocalGood(p, fn, t, code, i, f)
  {}

  lemma {:induction false} DifferenceGood(p: Program, fn: Function, t: seq<Mark>, code: seq<Op>, i: nat)
    requires i < |code|
    ensures LocalGood(p, fn, t, code, i, LocalProductsDifferenceAt(p, fn, t, code, i))
  {
    hide LocalGood, FoldLocal;
    if LocalProductsDifferenceAt(p, fn, t, code, i).Fuse? {
      FoldGood(p, fn, t, code, i, 10, 10, [Arg(code, i, 9), Arg(code, i, 0), Arg(code, i, 1), Arg(code, i, 3),
          Arg(code, i, 4), Arg(code, i, 7)], None);
    }
    LocalKeepGood(p, fn, t, code, i);
  }

  lemma {:induction false} AddProductGood(p: Program, fn: Function, t: seq<Mark>, code: seq<Op>, i: nat)
    requires i < |code|
    ensures LocalGood(p, fn, t, code, i, LocalAddProductAt(p, fn, t, code, i))
  {
    hide LocalGood, FoldLocal;
    if LocalAddProductAt(p, fn, t, code, i).Fuse? {
      FoldGood(p, fn, t, code, i, 8, 6, [Arg(code, i, 5), Arg(code, i, 0), Arg(code, i, 1), Arg(code, i, 2)], None);
    }
    LocalKeepGood(p, fn, t, code, i);
  }

  lemma {:induction false} ProductAddGood(p: Program, fn: Function, t: seq<Mark>, code: seq<Op>, i: nat)
    requires i < |code|
    ensures LocalGood(p, fn, t, code, i, LocalProductAddAt(p, fn, t, code, i))
  {
    hide LocalGood, FoldLocal;
    if LocalProductAddAt(p, fn, t, code, i).Fuse? {
      FoldGood(p, fn, t, code, i, 9, 6, [Arg(code, i, 5), Arg(code, i, 3), Arg(code, i, 0), Arg(code, i, 1)], None);
    }
    LocalKeepGood(p, fn, t, code, i);
  }

  lemma {:induction false} PairsGood(p: Program, fn: Function, t: seq<Mark>, code: seq<Op>, i: nat)
    requires i < |code|
    ensures LocalGood(p, fn, t, code, i, LocalPairStoreAt(p, fn, t, code, i))
    ensures LocalGood(p, fn, t, code, i, LocalPairPushAt(p, fn, t, code, i))
    ensures LocalGood(p, fn, t, code, i, LocalMoveAt(p, fn, t, code, i))
  {
    hide LocalGood, FoldLocal;
    if LocalPairStoreAt(p, fn, t, code, i).Fuse? {
      FoldGood(p, fn, t, code, i, 5 + ArithmeticKind(code[i + 2].code), 4, [Arg(code, i, 3), Arg(code, i, 0),
          Arg(code, i, 1)], None);
    }
    if LocalPairPushAt(p, fn, t, code, i).Fuse? {
      FoldGood(p, fn, t, code, i, 2 + ArithmeticKind(code[i + 2].code), 3, [Arg(code, i, 0), Arg(code, i, 1)], None);
    }
    if LocalMoveAt(p, fn, t, code, i).Fuse? {
      FoldGood(p, fn, t, code, i, 0, 2, [Arg(code, i, 1), Arg(code, i, 0)], None);
    }
    LocalKeepGood(p, fn, t, code, i);
  }

  lemma {:induction false} ConstantsGood(p: Program, fn: Function, t: seq<Mark>, code: seq<Op>, i: nat)
    requires i < |code| && OptimizerProof.LocalPatterns.IndexedConstants(code)
    ensures LocalGood(p, fn, t, code, i, LocalAddConstantProductAt(p, fn, t, code, i))
    ensures LocalGood(p, fn, t, code, i, LocalConstantAt(p, fn, t, code, i))
  {
    hide LocalGood, FoldLocal;
    if LocalAddConstantProductAt(p, fn, t, code, i).Fuse? {
      FoldGood(p, fn, t, code, i, 16, 6, [Arg(code, i, 5), Arg(code, i, 0), Arg(code, i, 1)], Some(Arg(code, i, 2)));
    }
    if LocalConstantAt(p, fn, t, code, i).Fuse? {
      FoldGood(p, fn, t, code, i, 12 + ArithmeticKind(code[i + 2].code), 3, [Arg(code, i, 0)], Some(Arg(code, i, 1)));
    }
    LocalKeepGood(p, fn, t, code, i);
  }

  lemma {:induction false} ConstantProductGood(p: Program, fn: Function, t: seq<Mark>, code: seq<Op>, i: nat)
    requires i < |code| && OptimizerProof.LocalPatterns.IndexedConstants(code)
    ensures LocalGood(p, fn, t, code, i, LocalConstantProductAddAt(p, fn, t, code, i))
  {
    hide LocalGood, FoldLocal;
    if LocalConstantProductAddAt(p, fn, t, code, i).Fuse? {
      FoldGood(p, fn, t, code, i, 11, 8, [Arg(code, i, 7), Arg(code, i, 1), Arg(code, i, 3), Arg(code, i, 5)],
          Some(Arg(code, i, 0)));
    }
    LocalKeepGood(p, fn, t, code, i);
  }

  lemma {:induction false} PlainConstantsGood(p: Program, fn: Function, t: seq<Mark>, code: seq<Op>, i: nat)
    requires i < |code| && OptimizerProof.LocalPatterns.IndexedConstants(code)
    ensures LocalGood(p, fn, t, code, i, LocalConstantMulAt(p, fn, t, code, i))
    ensures LocalGood(p, fn, t, code, i, LocalStoreConstantAt(p, fn, t, code, i))
  {
    hide LocalGood, FoldLocal;
    if LocalConstantMulAt(p, fn, t, code, i).Fuse? {
      FoldGood(p, fn, t, code, i, 15, 3, [Arg(code, i, 1)], Some(Arg(code, i, 0)));
    }
    if LocalStoreConstantAt(p, fn, t, code, i).Fuse? {
      FoldGood(p, fn, t, code, i, 1, 2, [Arg(code, i, 1)], Some(Arg(code, i, 0)));
    }
    LocalKeepGood(p, fn, t, code, i);
  }

  lemma {:induction false} LocalMatchGood(p: Program, fn: Function, t: seq<Mark>, code: seq<Op>, i: nat)
    requires i < |code| && OptimizerProof.LocalPatterns.IndexedConstants(code)
    ensures LocalGood(p, fn, t, code, i, LocalMatch(p, fn, t, code, i))
  {
    hide LocalGood, LocalGrayAt, LocalProductsDifferenceAt, LocalAddProductAt, LocalProductAddAt,
        LocalAddConstantProductAt, LocalPairStoreAt, LocalPairPushAt, LocalConstantAt, LocalMoveAt,
        LocalConstantProductAddAt, LocalConstantMulAt, LocalStoreConstantAt;
    GrayGood(p, fn, t, code, i);
    DifferenceGood(p, fn, t, code, i);
    AddProductGood(p, fn, t, code, i);
    ProductAddGood(p, fn, t, code, i);
    PairsGood(p, fn, t, code, i);
    ConstantsGood(p, fn, t, code, i);
    ConstantProductGood(p, fn, t, code, i);
    PlainConstantsGood(p, fn, t, code, i);
  }

  // ---------- the local sweeps ----------

  /** Local pipelines so far lie before slot `i`, tails included. */
  ghost predicate GraysBefore(code: seq<Op>, i: int) {
    forall k {:trigger code[k]} :: 0 <= k < |code| && code[k].code == LocalGrayPsetMulInt ==> k + 12 <= i
  }

  ghost predicate Good(p: Program, texts: set<int>, code: seq<Op>) { OpsOk(p, texts, code) && TailsKept(code) }

  lemma {:induction false} LocalOpGood(p: Program, texts: set<int>, n: nat, f: nat, i: nat, op: Op)
    requires FunctionsOk(p, n) && f < |p.functions| && InFunction(p.functions[f], i) && i + op.s <= p.functions[f].end
    requires (op.code == LocalNumFused && ValidLocalNumeric(op, p.functions[f].numericLocals, |p.pool|)) ||
             (op.code == LocalGrayPsetMulInt && ValidLocalGray(op, p.functions[f].numericLocals))
    ensures OpOk(p, texts, n, i, op)
  {
    hide ValidLocalNumeric, ValidLocalGray, FunctionsOk, Owner;
    assert Owner(p, i) == f by { OwnerOf(p, n, f, i); }
    assert p.functions[f].end <= n by { FunctionEnds(p, n, f); }
  }

  lemma {:induction false} OwnerOf(p: Program, n: nat, f: nat, pc: int)
    requires FunctionsOk(p, n) && f < |p.functions| && InFunction(p.functions[f], pc)
    ensures Owner(p, pc) == f
  {
    OwnerIs(p, n, f, pc, 0);
  }

  lemma {:induction false} FunctionEnds(p: Program, n: nat, f: nat)
    requires FunctionsOk(p, n) && f < |p.functions|
    ensures 0 <= p.functions[f].entry < p.functions[f].end <= n
  {
    assert FunctionOk(p.functions[f], n);
  }

  lemma {:induction false} ConstantsIndexed(p: Program, texts: set<int>, code: seq<Op>)
    requires OpsOk(p, texts, code)
    ensures OptimizerProof.LocalPatterns.IndexedConstants(code)
  {
    hide OpOk;
    forall k | 0 <= k < |code| && code[k].code == PushNum ensures code[k].a >= 0 { ConstantIndexed(p, texts, |code|,
      k, code[k]); }
  }

  lemma {:induction false} ConstantIndexed(p: Program, texts: set<int>, n: nat, k: nat, op: Op)
    requires OpOk(p, texts, n, k, op) && op.code == PushNum
    ensures op.a >= 0
  {}

  /** Writing slot `i` does not disturb a tail that ends before it. */
  lemma {:induction false} EarlierTailsKept(code: seq<Op>, i: nat, op: Op)
    requires TailsKept(code) && GraysBefore(code, i) && i < |code|
    requires op.code == LocalGrayPsetMulInt ==> GrayTail(code[i := op], i)
    ensures TailsKept(code[i := op])
  {
    hide GrayTail, LocalOperand;
    var after := code[i := op];
    forall k | 0 <= k < |after| && after[k].code == LocalGrayPsetMulInt ensures GrayTail(after, k) {
      if k != i { TailElsewhere(code, k, i, op); }
    }
  }

  lemma {:induction false} TailElsewhere(code: seq<Op>, k: nat, i: nat, op: Op)
    requires GrayTail(code, k) && i < |code| && !(k <= i < k + 12)
    ensures GrayTail(code[i := op], k)
  {
    hide Field7;
  }

  lemma {:induction false} LocalStepKeeps(
      p: Program, texts: set<int>, raw: seq<Op>, code: seq<Op>, f: nat, i: nat) returns (next: nat)
    requires FunctionsOk(p, |code|) && |raw| == |code| && f < |p.functions| && InFunction(p.functions[f], i)
    requires Good(p, texts, code) && GraysBefore(code, i) && LocalMatch(p, p.functions[f], Marks(p, raw), code, i).Fuse?
    ensures var m := LocalMatch(p, p.functions[f], Marks(p, raw), code, i);
            next == i + m.length <= p.functions[f].end && i < |code| &&
            Good(p, texts, code[i := m.op]) && GraysBefore(code[i := m.op], next)
  {
    hide LocalMatch, OpOk, GrayTail, ValidLocalNumeric, ValidLocalGray, Marks, FlowIsStraight, TailIsStraight,
        FunctionsOk;
    var fn, t := p.functions[f], Marks(p, raw);
    FunctionEnds(p, |code|, f);
    ConstantsIndexed(p, texts, code);
    LocalMatchGood(p, fn, t, code, i);
    var m := LocalMatch(p, fn, t, code, i);
    next := i + m.length;
    TailMeansFlow(t, i, m.length);
    MarksLength(p, raw);
    StraightSpanFits(p, raw, fn, i, m.length);
    LocalOpGood(p, texts, |code|, f, i, m.op);
    EarlierTailsKept(code, i, m.op);
  }

  lemma {:induction false} MarksLength(p: Program, raw: seq<Op>)
    ensures |Marks(p, raw)| == |raw|
  {}

  lemma {:induction false} LocalSweepKeeps(p: Program, texts: set<int>, raw: seq<Op>, code: seq<Op>, f: nat, i: nat)
    requires FunctionsOk(p, |code|) && |raw| == |code| && f < |p.functions| &&
        p.functions[f].entry <= i <= p.functions[f].end <= |code|
    requires Good(p, texts, code) && GraysBefore(code, i)
    ensures var after := Sweep(LocalPass(p.functions[f]), p, Marks(p, raw), code, i, p.functions[f].end);
            |after| == |code| && Good(p, texts, after) && GraysBefore(after, p.functions[f].end)
    decreases p.functions[f].end - i
  {
    hide LocalMatch, Good, GraysBefore, Marks, FunctionsOk;
    var fn, t := p.functions[f], Marks(p, raw);
    if i < fn.end {
      var m := LocalMatch(p, fn, t, code, i);
      if m.Fuse? {
        var next := LocalStepKeeps(p, texts, raw, code, f, i);
        LocalSweepKeeps(p, texts, raw, code[i := m.op], f, next);
      } else {
        GraysLater(code, i, i + 1);
        LocalSweepKeeps(p, texts, raw, code, f, i + 1);
      }
    }
  }

  lemma {:induction false} GraysLater(code: seq<Op>, i: int, j: int)
    requires GraysBefore(code, i) && i <= j
    ensures GraysBefore(code, j)
  {}

  lemma {:induction false} LocalSweepsKeep(p: Program, texts: set<int>, raw: seq<Op>, code: seq<Op>, f: nat)
    requires FunctionsOk(p, |code|) && |raw| == |code| && f <= |p.functions|
    requires Good(p, texts, code) && GraysBefore(code, if f == 0 then 0 else p.functions[f - 1].end)
    ensures var after := SweepFunctions(p, Marks(p, raw), code, f); |after| == |code| && Good(p, texts, after)
    decreases |p.functions| - f
  {
    hide Good, GraysBefore, Marks, Sweep, FunctionsOk;
    if f < |p.functions| {
      var fn := p.functions[f];
      FunctionEnds(p, |code|, f);
      if f > 0 { InOrder(p, |code|, f); }
      GraysLater(code, if f == 0 then 0 else p.functions[f - 1].end, fn.entry);
      LocalSweepKeeps(p, texts, raw, code, f, fn.entry);
      LocalSweepsKeep(p, texts, raw, Sweep(LocalPass(fn), p, Marks(p, raw), code, fn.entry, fn.end), f + 1);
    }
  }

  lemma {:induction false} InOrder(p: Program, n: nat, f: nat)
    requires FunctionsOk(p, n) && 0 < f < |p.functions|
    ensures p.functions[f - 1].end <= p.functions[f].entry
  {
    Ordered(p, n, f - 1, f);
  }

  // ---------- the passes over the whole program ----------

  lemma {:induction false} SpecializeIsOk(p: Program, texts: set<int>, code: seq<Op>, i: nat)
    requires SpecializeAt(code, i).Fuse?
    ensures OpOk(p, texts, |code|, i, SpecializeAt(code, i).op)
  {
    hide OpOk;
    UncheckedIsOk(p, texts, |code|, i, SpecializeAt(code, i).op);
  }

  lemma {:induction false} PixelsQuiet(p: Program, t: seq<Mark>, code: seq<Op>, i: nat)
    ensures Quiet(GrayAt(p, t, code, i)) && Quiet(MinMulAt(p, t, code, i)) && Quiet(GrayAgainAt(p, t, code, i))
    ensures Quiet(GrayTailAt(p, t, code, i))
  {
    hide Pack6, FlowIsStraight, ProductSlots, Calls, ColorsWith, PaintTail, ChannelAt, PaintsFrom, NumericSlot,
        PackBytes, IsIntCall, Is;
  }

  lemma {:induction false} ResidualQuiet(p: Program, t: seq<Mark>, code: seq<Op>, i: nat)
    ensures Quiet(ResidualMatch(p, t, code, i))
  {
    hide Pack6, TailIsStraight, NumericSlot, ConstantIndex, Is, Arg;
  }

  lemma {:induction false} GlobalIsOk(pass: Pass, p: Program, texts: set<int>, raw: seq<Op>, code: seq<Op>, i: nat)
    requires !pass.LocalPass? && OpsOk(p, texts, code) && |code| == |raw| && i < |code| &&
        Match(pass, p, Marks(p, raw), code, i).Fuse?
    ensures OpOk(p, texts, |code|, i, Match(pass, p, Marks(p, raw), code, i).op)
  {
    hide OpOk, Marks, FirstMatch, ComplexAt, GrayAt, MinMulAt, SpecializeAt, GrayAgainAt, GrayTailAt, ResidualMatch,
        Unchecked;
    var t := Marks(p, raw);
    if pass.FirstPass? { FirstIsOk(p, texts, raw, code, i); }
    else if pass.ComplexPass? { ComplexIsOk(p, texts, raw, code, i); }
    else if pass.SpecializePass? { SpecializeIsOk(p, texts, code, i); }
    else {
      PixelsQuiet(p, t, code, i);
      ResidualQuiet(p, t, code, i);
      UncheckedIsOk(p, texts, |code|, i, Match(pass, p, t, code, i).op);
    }
  }

  /** Operations that stand in the tail of a local gray pipeline. */
  predicate TailCode(op: Op) {
    op.code == LoadLocalNum || op.code == MulNum || op.code == StoreLocalNum ||
    (op.code == CallFn && (op.a == FN_COLOR || op.a == FN_PSET || op.a == FN_INT)) || (op.code == Fn1Num &&
        op.a == FN_INT)
  }

  lemma {:induction false} TailCodes(code: seq<Op>, k: nat, i: nat)
    requires GrayTail(code, k) && k < i < k + 12
    ensures i < |code| && TailCode(code[i])
    ensures code[i].code == CallFn && code[i].a == FN_INT ==> i == k + 3
    ensures code[i].code == Fn1Num ==> code[i + 1].code == StoreLocalNum
  {
    hide Field7, LocalOperand;
    assert i == k + 1 || i == k + 2 || i == k + 3 || i == k + 4 || i == k + 5 || i == k + 6 || i == k + 7 ||
        i == k + 8 ||
           i == k + 9 || i == k + 10 || i == k + 11;
  }

  lemma {:induction false} FirstSkips(p: Program, t: seq<Mark>, code: seq<Op>, i: nat)
    requires i < |code| && FirstMatch(p, t, code, i).Fuse?
    ensures code[i].code == LoadNum || code[i].code == PushNum || JumpingForm(code[i].code).Some?
  {
    hide Pack6, TailIsStraight, NumericSlot, ConstantIndex, JumpingForm, Arg, AddSubMul, PackedLocals, Calls;
    if ConditionAt(t, code, i).Fuse? {}
    else if MulCvAt(p, t, code, i).Fuse? {}
    else {}
  }

  lemma {:induction false} OthersSkip(pass: Pass, p: Program, t: seq<Mark>, code: seq<Op>, i: nat)
    requires i < |code| && Match(pass, p, t, code, i).Fuse?
    requires pass.ComplexPass? || pass.PixelPass? || pass.GrayAgainPass? || pass.ResidualPass?
    ensures code[i].code == LoadNum || code[i].code == PushNum || code[i].code == MulSubAddStore ||
        code[i].code == MulVvPush
  {
    hide Pack6, TailIsStraight, FlowIsStraight, NumericSlot, ConstantIndex, Arg, Calls, ColorsWith, PaintTail,
        PaintsFrom,
      PackBytes, ComplexCondition, GrayOp, IsIntCall, Field6, AsByte;
  }

  /** The passes over the whole program leave local tails alone, but for the fast form of INT. */
  lemma {:induction false} TailResists(pass: Pass, p: Program, t: seq<Mark>, code: seq<Op>, k: nat, i: nat)
    requires GrayTail(code, k) && k < i < k + 12 && !pass.LocalPass? && Match(pass, p, t, code, i).Fuse?
    ensures pass.SpecializePass? && i == k + 3 && code[i].code == CallFn
  {
    hide GrayTail, FirstMatch, ComplexAt, GrayAt, MinMulAt, GrayAgainAt, ResidualMatch;
    TailCodes(code, k, i);
    if pass.FirstPass? { FirstSkips(p, t, code, i); }
    else if pass.GrayTailPass? {}
    else if pass.SpecializePass? {}
    else { OthersSkip(pass, p, t, code, i); }
  }

  lemma {:induction false} IntStays(code: seq<Op>, k: nat)
    requires GrayTail(code, k) && code[k + 3].code == CallFn && SpecializeAt(code, k + 3).Fuse?
    ensures GrayTail(code[k + 3 := SpecializeAt(code, k + 3).op], k)
  {
    hide Field7, LocalOperand;
  }

  lemma {:induction false} GlobalTailsKept(pass: Pass, p: Program, t: seq<Mark>, code: seq<Op>, i: nat)
    requires !pass.LocalPass? && TailsKept(code) && i < |code| && Match(pass, p, t, code, i).Fuse?
    requires Match(pass, p, t, code, i).op.code != LocalGrayPsetMulInt
    ensures TailsKept(code[i := Match(pass, p, t, code, i).op])
  {
    hide GrayTail, FirstMatch, ComplexAt, GrayAt, MinMulAt, GrayAgainAt, GrayTailAt, ResidualMatch, SpecializeAt;
    var op := Match(pass, p, t, code, i).op;
    var after := code[i := op];
    forall k | 0 <= k < |after| && after[k].code == LocalGrayPsetMulInt ensures GrayTail(after, k) {
      if k < i < k + 12 {
        TailResists(pass, p, t, code, k, i);
        IntStays(code, k);
      } else {
        TailElsewhere(code, k, i, op);
      }
    }
  }

  lemma {:induction false} NotGray(pass: Pass, p: Program, t: seq<Mark>, code: seq<Op>, i: nat)
    requires !pass.LocalPass? && Match(pass, p, t, code, i).Fuse?
    ensures Match(pass, p, t, code, i).op.code != LocalGrayPsetMulInt
  {
    hide FirstMatch, ComplexAt, GrayAt, MinMulAt, GrayAgainAt, GrayTailAt, ResidualMatch, SpecializeAt, Moved;
    if pass.FirstPass? {
      var length := FirstShape(p, t, code, i); FirstNotGray(t, code, i, FirstMatch(p, t, code, i), length);
    }
    else if pass.ComplexPass? { var pc, length := ComplexShape(p, t, code, i); }
    else if pass.SpecializePass? { SpecializeNotGray(code, i); }
    else {
      PixelsQuiet(p, t, code, i);
      ResidualQuiet(p, t, code, i);
    }
  }

  lemma {:induction false} FirstNotGray(t: seq<Mark>, code: seq<Op>, i: nat, f: Rewrite, length: nat)
    requires f.Fuse? && (Quiet(f) || Moved(t, code, i, f, length))
    ensures f.op.code != LocalGrayPsetMulInt
  {}

  lemma {:induction false} SpecializeNotGray(code: seq<Op>, i: nat)
    requires SpecializeAt(code, i).Fuse?
    ensures SpecializeAt(code, i).op.code != LocalGrayPsetMulInt
  {}

  lemma {:induction false} GlobalSweepKeeps(
      pass: Pass, p: Program, texts: set<int>, raw: seq<Op>, code: seq<Op>, i: nat)
    requires !pass.LocalPass? && |raw| == |code| && Good(p, texts, code)
    ensures var after := Sweep(pass, p, Marks(p, raw), code, i, |code|); |after| == |code| && Good(p, texts, after)
    decreases |code| - i
  {
    hide Match, Marks, OpOk, TailsKept;
    if i < |code| {
      var f := Match(pass, p, Marks(p, raw), code, i);
      if f.Fuse? {
        GlobalIsOk(pass, p, texts, raw, code, i);
        NotGray(pass, p, Marks(p, raw), code, i);
        GlobalTailsKept(pass, p, Marks(p, raw), code, i);
        GlobalSweepKeeps(pass, p, texts, raw, code[i := f.op], i + f.length);
      } else {
        GlobalSweepKeeps(pass, p, texts, raw, code, i + 1);
      }
    }
  }

  lemma {:induction false} PassKeepsGood(pass: Pass, p: Program, texts: set<int>, raw: seq<Op>, code: seq<Op>)
    requires !pass.LocalPass? && |raw| == |code| && Good(p, texts, code)
    ensures var after := SweepAll(pass, p, Marks(p, raw), code); |after| == |code| && Good(p, texts, after)
  {
    GlobalSweepKeeps(pass, p, texts, raw, code, 0);
  }

  // ---------- the theorem ----------

  lemma {:induction false} ValidIsGood(p: Program, texts: set<int>, code: seq<Op>)
    ensures Valid(p, texts, code) <==> HeaderOk(p, |code|) && Good(p, texts, code)
  {
    hide OpOk, GrayTail, HeaderOk;
    if Valid(p, texts, code) {
      forall i | 0 <= i < |code| ensures OpOk(p, texts, |code|, i, code[i]) &&
        (code[i].code == LocalGrayPsetMulInt ==> GrayTail(code, i)) {
        assert SlotOk(p, texts, code, i);
      }
    }
  }

  lemma {:induction false} UnfusedHasNoGrays(p: Program, raw: seq<Op>)
    requires OptimizerProof.Unfused(p, raw)
    ensures GraysBefore(raw, 0)
  {
    hide Decode;
    forall k | 0 <= k < |raw| ensures raw[k].code != LocalGrayPsetMulInt { GrayIsFused(p.pool, raw[k]); }
  }

  lemma {:induction false} GrayIsFused(pool: seq<Num>, op: Op)
    requires !OptimizerProof.Justification.FusedInstr(Decode(pool, op))
    ensures op.code != LocalGrayPsetMulInt
  {}

  /** A program that passes the static check still passes it once optimized. */
  lemma {:induction false} OptimizerPreservesValidity(p: Program, texts: set<int>, raw: seq<Op>)
    requires Valid(p, texts, raw) && OptimizerProof.Unfused(p, raw)
    ensures Valid(p, texts, Optimized(p, raw))
  {
    hide Good, HeaderOk, SweepAll, SweepFunctions, Marks, Valid, GraysBefore;
    var t := Marks(p, raw);
    ValidIsGood(p, texts, raw);
    UnfusedHasNoGrays(p, raw);
    assert FunctionsOk(p, |raw|) by { HeaderHasFunctions(p, |raw|); }
    LocalSweepsKeep(p, texts, raw, raw, 0);
    var c0 := SweepFunctions(p, t, raw, 0);
    PassKeepsGood(FirstPass, p, texts, raw, c0);
    var c1 := SweepAll(FirstPass, p, t, c0);
    PassKeepsGood(ComplexPass, p, texts, raw, c1);
    var c2 := SweepAll(ComplexPass, p, t, c1);
    PassKeepsGood(PixelPass, p, texts, raw, c2);
    var c3 := SweepAll(PixelPass, p, t, c2);
    PassKeepsGood(SpecializePass, p, texts, raw, c3);
    var c4 := SweepAll(SpecializePass, p, t, c3);
    PassKeepsGood(GrayAgainPass, p, texts, raw, c4);
    var c5 := SweepAll(GrayAgainPass, p, t, c4);
    PassKeepsGood(GrayTailPass, p, texts, raw, c5);
    var c6 := SweepAll(GrayTailPass, p, t, c5);
    PassKeepsGood(ResidualPass, p, texts, raw, c6);
    ValidIsGood(p, texts, Optimized(p, raw));
  }

  lemma {:induction false} HeaderHasFunctions(p: Program, n: nat)
    requires HeaderOk(p, n)
    ensures FunctionsOk(p, n)
  {}
}
