/** Inside a FUNCTION, numeric expressions over locals fuse with seven-bit operands. */
module LocalPatterns {
  import opened Wrappers
  import opened Il
  import opened Optimizer
  import opened Spelling
  import opened Justification

  /** The slots survive the packing into two operand fields. */
  lemma {:induction false} Unpacked(slots: seq<int>)
    requires forall k :: 0 <= k < |slots| ==> Slot7(slots[k])
    requires |slots| <= 6
    ensures var (a, b) := PackedLocals(slots);
            Field7(a, 0) == SlotAt(slots, 0) && Field7(a, 1) == SlotAt(slots, 1) && Field7(a, 2) == SlotAt(slots, 2) &&
            Field7(a, 3) == SlotAt(slots, 3) && Field7(b, 0) == SlotAt(slots, 4) && Field7(b, 1) == SlotAt(slots, 5)
  {
    hide Field7, Pack7;
    Unpack7(SlotAt(slots, 0), SlotAt(slots, 1), SlotAt(slots, 2), SlotAt(slots, 3));
    Unpack7(SlotAt(slots, 4), SlotAt(slots, 5), 0, 0);
  }

  /** Only the six-slot pattern reads past the fourth slot. */
  lemma {:induction false} FourSlots(pattern: int, s: (int, int, int, int, int, int), e: int, f: int, c: Expr, op: Op)
    requires 0 <= pattern <= 16 && pattern != 10
    ensures LocalInstr(pattern, s, c, op) == LocalInstr(pattern, (s.0, s.1, s.2, s.3, e, f), c, op)
  {}

  lemma {:induction false} DecodesLocal(pool: seq<Num>, pattern: int, length: int, slots: seq<int>, b: int)
    requires forall k :: 0 <= k < |slots| ==> Slot7(slots[k])
    requires |slots| <= 6 && 0 <= pattern <= 16 && (pattern == 10 ==> b == PackedLocals(slots).1)
    ensures var op := Op(LocalNumFused, pattern, length, PackedLocals(slots).0, b);
            Decode(pool, op) == LocalInstr(pattern, (SlotAt(slots, 0), SlotAt(slots, 1), SlotAt(slots, 2),
                SlotAt(slots, 3),
                                                     SlotAt(slots, 4), SlotAt(slots, 5)), C(Constant(pool, b)), op)
  {
    hide Field7, PackedLocals, Field6, LocalInstr, SlotAt;
    Unpacked(slots);
    var a := PackedLocals(slots).0;
    var op := Op(LocalNumFused, pattern, length, a, b);
    if pattern != 10 {
      FourSlots(pattern, (Field7(a, 0), Field7(a, 1), Field7(a, 2), Field7(a, 3), Field7(b, 0), Field7(b, 1)),
                SlotAt(slots, 4), SlotAt(slots, 5), C(Constant(pool, b)), op);
    }
  }

  lemma {:induction false} LocalAssign(symbols: nat, d: seq<Instr>, i: nat, e: Expr, dst: int)
    requires SpellsAt(d, i, Code(e)) && i + CodeLength(e) < |d| && d[i + CodeLength(e)] == IStore(Local(dst))
    requires ExprOk(symbols, e)
    ensures Justified(symbols, d, i, FAssign(Local(dst), e))
  {
    SpellsStore(d, i, e, Local(dst));
    JustifiedBy(symbols, d, i, FAssign(Local(dst), e), PLAIN);
  }

  lemma {:induction false} PairInRange(symbols: nat, op: BinOp, x: Operand, y: Operand)
    requires !x.Global? && !y.Global?
    ensures ExprOk(symbols, Bin(op, Leaf(x), Leaf(y)))
  {
    assert ExprOk(symbols, Leaf(x)) && ExprOk(symbols, Leaf(y));
  }

  lemma {:induction false} NodeInRange(symbols: nat, op: BinOp, l: Expr, r: Expr)
    requires ExprOk(symbols, l) && ExprOk(symbols, r)
    ensures ExprOk(symbols, Bin(op, l, r))
  {}

  lemma {:induction false} LocalPush(symbols: nat, d: seq<Instr>, i: nat, op: BinOp, x: Operand, y: Operand)
    requires i + 2 < |d| && d[i] == ILoad(x) && d[i + 1] == ILoad(y) && d[i + 2] == IBin(op)
    requires !x.Global? && !y.Global?
    ensures Justified(symbols, d, i, FPush(Bin(op, Leaf(x), Leaf(y))))
  {
    SpellsPair(d, i, op, x, y);
    JustifiedBy(symbols, d, i, FPush(Bin(op, Leaf(x), Leaf(y))), PLAIN);
  }

  function FoldedConstant(p: Program, constant: Option<int>, b: int): Expr {
    C(if constant.Some? then Constant(p.pool, constant.value) else Constant(p.pool, b))
  }

  /** A folded span: what it decodes to, given its slots. */
  lemma {:induction false} Folded(
      p: Program, fn: Function, t: seq<Mark>, i: nat, pattern: int, length: Span, slots: seq<int>,
      constant: Option<int>)
    requires FoldLocal(p, fn, t, i, pattern, length, slots, constant).Fuse?
    requires |slots| <= 6 && 0 <= pattern <= 16 && (pattern == 10 ==> constant.None?)
    requires constant.Some? ==> constant.value >= 0
    ensures var op := FoldLocal(p, fn, t, i, pattern, length, slots, constant).op;
            Decode(p.pool, op) == LocalInstr(pattern, (SlotAt(slots, 0), SlotAt(slots, 1), SlotAt(slots, 2),
                SlotAt(slots, 3),
                                                       SlotAt(slots, 4), SlotAt(slots, 5)), FoldedConstant(p,
                                                           constant, op.b), op)
    ensures constant.Some? ==> ConstantIndex(p, constant.value)
  {
    hide Decode, PackedLocals, LocalInstr, SlotAt;
    var b := if constant.Some? then constant.value else PackedLocals(slots).1;
    DecodesLocal(p.pool, pattern, length, slots, b);
  }

  /** Constants the compiler emits are pool indices. */
  predicate IndexedConstants(
      code: seq<Op>) { forall k :: 0 <= k < |code| && code[k].code == PushNum ==> code[k].a >= 0 }

  lemma {:induction false} LoadLocalAt(pool: seq<Num>, code: seq<Op>, d: seq<Instr>, i: nat)
    requires Reads(pool, code, d) && Is(code, i, LoadLocalNum)
    ensures d[i] == ILoad(Local(code[i].a))
  {}

  lemma {:induction false} StoreLocalAt(pool: seq<Num>, code: seq<Op>, d: seq<Instr>, i: nat)
    requires Reads(pool, code, d) && Is(code, i, StoreLocalNum)
    ensures d[i] == IStore(Local(code[i].a))
  {}

  lemma {:induction false} ProductsDifferenceSpelled(
      symbols: nat, d: seq<Instr>, i: nat, a: int, b: int, c: int, f: int, e: int, dst: int)
    requires i + 9 < |d|
    requires d[i] == ILoad(Local(a)) && d[i + 1] == ILoad(Local(b)) && d[i + 2] == IBin(Mul)
    requires d[i + 3] == ILoad(Local(c)) && d[i + 4] == ILoad(Local(f)) && d[i + 5] == IBin(Mul) &&
        d[i + 6] == IBin(Sub)
    requires d[i + 7] == ILoad(Local(e)) && d[i + 8] == IBin(Add) && d[i + 9] == IStore(Local(dst))
    ensures Justified(symbols, d, i, FAssign(Local(dst), Bin(Add, Bin(Sub, Bin(Mul, L(a), L(b)), Bin(Mul, L(c),
        L(f))), L(e))))
  {
    var ab, cf := Bin(Mul, L(a), L(b)), Bin(Mul, L(c), L(f));
    SpellsPair(d, i, Mul, Local(a), Local(b));
    SpellsPair(d, i + 3, Mul, Local(c), Local(f));
    SpellsBin(d, i, Sub, ab, cf);
    SpellsThen(d, i, Bin(Sub, ab, cf), Add, Local(e));
    PairInRange(symbols, Mul, Local(a), Local(b));
    PairInRange(symbols, Mul, Local(c), Local(f));
    NodeInRange(symbols, Sub, ab, cf);
    NodeInRange(symbols, Add, Bin(Sub, ab, cf), L(e));
    LocalAssign(symbols, d, i, Bin(Add, Bin(Sub, ab, cf), L(e)), dst);
  }

  lemma {:induction false} ProductsDifferenceJustified(
      p: Program, fn: Function, t: seq<Mark>, code: seq<Op>, d: seq<Instr>, i: nat)
    requires Reads(p.pool, code, d) && LocalProductsDifferenceAt(p, fn, t, code, i).Fuse?
    ensures Justified(Symbols(p), d, i, Decode(p.pool, LocalProductsDifferenceAt(p, fn, t, code, i).op))
  {
    hide Decode, Justified, FoldLocal, PlainSlot;
    var a, b, c, f, e, dst := code[i].a, code[i + 1].a, code[i + 3].a, code[i + 4].a, code[i + 7].a, code[i + 9].a;
    Folded(p, fn, t, i, 10, 10, [dst, a, b, c, f, e], None);
    LoadLocalAt(p.pool, code, d, i);
    LoadLocalAt(p.pool, code, d, i + 1);
    MathAt(p.pool, code, d, i + 2);
    LoadLocalAt(p.pool, code, d, i + 3);
    LoadLocalAt(p.pool, code, d, i + 4);
    MathAt(p.pool, code, d, i + 5);
    MathAt(p.pool, code, d, i + 6);
    LoadLocalAt(p.pool, code, d, i + 7);
    MathAt(p.pool, code, d, i + 8);
    StoreLocalAt(p.pool, code, d, i + 9);
    ProductsDifferenceSpelled(Symbols(p), d, i, a, b, c, f, e, dst);
  }

  lemma {:induction false} AddProductOf(
      symbols: nat, d: seq<Instr>, i: nat, addend: int, x: Operand, y: Operand, dst: int)
    requires !x.Global? && !y.Global? && i + 5 < |d|
    requires d[i] == ILoad(Local(addend)) && d[i + 1] == ILoad(x) && d[i + 2] == ILoad(y)
    requires d[i + 3] == IBin(Mul) && d[i + 4] == IBin(Add) && d[i + 5] == IStore(Local(dst))
    ensures Justified(symbols, d, i, FAssign(Local(dst), Bin(Add, L(addend), Bin(Mul, Leaf(x), Leaf(y)))))
  {
    var product := Bin(Mul, Leaf(x), Leaf(y));
    SpellsPair(d, i + 1, Mul, x, y);
    SpellsAfter(d, i, Local(addend), Add, product);
    PairInRange(symbols, Mul, x, y);
    NodeInRange(symbols, Add, L(addend), product);
    LocalAssign(symbols, d, i, Bin(Add, L(addend), product), dst);
  }

  lemma {:induction false} LocalAddProductJustified(
      p: Program, fn: Function, t: seq<Mark>, code: seq<Op>, d: seq<Instr>, i: nat)
    requires Reads(p.pool, code, d) && LocalAddProductAt(p, fn, t, code, i).Fuse?
    ensures Justified(Symbols(p), d, i, Decode(p.pool, LocalAddProductAt(p, fn, t, code, i).op))
  {
    hide Decode, Justified, FoldLocal, PlainSlot;
    var addend, lhs, rhs, dst := code[i].a, code[i + 1].a, code[i + 2].a, code[i + 5].a;
    Folded(p, fn, t, i, 8, 6, [dst, addend, lhs, rhs], None);
    LoadLocalAt(p.pool, code, d, i);
    LoadLocalAt(p.pool, code, d, i + 1);
    LoadLocalAt(p.pool, code, d, i + 2);
    MathAt(p.pool, code, d, i + 3);
    MathAt(p.pool, code, d, i + 4);
    StoreLocalAt(p.pool, code, d, i + 5);
    AddProductOf(Symbols(p), d, i, addend, Local(lhs), Local(rhs), dst);
  }

  lemma {:induction false} LocalProductAddJustified(
      p: Program, fn: Function, t: seq<Mark>, code: seq<Op>, d: seq<Instr>, i: nat)
    requires Reads(p.pool, code, d) && LocalProductAddAt(p, fn, t, code, i).Fuse?
    ensures Justified(Symbols(p), d, i, Decode(p.pool, LocalProductAddAt(p, fn, t, code, i).op))
  {
    hide Decode, Justified, FoldLocal, PlainSlot;
    var lhs, rhs, addend, dst := code[i].a, code[i + 1].a, code[i + 3].a, code[i + 5].a;
    Folded(p, fn, t, i, 9, 6, [dst, addend, lhs, rhs], None);
    LoadLocalAt(p.pool, code, d, i);
    LoadLocalAt(p.pool, code, d, i + 1);
    MathAt(p.pool, code, d, i + 2);
    LoadLocalAt(p.pool, code, d, i + 3);
    MathAt(p.pool, code, d, i + 4);
    StoreLocalAt(p.pool, code, d, i + 5);
    var product := Bin(Mul, L(lhs), L(rhs));
    SpellsPair(d, i, Mul, Local(lhs), Local(rhs));
    SpellsThen(d, i, product, Add, Local(addend));
    PairInRange(Symbols(p), Mul, product.l.x, product.r.x);
    NodeInRange(Symbols(p), Add, product, L(addend));
    LocalAssign(Symbols(p), d, i, Bin(Add, product, L(addend)), dst);
  }

  lemma {:induction false} AddConstantProductJustified(
      p: Program, fn: Function, t: seq<Mark>, code: seq<Op>, d: seq<Instr>, i: nat)
    requires Reads(p.pool, code, d) && IndexedConstants(code) && LocalAddConstantProductAt(p, fn, t, code, i).Fuse?
    ensures Justified(Symbols(p), d, i, Decode(p.pool, LocalAddConstantProductAt(p, fn, t, code, i).op))
  {
    hide Decode, Justified, FoldLocal, PlainSlot;
    var addend, lhs, k, dst := code[i].a, code[i + 1].a, code[i + 2].a, code[i + 5].a;
    Folded(p, fn, t, i, 16, 6, [dst, addend, lhs], Some(k));
    LoadLocalAt(p.pool, code, d, i);
    LoadLocalAt(p.pool, code, d, i + 1);
    ConstantAt(p, code, d, i + 2);
    MathAt(p.pool, code, d, i + 3);
    MathAt(p.pool, code, d, i + 4);
    StoreLocalAt(p.pool, code, d, i + 5);
    AddProductOf(Symbols(p), d, i, addend, Local(lhs), Literal(p.pool[k]), dst);
  }

  lemma {:induction false} PairStoreSpelled(
      symbols: nat, d: seq<Instr>, i: nat, op: BinOp, lhs: int, rhs: int, dst: int)
    requires i + 3 < |d| && d[i] == ILoad(Local(lhs)) && d[i + 1] == ILoad(Local(rhs)) && d[i + 2] == IBin(op)
    requires d[i + 3] == IStore(Local(dst))
    ensures Justified(symbols, d, i, FAssign(Local(dst), Bin(op, L(lhs), L(rhs))))
  {
    hide Justified;
    SpellsPair(d, i, op, Local(lhs), Local(rhs));
    PairInRange(symbols, op, Local(lhs), Local(rhs));
    LocalAssign(symbols, d, i, Bin(op, L(lhs), L(rhs)), dst);
  }

  lemma {:induction false} PairStoreJustified(
      p: Program, fn: Function, t: seq<Mark>, code: seq<Op>, d: seq<Instr>, i: nat)
    requires Reads(p.pool, code, d) && LocalPairStoreAt(p, fn, t, code, i).Fuse?
    ensures Justified(Symbols(p), d, i, Decode(p.pool, LocalPairStoreAt(p, fn, t, code, i).op))
  {
    hide Decode, Justified, FoldLocal, PlainSlot;
    var lhs, rhs, dst, c := code[i].a, code[i + 1].a, code[i + 3].a, code[i + 2].code;
    Folded(p, fn, t, i, 5 + ArithmeticKind(c), 4, [dst, lhs, rhs], None);
    LoadLocalAt(p.pool, code, d, i);
    LoadLocalAt(p.pool, code, d, i + 1);
    MathAt(p.pool, code, d, i + 2);
    StoreLocalAt(p.pool, code, d, i + 3);
    PairStoreSpelled(Symbols(p), d, i, ArithmeticOp(c), lhs, rhs, dst);
  }

  lemma {:induction false} PairPushJustified(
      p: Program, fn: Function, t: seq<Mark>, code: seq<Op>, d: seq<Instr>, i: nat)
    requires Reads(p.pool, code, d) && LocalPairPushAt(p, fn, t, code, i).Fuse?
    ensures Justified(Symbols(p), d, i, Decode(p.pool, LocalPairPushAt(p, fn, t, code, i).op))
  {
    hide Decode, Justified, FoldLocal, PlainSlot;
    var lhs, rhs, c := code[i].a, code[i + 1].a, code[i + 2].code;
    Folded(p, fn, t, i, 2 + ArithmeticKind(c), 3, [lhs, rhs], None);
    LoadLocalAt(p.pool, code, d, i);
    LoadLocalAt(p.pool, code, d, i + 1);
    MathAt(p.pool, code, d, i + 2);
    LocalPush(Symbols(p), d, i, ArithmeticOp(c), Local(lhs), Local(rhs));
  }

  lemma {:induction false} LocalConstantJustified(
      p: Program, fn: Function, t: seq<Mark>, code: seq<Op>, d: seq<Instr>, i: nat)
    requires Reads(p.pool, code, d) && IndexedConstants(code) && LocalConstantAt(p, fn, t, code, i).Fuse?
    ensures Justified(Symbols(p), d, i, Decode(p.pool, LocalConstantAt(p, fn, t, code, i).op))
  {
    hide Decode, Justified, FoldLocal, PlainSlot;
    var lhs, k, c := code[i].a, code[i + 1].a, code[i + 2].code;
    Folded(p, fn, t, i, 12 + ArithmeticKind(c), 3, [lhs], Some(k));
    LoadLocalAt(p.pool, code, d, i);
    ConstantAt(p, code, d, i + 1);
    MathAt(p.pool, code, d, i + 2);
    LocalPush(Symbols(p), d, i, ArithmeticOp(c), Local(lhs), Literal(p.pool[k]));
  }

  lemma {:induction false} LocalMoveJustified(
      p: Program, fn: Function, t: seq<Mark>, code: seq<Op>, d: seq<Instr>, i: nat)
    requires Reads(p.pool, code, d) && LocalMoveAt(p, fn, t, code, i).Fuse?
    ensures Justified(Symbols(p), d, i, Decode(p.pool, LocalMoveAt(p, fn, t, code, i).op))
  {
    hide Decode, Justified, FoldLocal, PlainSlot;
    LoadLocalAt(p.pool, code, d, i);
    StoreLocalAt(p.pool, code, d, i + 1);
    Folded(p, fn, t, i, 0, 2, [code[i + 1].a, code[i].a], None);
    SpellsLeaf(d, i, Local(code[i].a));
    LocalAssign(Symbols(p), d, i, L(code[i].a), code[i + 1].a);
  }

  lemma {:induction false} ConstantProductAddSpelled(
      symbols: nat, d: seq<Instr>, i: nat, k: Num, a: int, b: int, c: int, dst: int)
    requires i + 7 < |d|
    requires d[i] == ILoad(Literal(k)) && d[i + 1] == ILoad(Local(a)) && d[i + 2] == IBin(Mul)
    requires d[i + 3] == ILoad(Local(b)) && d[i + 4] == IBin(Mul) && d[i + 5] == ILoad(Local(c))
    requires d[i + 6] == IBin(Add) && d[i + 7] == IStore(Local(dst))
    ensures Justified(symbols, d, i, FAssign(Local(dst), Bin(Add, Bin(Mul, Bin(Mul, C(k), L(a)), L(b)), L(c))))
  {
    hide Justified;
    var ka := Bin(Mul, C(k), L(a));
    SpellsPair(d, i, Mul, Literal(k), Local(a));
    SpellsThen(d, i, ka, Mul, Local(b));
    SpellsThen(d, i, Bin(Mul, ka, L(b)), Add, Local(c));
    PairInRange(symbols, Mul, ka.l.x, ka.r.x);
    NodeInRange(symbols, Mul, ka, L(b));
    NodeInRange(symbols, Add, Bin(Mul, ka, L(b)), L(c));
    LocalAssign(symbols, d, i, Bin(Add, Bin(Mul, ka, L(b)), L(c)), dst);
  }

  lemma {:induction false} ConstantProductAddJustified(
      p: Program, fn: Function, t: seq<Mark>, code: seq<Op>, d: seq<Instr>, i: nat)
    requires Reads(p.pool, code, d) && IndexedConstants(code) && LocalConstantProductAddAt(p, fn, t, code, i).Fuse?
    ensures Justified(Symbols(p), d, i, Decode(p.pool, LocalConstantProductAddAt(p, fn, t, code, i).op))
  {
    hide Decode, Justified, FoldLocal, PlainSlot;
    var k, a, b, c, dst := code[i].a, code[i + 1].a, code[i + 3].a, code[i + 5].a, code[i + 7].a;
    Folded(p, fn, t, i, 11, 8, [dst, a, b, c], Some(k));
    ConstantAt(p, code, d, i);
    LoadLocalAt(p.pool, code, d, i + 1);
    MathAt(p.pool, code, d, i + 2);
    LoadLocalAt(p.pool, code, d, i + 3);
    MathAt(p.pool, code, d, i + 4);
    LoadLocalAt(p.pool, code, d, i + 5);
    MathAt(p.pool, code, d, i + 6);
    StoreLocalAt(p.pool, code, d, i + 7);
    ConstantProductAddSpelled(Symbols(p), d, i, p.pool[k], a, b, c, dst);
  }

  lemma {:induction false} ConstantMulJustified(
      p: Program, fn: Function, t: seq<Mark>, code: seq<Op>, d: seq<Instr>, i: nat)
    requires Reads(p.pool, code, d) && IndexedConstants(code) && LocalConstantMulAt(p, fn, t, code, i).Fuse?
    ensures Justified(Symbols(p), d, i, Decode(p.pool, LocalConstantMulAt(p, fn, t, code, i).op))
  {
    hide Decode, Justified, FoldLocal, PlainSlot;
    var k := code[i].a;
    Folded(p, fn, t, i, 15, 3, [code[i + 1].a], Some(k));
    ConstantAt(p, code, d, i);
    LoadLocalAt(p.pool, code, d, i + 1);
    MathAt(p.pool, code, d, i + 2);
    LocalPush(Symbols(p), d, i, Mul, Literal(p.pool[k]), Local(code[i + 1].a));
  }

  lemma {:induction false} LocalStoreConstantJustified(
      p: Program, fn: Function, t: seq<Mark>, code: seq<Op>, d: seq<Instr>, i: nat)
    requires Reads(p.pool, code, d) && IndexedConstants(code) && LocalStoreConstantAt(p, fn, t, code, i).Fuse?
    ensures Justified(Symbols(p), d, i, Decode(p.pool, LocalStoreConstantAt(p, fn, t, code, i).op))
  {
    hide Decode, Justified, FoldLocal, PlainSlot;
    var k := code[i].a;
    Folded(p, fn, t, i, 1, 2, [code[i + 1].a], Some(k));
    ConstantAt(p, code, d, i);
    StoreLocalAt(p.pool, code, d, i + 1);
    SpellsLeaf(d, i, Literal(p.pool[k]));
    LocalAssign(Symbols(p), d, i, C(p.pool[k]), code[i + 1].a);
  }

  lemma {:induction false} DecodesLocalGray(pool: seq<Num>, gray: int, lhs: int, rhs: int, x: int, y: int)
    requires Slot7(gray) && Slot7(lhs) && Slot7(rhs) && Slot7(x)
    ensures Decode(pool, Op(LocalGrayPsetMulInt, 0, 12, Pack7(gray, lhs, rhs, x), y))
            == FGray(Local(gray), Local(lhs), Local(rhs), Local(x), Local(y))
  {
    Unpack7(gray, lhs, rhs, x);
    hide Field7, Pack7;
  }

  lemma {:induction false} LocalGraySpelled(symbols: nat, d: seq<Instr>, i: nat, f: Instr)
    requires f.FGray? && OperandsOk(symbols, f) && i + 11 < |d|
    requires d[i] == ILoad(f.lhs) && d[i + 1] == ILoad(f.rhs) && d[i + 2] == IBin(Mul) && d[i + 3] == IInt &&
        d[i + 4] == IStore(f.dst)
    requires d[i + 5] == ILoad(f.dst) && d[i + 6] == ILoad(f.dst) && d[i + 7] == ILoad(f.dst) && d[i + 8] == IColor
    requires d[i + 9] == ILoad(f.px) && d[i + 10] == ILoad(f.py) && d[i + 11] == IPset
    ensures Justified(symbols, d, i, f)
  {
    SpellsPair(d, i, Mul, f.lhs, f.rhs);
    SpellsPainting(d, i + 5, f.dst, f.dst, f.dst, f.px, f.py);
    SpellsConcat(d, i + 3, [IInt, IStore(f.dst)], Painting(f.dst, f.dst, f.dst, f.px, f.py));
    SpellsConcat(d, i, Code(Bin(Mul, Leaf(f.lhs), Leaf(f.rhs))), [IInt, IStore(f.dst)] + Painting(f.dst, f.dst,
        f.dst, f.px, f.py));
    JustifiedBy(symbols, d, i, f, PLAIN);
  }

  lemma {:induction false} IntAt(pool: seq<Num>, code: seq<Op>, d: seq<Instr>, i: nat)
    requires Reads(pool, code, d)
    ensures IsIntCall(code, i) ==> i < |d| && d[i] == IInt
  {}

  lemma {:induction false} FiveSlots(fn: Function, a: int, b: int, c: int, e: int, f: int)
    requires LocalSlots(fn, [a, b, c, e, f])
    ensures Slot7(a) && Slot7(b) && Slot7(c) && Slot7(e) && Slot7(f)
  {
    var s := [a, b, c, e, f];
    assert s[0] == a && s[1] == b && s[2] == c && s[3] == e && s[4] == f;
  }

  /** The call and store slots of the local gray pipeline. */
  lemma {:induction false} GrayCallsAt(pool: seq<Num>, code: seq<Op>, d: seq<Instr>, i: nat)
    requires Reads(pool, code, d) && Is(code, i + 2, MulNum) && Is(code, i + 4, StoreLocalNum)
    requires Calls(code, i + 8, FN_COLOR, 3) && Calls(code, i + 11, FN_PSET, 2)
    ensures d[i + 2] == IBin(Mul) && d[i + 4] == IStore(Local(code[i + 4].a)) && d[i + 8] == IColor &&
        d[i + 11] == IPset
  {}

  lemma {:induction false} LocalGrayJustified(
      p: Program, fn: Function, t: seq<Mark>, code: seq<Op>, d: seq<Instr>, i: nat)
    requires Reads(p.pool, code, d) && LocalGrayAt(fn, t, code, i).Fuse?
    ensures Justified(Symbols(p), d, i, Decode(p.pool, LocalGrayAt(fn, t, code, i).op))
  {
    hide Decode, Justified, Pack7, TailIsStraight, IsIntCall, LocalSlots, PlainSlot;
    IntAt(p.pool, code, d, i + 3);
    LoadLocalAt(p.pool, code, d, i);
    LoadLocalAt(p.pool, code, d, i + 1);
    LoadLocalAt(p.pool, code, d, i + 5);
    LoadLocalAt(p.pool, code, d, i + 6);
    LoadLocalAt(p.pool, code, d, i + 7);
    LoadLocalAt(p.pool, code, d, i + 9);
    LoadLocalAt(p.pool, code, d, i + 10);
    GrayCallsAt(p.pool, code, d, i);
    var gray, lhs, rhs, x, y := code[i + 4].a, code[i].a, code[i + 1].a, code[i + 9].a, code[i + 10].a;
    FiveSlots(fn, Arg(code, i, 4), Arg(code, i, 0), Arg(code, i, 1), Arg(code, i, 9), Arg(code, i, 10));
    DecodesLocalGray(p.pool, gray, lhs, rhs, x, y);
    LocalGraySpelled(Symbols(p), d, i, FGray(Local(gray), Local(lhs), Local(rhs), Local(x), Local(y)));
  }

  lemma {:induction false} LocalJustified(p: Program, fn: Function, t: seq<Mark>, code: seq<Op>, d: seq<Instr>, i: nat)
    requires Reads(p.pool, code, d) && IndexedConstants(code) && LocalMatch(p, fn, t, code, i).Fuse?
    ensures Justified(Symbols(p), d, i, Decode(p.pool, LocalMatch(p, fn, t, code, i).op))
  {
    hide Decode, Justified, Reads, LocalGrayAt, LocalProductsDifferenceAt, LocalAddProductAt, LocalProductAddAt,
      LocalAddConstantProductAt, LocalPairStoreAt, LocalPairPushAt, LocalConstantAt, LocalMoveAt,
      LocalConstantProductAddAt, LocalConstantMulAt, LocalStoreConstantAt;
    if LocalGrayAt(fn, t, code, i).Fuse? { LocalGrayJustified(p, fn, t, code, d, i); }
    else if LocalProductsDifferenceAt(p, fn, t, code, i).Fuse? { ProductsDifferenceJustified(p, fn, t, code, d, i); }
    else if LocalAddProductAt(p, fn, t, code, i).Fuse? { LocalAddProductJustified(p, fn, t, code, d, i); }
    else if LocalProductAddAt(p, fn, t, code, i).Fuse? { LocalProductAddJustified(p, fn, t, code, d, i); }
    else if LocalAddConstantProductAt(p, fn, t, code, i).Fuse? { AddConstantProductJustified(p, fn, t, code, d, i); }
    else if LocalPairStoreAt(p, fn, t, code, i).Fuse? { PairStoreJustified(p, fn, t, code, d, i); }
    else if LocalPairPushAt(p, fn, t, code, i).Fuse? { PairPushJustified(p, fn, t, code, d, i); }
    else if LocalConstantAt(p, fn, t, code, i).Fuse? { LocalConstantJustified(p, fn, t, code, d, i); }
    else if LocalMoveAt(p, fn, t, code, i).Fuse? { LocalMoveJustified(p, fn, t, code, d, i); }
    else if LocalConstantProductAddAt(p, fn, t, code, i).Fuse? { ConstantProductAddJustified(p, fn, t, code, d, i); }
    else if LocalConstantMulAt(p, fn, t, code, i).Fuse? { ConstantMulJustified(p, fn, t, code, d, i); }
    else { LocalStoreConstantJustified(p, fn, t, code, d, i); }
  }
}
