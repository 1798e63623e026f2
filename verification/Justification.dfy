/** Every slot the passes leave behind is the original operation, the same call in its fast
    form, or a fused operation whose spelling is the original code from that slot on. */
module Justification {
  import opened Il
  import opened Optimizer
  import opened Spelling

  predicate FusedInstr(i: Instr) {
    i.FPush? || i.FAssign? || i.FBranch? || i.FBinJz? || i.FNotJz? || i.FPlot? || i.FGray? || i.FGrayStack? ||
    i.FMinMul? || i.FComplex?
  }

  function Decoded(pool: seq<Num>, code: seq<Op>): (d: seq<Instr>)
    ensures |d| == |code| && forall k :: 0 <= k < |code| ==> d[k] == Decode(pool, code[k])
  {
    seq(|code|, k requires 0 <= k < |code| => Decode(pool, code[k]))
  }

  /** The decoded program `d` spells `ins` from `pos` on. */
  ghost predicate SpellsAt(d: seq<Instr>, pos: nat, ins: seq<Instr>) {
    pos + |ins| <= |d| && forall k :: 0 <= k < |ins| ==> d[pos + k] == ins[k]
  }

  ghost predicate Justified(symbols: nat, d: seq<Instr>, pos: nat, i: Instr) {
    FusedInstr(i) && OperandsOk(symbols, i) && exists w :: SpellsAt(d, pos, Spell(i, w))
  }

  /** What an original operation, still in place, says about the decoded program. */
  predicate PlainSlot(pool: seq<Num>, op: Op, i: Instr) {
    match op.code
    case PushNum => i == ConstantLoad(pool, op.a)
    case LoadNum => i == ILoad(Global(op.a))
    case StoreNum => i == IStore(Global(op.a))
    case LoadLocalNum => i == ILoad(Local(op.a))
    case StoreLocalNum => i == IStore(Local(op.a))
    case AddNum => i == IBin(Add)
    case SubNum => i == IBin(Sub)
    case MulNum => i == IBin(Mul)
    case DivNum => i == IBin(Div)
    case CeqNum => i == IBin(Eq)
    case CneNum => i == IBin(Ne)
    case CltNum => i == IBin(Lt)
    case CleNum => i == IBin(Le)
    case CgtNum => i == IBin(Gt)
    case CgeNum => i == IBin(Ge)
    case AndNum => i == IBin(And)
    case OrNum => i == IBin(Or)
    case NotNum => i == INot
    case Jz => i == IJz(op.a)
    case ForIncr => i == IForIncr(op.a)
    case CallFn => i == CallInstr(op)
    case Fn1Num => i == NumericInstr(op.a, 1)
    case _ => true
  }

  ghost predicate Reads(pool: seq<Num>, code: seq<Op>, d: seq<Instr>) {
    |code| == |d| && forall j {:trigger code[j]} {:trigger d[j]} :: 0 <= j < |code| ==> PlainSlot(pool, code[j], d[j])
  }

  // ---------- single slots ----------

  lemma {:induction false} SameCount(pool: seq<Num>, code: seq<Op>, d: seq<Instr>)
    requires Reads(pool, code, d)
    ensures |code| == |d|
  {}

  lemma {:induction false} LoadAt(pool: seq<Num>, code: seq<Op>, d: seq<Instr>, i: nat)
    requires Reads(pool, code, d) && Is(code, i, LoadNum)
    ensures d[i] == ILoad(Global(code[i].a))
  {}

  lemma {:induction false} StoreAt(pool: seq<Num>, code: seq<Op>, d: seq<Instr>, i: nat)
    requires Reads(pool, code, d) && Is(code, i, StoreNum)
    ensures d[i] == IStore(Global(code[i].a))
  {}

  lemma {:induction false} MathAt(pool: seq<Num>, code: seq<Op>, d: seq<Instr>, i: nat)
    requires Reads(pool, code, d) && i < |code| && AddSubMul(code[i].code)
    ensures d[i] == IBin(ArithmeticOp(code[i].code))
  {}

  lemma {:induction false} ConstantAt(p: Program, code: seq<Op>, d: seq<Instr>, i: nat)
    requires Reads(p.pool, code, d) && Is(code, i, PushNum) && ConstantIndex(p, code[i].a)
    ensures d[i] == ILoad(Literal(p.pool[code[i].a]))
  {}

  // ---------- assembling a spelling ----------

  lemma {:induction false} SpellsConcat(d: seq<Instr>, pos: nat, a: seq<Instr>, b: seq<Instr>)
    requires SpellsAt(d, pos, a) && SpellsAt(d, pos + |a|, b)
    ensures SpellsAt(d, pos, a + b)
  {
    forall k | 0 <= k < |a + b| ensures d[pos + k] == (a + b)[k] {
      if k >= |a| { assert d[pos + |a| + (k - |a|)] == b[k - |a|]; }
    }
  }

  lemma {:induction false} SpellsPart(d: seq<Instr>, pos: nat, a: seq<Instr>, b: seq<Instr>)
    requires SpellsAt(d, pos, a + b)
    ensures SpellsAt(d, pos, a) && SpellsAt(d, pos + |a|, b)
  {
    forall k | 0 <= k < |a| ensures d[pos + k] == a[k] { assert (a + b)[k] == a[k]; }
    forall k | 0 <= k < |b| ensures d[pos + |a| + k] == b[k] { assert (a + b)[|a| + k] == b[k]; }
  }

  lemma {:induction false} SpellsOne(d: seq<Instr>, pos: nat, i: Instr)
    requires pos < |d| && d[pos] == i
    ensures SpellsAt(d, pos, [i])
  {}

  lemma {:induction false} SpellsBin(d: seq<Instr>, pos: nat, op: BinOp, l: Expr, r: Expr)
    requires SpellsAt(d, pos, Code(l)) && SpellsAt(d, pos + CodeLength(l), Code(r))
    requires pos + CodeLength(l) + CodeLength(r) < |d| && d[pos + CodeLength(l) + CodeLength(r)] == IBin(op)
    ensures SpellsAt(d, pos, Code(Bin(op, l, r)))
    ensures CodeLength(Bin(op, l, r)) == CodeLength(l) + CodeLength(r) + 1
  {
    SpellsOne(d, pos + CodeLength(l) + CodeLength(r), IBin(op));
    SpellsConcat(d, pos, Code(l), Code(r));
    SpellsConcat(d, pos, Code(l) + Code(r), [IBin(op)]);
  }

  lemma {:induction false} SpellsLeaf(d: seq<Instr>, pos: nat, x: Operand)
    requires pos < |d| && d[pos] == ILoad(x)
    ensures SpellsAt(d, pos, Code(Leaf(x))) && CodeLength(Leaf(x)) == 1
  {}

  /** LOAD x, LOAD y, op. */
  lemma {:induction false} SpellsPair(d: seq<Instr>, pos: nat, op: BinOp, x: Operand, y: Operand)
    requires pos + 2 < |d| && d[pos] == ILoad(x) && d[pos + 1] == ILoad(y) && d[pos + 2] == IBin(op)
    ensures SpellsAt(d, pos, Code(Bin(op, Leaf(x), Leaf(y))))
    ensures CodeLength(Bin(op, Leaf(x), Leaf(y))) == 3
  {
    SpellsLeaf(d, pos, x);
    SpellsLeaf(d, pos + 1, y);
    SpellsBin(d, pos, op, Leaf(x), Leaf(y));
  }

  /** An expression, then LOAD y, op. */
  lemma {:induction false} SpellsThen(d: seq<Instr>, pos: nat, l: Expr, op: BinOp, y: Operand)
    requires SpellsAt(d, pos, Code(l)) && pos + CodeLength(l) + 1 < |d|
    requires d[pos + CodeLength(l)] == ILoad(y) && d[pos + CodeLength(l) + 1] == IBin(op)
    ensures SpellsAt(d, pos, Code(Bin(op, l, Leaf(y))))
    ensures CodeLength(Bin(op, l, Leaf(y))) == CodeLength(l) + 2
  {
    SpellsLeaf(d, pos + CodeLength(l), y);
    SpellsBin(d, pos, op, l, Leaf(y));
  }

  /** LOAD x, an expression, op. */
  lemma {:induction false} SpellsAfter(d: seq<Instr>, pos: nat, x: Operand, op: BinOp, r: Expr)
    requires SpellsAt(d, pos + 1, Code(r)) && pos + 1 + CodeLength(r) < |d|
    requires d[pos] == ILoad(x) && d[pos + 1 + CodeLength(r)] == IBin(op)
    ensures SpellsAt(d, pos, Code(Bin(op, Leaf(x), r)))
    ensures CodeLength(Bin(op, Leaf(x), r)) == CodeLength(r) + 2
  {
    SpellsLeaf(d, pos, x);
    SpellsBin(d, pos, op, Leaf(x), r);
  }

  lemma {:induction false} SpellsStore(d: seq<Instr>, pos: nat, e: Expr, dst: Operand)
    requires SpellsAt(d, pos, Code(e)) && pos + CodeLength(e) < |d| && d[pos + CodeLength(e)] == IStore(dst)
    ensures SpellsAt(d, pos, Assignment(dst, e))
  {
    SpellsOne(d, pos + CodeLength(e), IStore(dst));
    SpellsConcat(d, pos, Code(e), [IStore(dst)]);
  }

  lemma {:induction false} SpellsBranch(d: seq<Instr>, pos: nat, e: Expr, target: int)
    requires SpellsAt(d, pos, Code(e)) && pos + CodeLength(e) < |d| && d[pos + CodeLength(e)] == IJz(target)
    ensures SpellsAt(d, pos, BranchCode(e, target))
  {
    SpellsOne(d, pos + CodeLength(e), IJz(target));
    SpellsConcat(d, pos, Code(e), [IJz(target)]);
  }

  lemma {:induction false} SpellsPainting(
      d: seq<Instr>, i: nat, r: Operand, g: Operand, b: Operand, x: Operand, y: Operand)
    requires i + 6 < |d| && d[i] == ILoad(r) && d[i + 1] == ILoad(g) && d[i + 2] == ILoad(b) && d[i + 3] == IColor
    requires d[i + 4] == ILoad(x) && d[i + 5] == ILoad(y) && d[i + 6] == IPset
    ensures SpellsAt(d, i, Painting(r, g, b, x, y))
  {
    assert Painting(r, g, b, x, y) == [ILoad(r), ILoad(g), ILoad(b), IColor, ILoad(x), ILoad(y), IPset];
  }

  const PLAIN := Order(false, false, false)

  lemma {:induction false} JustifiedBy(symbols: nat, d: seq<Instr>, pos: nat, i: Instr, w: Order)
    requires FusedInstr(i) && OperandsOk(symbols, i) && SpellsAt(d, pos, Spell(i, w))
    ensures Justified(symbols, d, pos, i)
  {}

  // ---------- what the packed operations decode to ----------

  lemma {:induction false} DecodesMulSubAdd(pool: seq<Num>, dst: int, a: int, b: int, c: int, f: int, e: int)
    requires Slot6(dst) && Slot6(a) && Slot6(b) && Slot6(c) && Slot6(f) && Slot6(e)
    ensures Decode(pool, Op(MulSubAddStore, 0, 0, Pack6(dst, a, b, c, f), e))
            == FAssign(Global(dst), Bin(Add, Bin(Sub, Bin(Mul, G(a), G(b)), Bin(Mul, G(c), G(f))), G(e)))
  {
    hide Field6, Pack6, Field7, Byte, LocalFusedInstr, ComplexInstr, EscapeTest;
    FieldOfSlot(e);
    Unpack6(dst, a, b, c, f);
  }

  lemma {:induction false} DecodesMulAdd(pool: seq<Num>, dst: int, addend: int, lhs: int, rhs: int, productFirst: bool)
    requires Slot6(dst) && Slot6(addend) && Slot6(lhs) && Slot6(rhs)
    ensures Decode(pool, Op(MulAddStore, if productFirst then 1 else 0, 0, Pack6(dst, addend, lhs, rhs, 0), 0))
            == FAssign(Global(dst), if productFirst then Bin(Add, Bin(Mul, G(lhs), G(rhs)), G(addend))
                                    else Bin(Add, G(addend), Bin(Mul, G(lhs), G(rhs))))
  {
    hide Field6, Pack6, Field7, Byte, LocalFusedInstr, ComplexInstr, EscapeTest;
    Unpack6(dst, addend, lhs, rhs, 0);
  }

  lemma {:induction false} DecodesMulCvvAdd(pool: seq<Num>, dst: int, a: int, b: int, c: int, k: int)
    requires Slot6(dst) && Slot6(a) && Slot6(b) && Slot6(c) && 0 <= k < |pool|
    ensures Decode(pool, Op(MulCvvAddStore, 0, 0, Pack6(dst, a, b, c, 0), k))
            == FAssign(Global(dst), Bin(Add, Bin(Mul, Bin(Mul, C(pool[k]), G(a)), G(b)), G(c)))
  {
    hide Field6, Pack6, Field7, Byte, LocalFusedInstr, ComplexInstr, EscapeTest;
    Unpack6(dst, a, b, c, 0);
  }

  lemma {:induction false} DecodesEscape(pool: seq<Num>, either: bool, x: int, y: int, k: int, target: int)
    requires Slot6(x) && Slot6(y) && 0 <= k < |pool|
    ensures Decode(pool, Op(if either then Sq2GtOrJz else SumSqGtJz, 0, Pack6(x, y, 0, 0, 0), target, k))
            == FBranch(EscapeTest(either, x, y, pool[k]), target)
  {
    hide Field6, Pack6, Field7, Byte, LocalFusedInstr, ComplexInstr, EscapeTest;
    Unpack6(x, y, 0, 0, 0);
  }

  lemma {:induction false} DecodesRgbPset(pool: seq<Num>, r: int, g: int, b: int, x: int, y: int)
    requires Slot6(r) && Slot6(g) && Slot6(b) && Slot6(x) && Slot6(y)
    ensures Decode(pool, Op(RgbPsetVv, 0, 0, Pack6(r, g, b, x, y), 0))
            == FPlot(Global(r), Global(g), Global(b), Global(x), Global(y))
  {
    hide Field6, Pack6, Field7, Byte, LocalFusedInstr, ComplexInstr, EscapeTest;
    Unpack6(r, g, b, x, y);
  }

  lemma {:induction false} DecodesMulCv(pool: seq<Num>, k: int, v: int)
    requires 0 <= k < |pool|
    ensures Decode(pool, Op(MulCvPush, 0, 0, k, v)) == FPush(Bin(Mul, C(pool[k]), G(v)))
  {}

  lemma {:induction false} DecodesVvPush(pool: seq<Num>, c: OpCode, lhs: int, rhs: int)
    requires AddSubMul(c)
    ensures Decode(pool, Op(match c case AddNum => AddVvPush case SubNum => SubVvPush case _ => MulVvPush, 0, 0, lhs,
        rhs))
            == FPush(Bin(ArithmeticOp(c), G(lhs), G(rhs)))
  {}

  /** A comparison or connective and the jump it feeds. */
  lemma {:induction false} DecodesCondition(pool: seq<Num>, op: Op, i: Instr, target: int)
    requires JumpingForm(op.code).Some? && PlainSlot(pool, op, i)
    ensures var f := Decode(pool, Op(JumpingForm(op.code).value, 0, 0, target, 0));
            f == (if i.INot? then FNotJz(target) else if i.IBin? then FBinJz(i.op, target) else f) &&
            (i.INot? || (i.IBin? && i.op != Min))
  {}

  function VvStoreCode(
      c: OpCode): OpCode { match c case AddNum => AddVvStore case SubNum => SubVvStore case _ => MulVvStore }

  lemma {:induction false} DecodesStoreOf(pool: seq<Num>, c: OpCode, dst: int, b: int)
    requires AddSubMul(c)
    ensures Decode(pool, Op(VvStoreCode(c), 0, 0, dst, b))
            == FAssign(Global(dst), Bin(ArithmeticOp(c), G(b % 256), G(b / 256 % 256)))
  {
    hide Field6, Field7, Byte, LocalFusedInstr, ComplexInstr, EscapeTest, Constant, ConstantLoad, CallInstr,
        NumericInstr;
  }

  lemma {:induction false} DecodesVvStore(pool: seq<Num>, c: OpCode, dst: int, lhs: int, rhs: int)
    requires AddSubMul(c) && Slot6(lhs) && Slot6(rhs)
    ensures Decode(pool, Op(VvStoreCode(c), 0, 0, dst, lhs % 256 + 256 * (rhs % 256)))
            == FAssign(Global(dst), Bin(ArithmeticOp(c), G(lhs), G(rhs)))
  {
    hide Decode;
    var b := lhs % 256 + 256 * (rhs % 256);
    assert b % 256 == lhs && b / 256 % 256 == rhs;
    DecodesStoreOf(pool, c, dst, b);
  }

  // ---------- the first pass ----------

  /** At most 64 symbols, so that a slot fits its six-bit field. */
  predicate SlotsFit(p: Program) { |p.symbolIsString| <= 64 }

  function Symbols(p: Program): nat { |p.symbolIsString| }

  /** Operands of a product of two globals are in range when both are. */
  lemma {:induction false} PairOk(symbols: nat, op: BinOp, x: Operand, y: Operand)
    requires VarOk(symbols, x) && VarOk(symbols, y) && !x.Local? && !y.Local?
    ensures ExprOk(symbols, Bin(op, Leaf(x), Leaf(y))) && !UsesLocals(Bin(op, Leaf(x), Leaf(y)))
  {}

  lemma {:induction false} NodeOk(symbols: nat, op: BinOp, l: Expr, r: Expr)
    requires ExprOk(symbols, l) && ExprOk(symbols, r) && !UsesLocals(l) && !UsesLocals(r)
    ensures ExprOk(symbols, Bin(op, l, r)) && !UsesLocals(Bin(op, l, r))
  {}

  lemma {:induction false} AssignJustified(symbols: nat, d: seq<Instr>, i: nat, e: Expr, dst: int)
    requires SpellsAt(d, i, Code(e)) && i + CodeLength(e) < |d| && d[i + CodeLength(e)] == IStore(Global(dst))
    requires ExprOk(symbols, e) && !UsesLocals(e) && SlotOk(symbols, dst)
    ensures Justified(symbols, d, i, FAssign(Global(dst), e))
  {
    SpellsStore(d, i, e, Global(dst));
    JustifiedBy(symbols, d, i, FAssign(Global(dst), e), PLAIN);
  }

  lemma {:induction false} MulSubAddSpelled(
      symbols: nat, d: seq<Instr>, i: nat, a: int, b: int, c: int, f: int, e: int, dst: int)
    requires SlotOk(symbols, a) && SlotOk(symbols, b) && SlotOk(symbols, c) && SlotOk(symbols, f) && SlotOk(symbols, e)
    requires SlotOk(symbols, dst) && i + 9 < |d|
    requires d[i] == ILoad(Global(a)) && d[i + 1] == ILoad(Global(b)) && d[i + 2] == IBin(Mul)
    requires d[i + 3] == ILoad(Global(c)) && d[i + 4] == ILoad(Global(f)) && d[i + 5] == IBin(Mul) &&
        d[i + 6] == IBin(Sub)
    requires d[i + 7] == ILoad(Global(e)) && d[i + 8] == IBin(Add) && d[i + 9] == IStore(Global(dst))
    ensures Justified(symbols, d, i, FAssign(Global(dst), Bin(Add, Bin(Sub, Bin(Mul, G(a), G(b)), Bin(Mul, G(c),
        G(f))), G(e))))
  {
    var ab, cf := Bin(Mul, G(a), G(b)), Bin(Mul, G(c), G(f));
    SpellsPair(d, i, Mul, Global(a), Global(b));
    SpellsPair(d, i + 3, Mul, Global(c), Global(f));
    SpellsBin(d, i, Sub, ab, cf);
    SpellsThen(d, i, Bin(Sub, ab, cf), Add, Global(e));
    PairOk(symbols, Mul, Global(a), Global(b));
    PairOk(symbols, Mul, Global(c), Global(f));
    NodeOk(symbols, Sub, ab, cf);
    NodeOk(symbols, Add, Bin(Sub, ab, cf), G(e));
    AssignJustified(symbols, d, i, Bin(Add, Bin(Sub, ab, cf), G(e)), dst);
  }

  lemma {:induction false} MulSubAddJustified(p: Program, t: seq<Mark>, code: seq<Op>, d: seq<Instr>, i: nat)
    requires Reads(p.pool, code, d) && SlotsFit(p) && MulSubAddAt(p, t, code, i).Fuse?
    ensures Justified(Symbols(p), d, i, Decode(p.pool, MulSubAddAt(p, t, code, i).op))
  {
    hide Justified, Decode, Field6, Pack6;
    var a, b, c, f, e, dst := code[i].a, code[i + 1].a, code[i + 3].a, code[i + 4].a, code[i + 7].a, code[i + 9].a;
    DecodesMulSubAdd(p.pool, dst, a, b, c, f, e);
    MulSubAddSpelled(Symbols(p), d, i, a, b, c, f, e, dst);
  }

  lemma {:induction false} AddProductSpelled(
      symbols: nat, d: seq<Instr>, i: nat, addend: int, lhs: int, rhs: int, dst: int)
    requires SlotOk(symbols, addend) && SlotOk(symbols, lhs) && SlotOk(symbols, rhs) && SlotOk(symbols, dst) &&
        i + 5 < |d|
    requires d[i] == ILoad(Global(addend)) && d[i + 1] == ILoad(Global(lhs)) && d[i + 2] == ILoad(Global(rhs))
    requires d[i + 3] == IBin(Mul) && d[i + 4] == IBin(Add) && d[i + 5] == IStore(Global(dst))
    ensures Justified(symbols, d, i, FAssign(Global(dst), Bin(Add, G(addend), Bin(Mul, G(lhs), G(rhs)))))
  {
    var product := Bin(Mul, G(lhs), G(rhs));
    SpellsPair(d, i + 1, Mul, Global(lhs), Global(rhs));
    SpellsAfter(d, i, Global(addend), Add, product);
    PairOk(symbols, Mul, Global(lhs), Global(rhs));
    NodeOk(symbols, Add, G(addend), product);
    AssignJustified(symbols, d, i, Bin(Add, G(addend), product), dst);
  }

  lemma {:induction false} AddProductJustified(p: Program, t: seq<Mark>, code: seq<Op>, d: seq<Instr>, i: nat)
    requires Reads(p.pool, code, d) && SlotsFit(p) && AddProductAt(p, t, code, i).Fuse?
    ensures Justified(Symbols(p), d, i, Decode(p.pool, AddProductAt(p, t, code, i).op))
  {
    hide Justified, Decode, Field6, Pack6;
    var addend, lhs, rhs, dst := code[i].a, code[i + 1].a, code[i + 2].a, code[i + 5].a;
    DecodesMulAdd(p.pool, dst, addend, lhs, rhs, false);
    AddProductSpelled(Symbols(p), d, i, addend, lhs, rhs, dst);
  }

  lemma {:induction false} ProductAddSpelled(
      symbols: nat, d: seq<Instr>, i: nat, addend: int, lhs: int, rhs: int, dst: int)
    requires SlotOk(symbols, addend) && SlotOk(symbols, lhs) && SlotOk(symbols, rhs) && SlotOk(symbols, dst) &&
        i + 5 < |d|
    requires d[i] == ILoad(Global(lhs)) && d[i + 1] == ILoad(Global(rhs)) && d[i + 2] == IBin(Mul)
    requires d[i + 3] == ILoad(Global(addend)) && d[i + 4] == IBin(Add) && d[i + 5] == IStore(Global(dst))
    ensures Justified(symbols, d, i, FAssign(Global(dst), Bin(Add, Bin(Mul, G(lhs), G(rhs)), G(addend))))
  {
    var product := Bin(Mul, G(lhs), G(rhs));
    SpellsPair(d, i, Mul, Global(lhs), Global(rhs));
    SpellsThen(d, i, product, Add, Global(addend));
    PairOk(symbols, Mul, Global(lhs), Global(rhs));
    NodeOk(symbols, Add, product, G(addend));
    AssignJustified(symbols, d, i, Bin(Add, product, G(addend)), dst);
  }

  lemma {:induction false} ProductAddJustified(p: Program, t: seq<Mark>, code: seq<Op>, d: seq<Instr>, i: nat)
    requires Reads(p.pool, code, d) && SlotsFit(p) && ProductAddAt(p, t, code, i).Fuse?
    ensures Justified(Symbols(p), d, i, Decode(p.pool, ProductAddAt(p, t, code, i).op))
  {
    hide Justified, Decode, Field6, Pack6;
    var lhs, rhs, addend, dst := code[i].a, code[i + 1].a, code[i + 3].a, code[i + 5].a;
    DecodesMulAdd(p.pool, dst, addend, lhs, rhs, true);
    ProductAddSpelled(Symbols(p), d, i, addend, lhs, rhs, dst);
  }

  lemma {:induction false} MulCvvAddSpelled(
      symbols: nat, d: seq<Instr>, i: nat, k: Num, a: int, b: int, c: int, dst: int)
    requires SlotOk(symbols, a) && SlotOk(symbols, b) && SlotOk(symbols, c) && SlotOk(symbols, dst) && i + 7 < |d|
    requires d[i] == ILoad(Literal(k)) && d[i + 1] == ILoad(Global(a)) && d[i + 2] == IBin(Mul)
    requires d[i + 3] == ILoad(Global(b)) && d[i + 4] == IBin(Mul)
    requires d[i + 5] == ILoad(Global(c)) && d[i + 6] == IBin(Add) && d[i + 7] == IStore(Global(dst))
    ensures Justified(symbols, d, i, FAssign(Global(dst), Bin(Add, Bin(Mul, Bin(Mul, C(k), G(a)), G(b)), G(c))))
  {
    var ka := Bin(Mul, C(k), G(a));
    SpellsPair(d, i, Mul, Literal(k), Global(a));
    SpellsThen(d, i, ka, Mul, Global(b));
    SpellsThen(d, i, Bin(Mul, ka, G(b)), Add, Global(c));
    PairOk(symbols, Mul, Literal(k), Global(a));
    NodeOk(symbols, Mul, ka, G(b));
    NodeOk(symbols, Add, Bin(Mul, ka, G(b)), G(c));
    AssignJustified(symbols, d, i, Bin(Add, Bin(Mul, ka, G(b)), G(c)), dst);
  }

  lemma {:induction false} MulCvvAddJustified(p: Program, t: seq<Mark>, code: seq<Op>, d: seq<Instr>, i: nat)
    requires Reads(p.pool, code, d) && SlotsFit(p) && MulCvvAddAt(p, t, code, i).Fuse?
    ensures Justified(Symbols(p), d, i, Decode(p.pool, MulCvvAddAt(p, t, code, i).op))
  {
    hide Justified, Decode, Field6, Pack6;
    var a, b, c, dst := code[i + 1].a, code[i + 3].a, code[i + 5].a, code[i + 7].a;
    DecodesMulCvvAdd(p.pool, dst, a, b, c, code[i].a);
    MulCvvAddSpelled(Symbols(p), d, i, p.pool[code[i].a], a, b, c, dst);
  }

  lemma {:induction false} EscapeOperands(symbols: nat, either: bool, x: int, y: int, limit: Num)
    requires SlotOk(symbols, x) && SlotOk(symbols, y)
    ensures ExprOk(symbols, EscapeTest(either, x, y, limit)) && !UsesLocals(EscapeTest(either, x, y, limit))
  {
    var xx, yy := Bin(Mul, G(x), G(x)), Bin(Mul, G(y), G(y));
    assert ExprOk(symbols, xx) && ExprOk(symbols, yy) && !UsesLocals(xx) && !UsesLocals(yy);
    assert ExprOk(symbols, Bin(Gt, xx, C(limit))) && !UsesLocals(Bin(Gt, xx, C(limit)));
    assert ExprOk(symbols, Bin(Gt, yy, C(limit))) && !UsesLocals(Bin(Gt, yy, C(limit)));
  }

  lemma {:induction false} Sq2Spelled(symbols: nat, d: seq<Instr>, i: nat, x: int, y: int, k: Num, target: int)
    requires SlotOk(symbols, x) && SlotOk(symbols, y) && i + 11 < |d|
    requires d[i] == ILoad(Global(x)) && d[i + 1] == ILoad(Global(x)) && d[i + 2] == IBin(Mul)
    requires d[i + 3] == ILoad(Literal(k)) && d[i + 4] == IBin(Gt)
    requires d[i + 5] == ILoad(Global(y)) && d[i + 6] == ILoad(Global(y)) && d[i + 7] == IBin(Mul)
    requires d[i + 8] == ILoad(Literal(k)) && d[i + 9] == IBin(Gt) && d[i + 10] == IBin(Or) && d[i + 11] == IJz(target)
    ensures Justified(symbols, d, i, FBranch(EscapeTest(true, x, y, k), target))
  {
    var xx, yy := Bin(Mul, G(x), G(x)), Bin(Mul, G(y), G(y));
    SpellsPair(d, i, Mul, Global(x), Global(x));
    SpellsThen(d, i, xx, Gt, Literal(k));
    SpellsPair(d, i + 5, Mul, Global(y), Global(y));
    SpellsThen(d, i + 5, yy, Gt, Literal(k));
    SpellsBin(d, i, Or, Bin(Gt, xx, C(k)), Bin(Gt, yy, C(k)));
    SpellsBranch(d, i, EscapeTest(true, x, y, k), target);
    EscapeOperands(symbols, true, x, y, k);
    JustifiedBy(symbols, d, i, FBranch(EscapeTest(true, x, y, k), target), PLAIN);
  }

  lemma {:induction false} Sq2Justified(p: Program, t: seq<Mark>, code: seq<Op>, d: seq<Instr>, i: nat)
    requires Reads(p.pool, code, d) && SlotsFit(p) && Sq2At(p, t, code, i).Fuse?
    ensures Justified(Symbols(p), d, i, Decode(p.pool, Sq2At(p, t, code, i).op))
  {
    hide Justified, Decode, Field6, Pack6;
    var x, y, k := code[i].a, code[i + 5].a, code[i + 3].a;
    DecodesEscape(p.pool, true, x, y, k, code[i + 11].a);
    Sq2Spelled(Symbols(p), d, i, x, y, p.pool[k], code[i + 11].a);
  }

  lemma {:induction false} SumSqSpelled(symbols: nat, d: seq<Instr>, i: nat, x: int, y: int, k: Num, target: int)
    requires SlotOk(symbols, x) && SlotOk(symbols, y) && i + 9 < |d|
    requires d[i] == ILoad(Global(x)) && d[i + 1] == ILoad(Global(x)) && d[i + 2] == IBin(Mul)
    requires d[i + 3] == ILoad(Global(y)) && d[i + 4] == ILoad(Global(y)) && d[i + 5] == IBin(Mul)
    requires d[i + 6] == IBin(Add) && d[i + 7] == ILoad(Literal(k)) && d[i + 8] == IBin(Gt) && d[i + 9] == IJz(target)
    ensures Justified(symbols, d, i, FBranch(EscapeTest(false, x, y, k), target))
  {
    var xx, yy := Bin(Mul, G(x), G(x)), Bin(Mul, G(y), G(y));
    SpellsPair(d, i, Mul, Global(x), Global(x));
    SpellsPair(d, i + 3, Mul, Global(y), Global(y));
    SpellsBin(d, i, Add, xx, yy);
    SpellsThen(d, i, Bin(Add, xx, yy), Gt, Literal(k));
    SpellsBranch(d, i, EscapeTest(false, x, y, k), target);
    EscapeOperands(symbols, false, x, y, k);
    JustifiedBy(symbols, d, i, FBranch(EscapeTest(false, x, y, k), target), PLAIN);
  }

  lemma {:induction false} SumSqJustified(p: Program, t: seq<Mark>, code: seq<Op>, d: seq<Instr>, i: nat)
    requires Reads(p.pool, code, d) && SlotsFit(p) && SumSqAt(p, t, code, i).Fuse?
    ensures Justified(Symbols(p), d, i, Decode(p.pool, SumSqAt(p, t, code, i).op))
  {
    hide Justified, Decode, Field6, Pack6;
    var x, y, k := code[i].a, code[i + 3].a, code[i + 7].a;
    DecodesEscape(p.pool, false, x, y, k, code[i + 9].a);
    SumSqSpelled(Symbols(p), d, i, x, y, p.pool[k], code[i + 9].a);
  }

  lemma {:induction false} ConditionSpelled(symbols: nat, d: seq<Instr>, i: nat, target: int)
    requires i + 1 < |d| && d[i + 1] == IJz(target) && (d[i].INot? || d[i].IBin?)
    ensures Justified(symbols, d, i, if d[i].INot? then FNotJz(target) else FBinJz(d[i].op, target))
  {
    var f := if d[i].INot? then FNotJz(target) else FBinJz(d[i].op, target);
    assert Spell(f, PLAIN) == [d[i], d[i + 1]];
    JustifiedBy(symbols, d, i, f, PLAIN);
  }

  lemma {:induction false} ConditionJustified(p: Program, t: seq<Mark>, code: seq<Op>, d: seq<Instr>, i: nat)
    requires Reads(p.pool, code, d) && ConditionAt(t, code, i).Fuse?
    ensures Justified(Symbols(p), d, i, Decode(p.pool, ConditionAt(t, code, i).op))
  {
    hide Justified, Decode;
    DecodesCondition(p.pool, code[i], d[i], code[i + 1].a);
    ConditionSpelled(Symbols(p), d, i, code[i + 1].a);
  }

  lemma {:induction false} RgbPsetJustified(p: Program, t: seq<Mark>, code: seq<Op>, d: seq<Instr>, i: nat)
    requires Reads(p.pool, code, d) && SlotsFit(p) && RgbPsetAt(p, t, code, i).Fuse?
    ensures Justified(Symbols(p), d, i, Decode(p.pool, RgbPsetAt(p, t, code, i).op))
  {
    hide Decode, Field6, Pack6;
    var r, g, b, x, y := code[i].a, code[i + 1].a, code[i + 2].a, code[i + 4].a, code[i + 5].a;
    DecodesRgbPset(p.pool, r, g, b, x, y);
    SpellsPainting(d, i, Global(r), Global(g), Global(b), Global(x), Global(y));
    JustifiedBy(Symbols(p), d, i, FPlot(Global(r), Global(g), Global(b), Global(x), Global(y)), PLAIN);
  }

  function ArithmeticOp(c: OpCode): BinOp { match c case AddNum => Add case SubNum => Sub case _ => Mul }

  lemma {:induction false} VvStoreSpelled(symbols: nat, d: seq<Instr>, i: nat, op: BinOp, lhs: int, rhs: int, dst: int)
    requires SlotOk(symbols, lhs) && SlotOk(symbols, rhs) && SlotOk(symbols, dst) && i + 3 < |d|
    requires d[i] == ILoad(Global(lhs)) && d[i + 1] == ILoad(Global(rhs)) && d[i + 2] == IBin(op)
    requires d[i + 3] == IStore(Global(dst))
    ensures Justified(symbols, d, i, FAssign(Global(dst), Bin(op, G(lhs), G(rhs))))
  {
    SpellsPair(d, i, op, Global(lhs), Global(rhs));
    PairOk(symbols, op, Global(lhs), Global(rhs));
    AssignJustified(symbols, d, i, Bin(op, G(lhs), G(rhs)), dst);
  }

  lemma {:induction false} VvStoreJustified(p: Program, t: seq<Mark>, code: seq<Op>, d: seq<Instr>, i: nat)
    requires Reads(p.pool, code, d) && SlotsFit(p) && VvStoreAt(p, t, code, i).Fuse?
    ensures Justified(Symbols(p), d, i, Decode(p.pool, VvStoreAt(p, t, code, i).op))
  {
    hide Justified, Decode, Field6, Pack6;
    var lhs, rhs, dst := code[i].a, code[i + 1].a, code[i + 3].a;
    DecodesVvStore(p.pool, code[i + 2].code, dst, lhs, rhs);
    VvStoreSpelled(Symbols(p), d, i, ArithmeticOp(code[i + 2].code), lhs, rhs, dst);
  }

  lemma {:induction false} ConstantTimesJustified(symbols: nat, d: seq<Instr>, i: nat, k: Num, v: int)
    requires SlotOk(symbols, v) && i + 2 < |d| && d[i + 2] == IBin(Mul)
    requires (d[i] == ILoad(Literal(k)) && d[i + 1] == ILoad(Global(v))) ||
             (d[i] == ILoad(Global(v)) && d[i + 1] == ILoad(Literal(k)))
    ensures Justified(symbols, d, i, FPush(Bin(Mul, C(k), G(v))))
  {
    if d[i] == ILoad(Literal(k)) {
      SpellsPair(d, i, Mul, Literal(k), Global(v));
      JustifiedBy(symbols, d, i, FPush(Bin(Mul, C(k), G(v))), PLAIN);
    } else {
      SpellsPair(d, i, Mul, Global(v), Literal(k));
      JustifiedBy(symbols, d, i, FPush(Bin(Mul, C(k), G(v))), Order(true, false, false));
    }
  }

  lemma {:induction false} MulCvJustified(p: Program, t: seq<Mark>, code: seq<Op>, d: seq<Instr>, i: nat)
    requires Reads(p.pool, code, d) && MulCvAt(p, t, code, i).Fuse?
    ensures Justified(Symbols(p), d, i, Decode(p.pool, MulCvAt(p, t, code, i).op))
  {
    hide Justified, Decode, Reads, TailIsStraight;
    assert |code| == |d| by { SameCount(p.pool, code, d); }
    var op := MulCvAt(p, t, code, i).op;
    DecodesMulCv(p.pool, op.a, op.b);
    MathAt(p.pool, code, d, i + 2);
    if Is(code, i, PushNum) {
      ConstantAt(p, code, d, i);
      LoadAt(p.pool, code, d, i + 1);
    } else {
      LoadAt(p.pool, code, d, i);
      ConstantAt(p, code, d, i + 1);
    }
    ConstantTimesJustified(Symbols(p), d, i, p.pool[op.a], op.b);
  }

  lemma {:induction false} VvPushJustified(p: Program, t: seq<Mark>, code: seq<Op>, d: seq<Instr>, i: nat)
    requires Reads(p.pool, code, d) && VvPushAt(p, t, code, i).Fuse?
    ensures Justified(Symbols(p), d, i, Decode(p.pool, VvPushAt(p, t, code, i).op))
  {
    hide Decode, Reads, TailIsStraight;
    var op := ArithmeticOp(code[i + 2].code);
    SameCount(p.pool, code, d);
    LoadAt(p.pool, code, d, i);
    LoadAt(p.pool, code, d, i + 1);
    MathAt(p.pool, code, d, i + 2);
    DecodesVvPush(p.pool, code[i + 2].code, code[i].a, code[i + 1].a);
    SpellsPair(d, i, op, Global(code[i].a), Global(code[i + 1].a));
    JustifiedBy(Symbols(p), d, i, FPush(Bin(op, G(code[i].a), G(code[i + 1].a))), PLAIN);
  }

  lemma {:induction false} DecodesMove(pool: seq<Num>, dst: int, src: int)
    ensures Decode(pool, Op(MovNum, 0, 0, dst, src)) == FAssign(Global(dst), G(src))
  {}

  lemma {:induction false} MoveJustified(p: Program, t: seq<Mark>, code: seq<Op>, d: seq<Instr>, i: nat)
    requires Reads(p.pool, code, d) && MoveAt(p, t, code, i).Fuse?
    ensures Justified(Symbols(p), d, i, Decode(p.pool, MoveAt(p, t, code, i).op))
  {
    hide Decode, Justified, Reads, TailIsStraight;
    DecodesMove(p.pool, code[i + 1].a, code[i].a);
    LoadAt(p.pool, code, d, i);
    StoreAt(p.pool, code, d, i + 1);
    SameCount(p.pool, code, d);
    SpellsLeaf(d, i, Global(code[i].a));
    AssignJustified(Symbols(p), d, i, G(code[i].a), code[i + 1].a);
  }

  lemma {:induction false} FirstJustified(p: Program, t: seq<Mark>, code: seq<Op>, d: seq<Instr>, i: nat)
    requires Reads(p.pool, code, d) && SlotsFit(p) && FirstMatch(p, t, code, i).Fuse?
    ensures Justified(Symbols(p), d, i, Decode(p.pool, FirstMatch(p, t, code, i).op))
  {
    if MulSubAddAt(p, t, code, i).Fuse? { MulSubAddJustified(p, t, code, d, i); }
    else if AddProductAt(p, t, code, i).Fuse? { AddProductJustified(p, t, code, d, i); }
    else if ProductAddAt(p, t, code, i).Fuse? { ProductAddJustified(p, t, code, d, i); }
    else if MulCvvAddAt(p, t, code, i).Fuse? { MulCvvAddJustified(p, t, code, d, i); }
    else if Sq2At(p, t, code, i).Fuse? { Sq2Justified(p, t, code, d, i); }
    else if SumSqAt(p, t, code, i).Fuse? { SumSqJustified(p, t, code, d, i); }
    else if ConditionAt(t, code, i).Fuse? { ConditionJustified(p, t, code, d, i); }
    else if RgbPsetAt(p, t, code, i).Fuse? { RgbPsetJustified(p, t, code, d, i); }
    else if VvStoreAt(p, t, code, i).Fuse? { VvStoreJustified(p, t, code, d, i); }
    else if MulCvAt(p, t, code, i).Fuse? { MulCvJustified(p, t, code, d, i); }
    else if VvPushAt(p, t, code, i).Fuse? { VvPushJustified(p, t, code, d, i); }
    else { MoveJustified(p, t, code, d, i); }
  }

  // ---------- faithful code ----------

  /** A slot either still decodes to the original operation or is a justified fused one. */
  ghost predicate Stands(p: Program, d: seq<Instr>, pos: nat, op: Op)
    requires pos < |d|
  {
    var i := Decode(p.pool, op);
    if FusedInstr(i) then Justified(Symbols(p), d, pos, i)
    else d[pos] == i && (op.code == PushNum ==> op.a >= 0) // a constant is a pool index
  }

  ghost predicate Faithful(p: Program, d: seq<Instr>, code: seq<Op>) {
    |code| == |d| && forall pos {:trigger code[pos]} :: 0 <= pos < |d| ==> Stands(p, d, pos, code[pos])
  }

  lemma {:induction false} StandsPlain(p: Program, d: seq<Instr>, pos: nat, op: Op)
    requires pos < |d| && Stands(p, d, pos, op)
    ensures PlainSlot(p.pool, op, d[pos])
  {
    hide Justified;
  }

  lemma {:induction false} FaithfulReads(p: Program, d: seq<Instr>, code: seq<Op>)
    requires Faithful(p, d, code)
    ensures Reads(p.pool, code, d)
  {
    hide PlainSlot, Stands;
    forall j | 0 <= j < |code| ensures PlainSlot(p.pool, code[j], d[j]) {
      StandsPlain(p, d, j, code[j]);
    }
  }

  // ---------- reading fused slots back ----------

  lemma {:induction false} AssignSpelled(symbols: nat, d: seq<Instr>, pos: nat, dst: Operand, e: Expr)
    requires Justified(symbols, d, pos, FAssign(dst, e))
    ensures SpellsAt(d, pos, Assignment(dst, e))
  {}

  lemma {:induction false} BranchSpelled(symbols: nat, d: seq<Instr>, pos: nat, e: Expr, target: int)
    requires Justified(symbols, d, pos, FBranch(e, target))
    ensures SpellsAt(d, pos, BranchCode(e, target))
  {}

  lemma {:induction false} ReadsMulSubAdd(p: Program, d: seq<Instr>, pos: nat, op: Op)
    requires pos < |d| && Stands(p, d, pos, op) && op.code == MulSubAddStore
    ensures SpellsAt(d, pos, Assignment(Global(Field6(op.a, 0)),
              Bin(Add, Bin(Sub, Bin(Mul, G(Field6(op.a, 1)), G(Field6(op.a, 2))),
                                Bin(Mul, G(Field6(op.a, 3)), G(Field6(op.a, 4)))), G(Field6(op.b, 0)))))
  {
    hide Field6;
    var i := Decode(p.pool, op);
    AssignSpelled(Symbols(p), d, pos, i.dst, i.e);
  }

  lemma {:induction false} ReadsMulCvvAdd(p: Program, d: seq<Instr>, pos: nat, op: Op)
    requires pos < |d| && Stands(p, d, pos, op) && op.code == MulCvvAddStore
    ensures SpellsAt(d, pos, Assignment(Global(Field6(op.a, 0)),
              Bin(Add, Bin(Mul, Bin(Mul, C(Constant(p.pool, op.b)), G(Field6(op.a, 1))), G(Field6(op.a, 2))),
                       G(Field6(op.a, 3)))))
  {
    hide Field6;
    var i := Decode(p.pool, op);
    AssignSpelled(Symbols(p), d, pos, i.dst, i.e);
  }

  lemma {:induction false} ReadsMove(p: Program, d: seq<Instr>, pos: nat, op: Op)
    requires pos < |d| && Stands(p, d, pos, op) && op.code == MovNum
    ensures SpellsAt(d, pos, Assignment(Global(op.a), G(op.b)))
  {
    hide Field6;
    AssignSpelled(Symbols(p), d, pos, Global(op.a), G(op.b));
  }

  lemma {:induction false} ReadsEscape(p: Program, d: seq<Instr>, pos: nat, op: Op)
    requires pos < |d| && Stands(p, d, pos, op) && (op.code == Sq2GtOrJz || op.code == SumSqGtJz)
    ensures SpellsAt(d, pos, BranchCode(EscapeTest(op.code == Sq2GtOrJz, Field6(op.s, 0), Field6(op.s, 1),
                                                   Constant(p.pool, op.b)), op.a))
  {
    hide Field6, EscapeTest;
    var i := Decode(p.pool, op);
    BranchSpelled(Symbols(p), d, pos, i.e, op.a);
  }

  lemma {:induction false} ReadsProduct(p: Program, d: seq<Instr>, pos: nat, op: Op)
    requires pos < |d| && Stands(p, d, pos, op) && op.code == MulVvPush
    ensures SpellsAt(d, pos, Code(Bin(Mul, G(op.a), G(op.b))))
  {
    hide Field6;
    var w :| SpellsAt(d, pos, Spell(FPush(Bin(Mul, G(op.a), G(op.b))), w));
  }

  lemma {:induction false} DecodesTimes(pool: seq<Num>, op: Op)
    requires op.code == MulCvPush
    ensures Decode(pool, op) == FPush(Bin(Mul, C(Constant(pool, op.a)), G(op.b)))
  {}

  lemma {:induction false} PushSpelled(symbols: nat, d: seq<Instr>, pos: nat, e: Expr) returns (w: Order)
    requires Justified(symbols, d, pos, FPush(e))
    ensures SpellsAt(d, pos, if ConstantTimes(e) && w.first then Code(Bin(Mul, e.r, e.l)) else Code(e))
  {
    w :| SpellsAt(d, pos, Spell(FPush(e), w));
  }

  lemma {:induction false} ReadsConstantTimes(p: Program, d: seq<Instr>, pos: nat, op: Op) returns (swapped: bool)
    requires pos < |d| && Stands(p, d, pos, op) && op.code == MulCvPush
    ensures SpellsAt(d, pos, Code(Product(G(op.b), C(Constant(p.pool, op.a)), swapped)))
  {
    hide Field6, Decode;
    DecodesTimes(p.pool, op);
    var w := PushSpelled(Symbols(p), d, pos, Bin(Mul, C(Constant(p.pool, op.a)), G(op.b)));
    swapped := !w.first;
  }

  lemma {:induction false} ReadsPainting(p: Program, d: seq<Instr>, pos: nat, op: Op)
    requires pos < |d| && Stands(p, d, pos, op) && op.code == RgbPsetVv
    ensures d[pos] == ILoad(Global(Field6(op.a, 0)))
  {
    hide Field6;
    var i := Decode(p.pool, op);
    var w :| SpellsAt(d, pos, Spell(i, w));
    assert Spell(i, w)[0] == ILoad(i.r);
    assert d[pos + 0] == Spell(i, w)[0];
  }
}
