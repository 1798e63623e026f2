/** The instruction set: fixed-width operations, how the fused ones pack their operands,
    and what each operation denotes once its operand fields are decoded. */
module Il {
  import opened Wrappers

  // ---------- numbers ----------

  // A single-precision value: the whole numbers the compiler singles out, or any other bit pattern.
  // Nothing below looks inside `Bits`; arithmetic is a parameter of the machine.
  datatype Num = Whole(n: int) | Bits(pattern: nat)

  const ZERO := Whole(0)
  const TRUTH := Whole(-1)
  const TWO := Whole(2)

  // ---------- operations ----------

  datatype OpCode =
    | PushNum | PushStr | LoadNum | StoreNum | LoadStr | StoreStr
    | Load | Store | LoadArr | StoreArr | DimArr
    | AddNum | SubNum | MulNum | DivNum
    | CeqNum | CneNum | CltNum | CleNum | CgtNum | CgeNum
    | CeqNumJz | CneNumJz | CltNumJz | CleNumJz | CgtNumJz | CgeNumJz
    | NotNum | AndNum | OrNum | NotNumJz | AndNumJz | OrNumJz
    | CallFn | Jmp | Jz | ForInit | ForCheck | ForIncr
    | Gosub | RetSub | OnGoto | OnGosub | Dup | Drop
    | MovNum | AddVvPush | SubVvPush | MulVvPush | MulCvPush
    | AddVvStore | SubVvStore | MulVvStore | RgbPsetVv
    | MulAddStore | MulSubAddStore | MulCvvAddStore
    | Sq2GtOrJz | SumSqGtJz | ComplexIterOrJz | ComplexIterSumSqJz
    | GrayPsetMulInt | GrayPsetIntStack | RgbPsetMinMul
    | Fn0Num | Fn1Num | Fn2Num | Fn3Num
    | StoreConstNum | AddVcPush | SubVcPush | DivVcPush
    | LoadLocalNum | StoreLocalNum | LoadLocalStr | StoreLocalStr
    | CallUser | ReturnUser | FunctionFallthrough
    | ForLocalInit | ForLocalCheck | ForLocalIncr | InputLocal
    | LocalNumFused | LocalGrayPsetMulInt
    | IdivNum | ShlNum | ShrNum | BxorNum
    | ExitLoop | ReadDataNum | ReadDataStr | RestoreData | Halt
    | Untouched(id: nat) // printing, power, string and array work the optimizer never inspects

  datatype Op = Op(code: OpCode, flags: int, s: int, a: int, b: int)

  const FN_ABS := 1
  const FN_INT := 2
  const FN_RND := 11
  const FN_SIN := 20
  const FN_COS := 21
  const FN_TAN := 22
  const FN_SQR := 23
  const FN_ATN := 24
  const FN_LOG := 25
  const FN_EXP := 26
  const FN_PI := 27
  const FN_RAD := 28
  const FN_DEG := 29
  const FN_SGN := 30
  const FN_MIN := 31
  const FN_MAX := 32
  const FN_CLAMP := 33
  const FN_RNDI := 34
  const FN_LN := 35
  const FN_ASIN := 36
  const FN_ACOS := 37
  const FN_ATAN2 := 38
  const FN_TIMER := 40
  const FN_COLOR := 202
  const FN_PSET := 203

  /** How many arguments the numeric-function fast path takes for `id`; -1 when there is none. */
  function NumericArity(id: int): int {
    if id in {FN_PI, FN_RND, FN_TIMER} then 0
    else if id in {FN_ABS, FN_INT, FN_SIN, FN_COS, FN_TAN, FN_SQR, FN_ATN, FN_LOG, FN_LN, FN_ASIN,
                   FN_ACOS, FN_EXP, FN_RAD, FN_DEG, FN_SGN, FN_RNDI} then 1
    else if id in {FN_ATAN2, FN_MIN, FN_MAX} then 2
    else if id == FN_CLAMP then 3
    else -1
  }

  const MAX_OPS := 1536 // the capacity of the code array

  // ---------- operand packing ----------

  /** Five six-bit symbol slots in the low thirty bits of a 32-bit field. */
  function Pack6(d0: int, d1: int, d2: int, d3: int, d4: int): int {
    d0 + 64 * d1 + 4096 * d2 + 262144 * d3 + 16777216 * d4
  }

  function Field6(p: int, k: nat): int {
    if k == 0 then p % 64
    else if k == 1 then p / 64 % 64
    else if k == 2 then p / 4096 % 64
    else if k == 3 then p / 262144 % 64
    else p / 16777216 % 64
  }

  predicate Slot6(d: int) { 0 <= d < 64 }

  lemma {:induction false} Unpack6(d0: int, d1: int, d2: int, d3: int, d4: int)
    requires Slot6(d0) && Slot6(d1) && Slot6(d2) && Slot6(d3) && Slot6(d4)
    ensures var p := Pack6(d0, d1, d2, d3, d4);
            0 <= p < 0x4000_0000 && Field6(p, 0) == d0 && Field6(p, 1) == d1 &&
            Field6(p, 2) == d2 && Field6(p, 3) == d3 && Field6(p, 4) == d4
  {
    var q1 := d1 + 64 * d2 + 4096 * d3 + 262144 * d4;
    var q2 := d2 + 64 * d3 + 4096 * d4;
    var q3 := d3 + 64 * d4;
    var p := Pack6(d0, d1, d2, d3, d4);
    assert p == d0 + 64 * q1 && q1 == d1 + 64 * q2 && q2 == d2 + 64 * q3;
    assert p / 64 == q1;
    assert p / 4096 == q2;
    assert p / 262144 == q3;
  }

  lemma {:induction false} FieldOfSlot(d: int)
    requires Slot6(d)
    ensures Field6(d, 0) == d
  {}

  /** Seven-bit local slots: four in `a`, the rest in `b`. */
  function Pack7(d0: int, d1: int, d2: int, d3: int): int {
    d0 + 128 * d1 + 16384 * d2 + 2097152 * d3
  }

  function Field7(p: int, k: nat): int {
    if k == 0 then p % 128
    else if k == 1 then p / 128 % 128
    else if k == 2 then p / 16384 % 128
    else p / 2097152 % 128
  }

  predicate Slot7(d: int) { 0 <= d < 128 }

  lemma {:induction false} Unpack7(d0: int, d1: int, d2: int, d3: int)
    requires Slot7(d0) && Slot7(d1) && Slot7(d2) && Slot7(d3)
    ensures var p := Pack7(d0, d1, d2, d3);
            0 <= p < 0x1000_0000 && Field7(p, 0) == d0 && Field7(p, 1) == d1 &&
            Field7(p, 2) == d2 && Field7(p, 3) == d3
  {
    var q1 := d1 + 128 * d2 + 16384 * d3;
    var q2 := d2 + 128 * d3;
    var p := Pack7(d0, d1, d2, d3);
    assert p == d0 + 128 * q1 && q1 == d1 + 128 * q2;
    assert p / 128 == q1;
    assert p / 16384 == q2;
  }

  /** Four bytes in a signed 32-bit field: the top byte may make it negative. */
  function PackBytes(k0: int, k1: int, k2: int, k3: int): int {
    var u := k0 + 256 * k1 + 65536 * k2 + 16777216 * k3;
    if u < 0x8000_0000 then u else u - 0x1_0000_0000
  }

  function Byte(p: int, k: nat): int {
    var u := p % 0x1_0000_0000;
    if k == 0 then u % 256
    else if k == 1 then u / 256 % 256
    else if k == 2 then u / 65536 % 256
    else u / 16777216 % 256
  }

  predicate IsByte(d: int) { 0 <= d < 256 }

  lemma {:induction false} UnpackBytes(k0: int, k1: int, k2: int, k3: int)
    requires IsByte(k0) && IsByte(k1) && IsByte(k2) && IsByte(k3)
    ensures var p := PackBytes(k0, k1, k2, k3);
            -0x8000_0000 <= p < 0x8000_0000 &&
            Byte(p, 0) == k0 && Byte(p, 1) == k1 && Byte(p, 2) == k2 && Byte(p, 3) == k3
  {
    var u := k0 + 256 * k1 + 65536 * k2 + 16777216 * k3;
    var q1 := k1 + 256 * k2 + 65536 * k3;
    var q2 := k2 + 256 * k3;
    assert u == k0 + 256 * q1 && q1 == k1 + 256 * q2;
    assert u / 256 == q1;
    assert u / 65536 == q2;
    assert PackBytes(k0, k1, k2, k3) % 0x1_0000_0000 == u;
  }

  // ---------- what operations denote ----------

  datatype Operand = Global(slot: int) | Local(slot: int) | Literal(v: Num)

  datatype BinOp = Add | Sub | Mul | Div | Eq | Ne | Lt | Le | Gt | Ge | And | Or | Min

  datatype Expr = Leaf(x: Operand) | Bin(op: BinOp, l: Expr, r: Expr)

  datatype Instr =
    // one original operation each
    | ILoad(x: Operand)
    | IStore(v: Operand)
    | IBin(op: BinOp)
    | INot
    | IInt                               // INT(x), by either calling form
    | INumeric(id: int, argc: nat)       // the remaining numeric functions
    | IColor
    | IPset
    | IJmp(target: int)
    | IJz(target: int)
    | IForInit(slot: int)
    | IForCheck(body: int)
    | IForIncr(slot: int)
    | IExitLoop(target: int, discard: int, depth: int)
    | IDup
    | IDrop
    | IHalt
    | IBadConstant
    | IOther(raw: Op)
    // fused operations
    | FPush(e: Expr)
    | FAssign(dst: Operand, e: Expr)
    | FBranch(e: Expr, target: int)
    | FBinJz(op: BinOp, target: int)
    | FNotJz(target: int)
    | FPlot(r: Operand, g: Operand, bl: Operand, px: Operand, py: Operand)
    | FGray(dst: Operand, lhs: Operand, rhs: Operand, px: Operand, py: Operand)
    | FGrayStack(dst: Operand, px: Operand, py: Operand)
    | FMinMul(src: int, d: (int, int, int), k: (int, int, int), cap: int, column: int, row: int)
    | FComplex(zx: int, zy: int, re: int, im: int, t: int, either: bool, limit: Num,
               target: int, move: Option<(int, int)>, next: bool)

  function G(slot: int): Expr { Leaf(Global(slot)) }
  function L(slot: int): Expr { Leaf(Local(slot)) }
  function C(v: Num): Expr { Leaf(Literal(v)) }

  function ConstantLoad(pool: seq<Num>, k: int): Instr {
    if 0 <= k < |pool| then ILoad(Literal(pool[k])) else IBadConstant
  }

  function Constant(pool: seq<Num>, k: int): Num {
    if 0 <= k < |pool| then pool[k] else ZERO
  }

  function SquareSum(x: int, y: int): Expr { Bin(Add, Bin(Mul, G(x), G(x)), Bin(Mul, G(y), G(y))) }

  // How many original operations an expression takes.
  function CodeLength(e: Expr): nat {
    match e case Leaf(_) => 1 case Bin(_, l, r) => CodeLength(l) + CodeLength(r) + 1
  }

  predicate UsesLocals(e: Expr) {
    match e case Leaf(x) => x.Local? case Bin(_, l, r) => UsesLocals(l) || UsesLocals(r)
  }

  /** The escape test of the loop superinstructions: X*X>c OR Y*Y>c, or X*X+Y*Y>c. */
  function EscapeTest(either: bool, x: int, y: int, limit: Num): Expr {
    if either
    then Bin(Or, Bin(Gt, Bin(Mul, G(x), G(x)), C(limit)), Bin(Gt, Bin(Mul, G(y), G(y)), C(limit)))
    else Bin(Gt, SquareSum(x, y), C(limit))
  }

  function CallInstr(op: Op): Instr {
    if op.a == FN_COLOR && op.b == 3 then IColor
    else if op.a == FN_PSET && op.b == 2 then IPset
    else if NumericArity(op.a) == op.b && op.b >= 0 then NumericInstr(op.a, op.b)
    else IOther(op)
  }

  function NumericInstr(id: int, argc: nat): Instr {
    if id == FN_INT && argc == 1 then IInt
    else if id == FN_MIN && argc == 2 then IBin(Min)
    else INumeric(id, argc)
  }

  /** The seventeen local numeric patterns, in the order of their flag values, over their slots. */
  function LocalInstr(pattern: int, s: (int, int, int, int, int, int), c: Expr, op: Op): Instr {
    match pattern
    case 0 => FAssign(Local(s.0), L(s.1))
    case 1 => FAssign(Local(s.0), c)
    case 2 => FPush(Bin(Add, L(s.0), L(s.1)))
    case 3 => FPush(Bin(Sub, L(s.0), L(s.1)))
    case 4 => FPush(Bin(Mul, L(s.0), L(s.1)))
    case 5 => FAssign(Local(s.0), Bin(Add, L(s.1), L(s.2)))
    case 6 => FAssign(Local(s.0), Bin(Sub, L(s.1), L(s.2)))
    case 7 => FAssign(Local(s.0), Bin(Mul, L(s.1), L(s.2)))
    case 8 => FAssign(Local(s.0), Bin(Add, L(s.1), Bin(Mul, L(s.2), L(s.3))))
    case 9 => FAssign(Local(s.0), Bin(Add, Bin(Mul, L(s.2), L(s.3)), L(s.1)))
    case 10 => FAssign(Local(s.0), Bin(Add, Bin(Sub, Bin(Mul, L(s.1), L(s.2)), Bin(Mul, L(s.3), L(s.4))), L(s.5)))
    case 11 => FAssign(Local(s.0), Bin(Add, Bin(Mul, Bin(Mul, c, L(s.1)), L(s.2)), L(s.3)))
    case 12 => FPush(Bin(Add, L(s.0), c))
    case 13 => FPush(Bin(Sub, L(s.0), c))
    case 14 => FPush(Bin(Mul, L(s.0), c))
    case 15 => FPush(Bin(Mul, c, L(s.0)))
    case 16 => FAssign(Local(s.0), Bin(Add, L(s.1), Bin(Mul, L(s.2), c)))
    case _ => IOther(op)
  }

  function LocalFusedInstr(pool: seq<Num>, op: Op): Instr {
    LocalInstr(op.flags, (Field7(op.a, 0), Field7(op.a, 1), Field7(op.a, 2), Field7(op.a, 3), Field7(op.b, 0),
        Field7(op.b, 1)),
               C(Constant(pool, op.b)), op)
  }

  function Decode(pool: seq<Num>, op: Op): Instr {
    match op.code
    case PushNum => ConstantLoad(pool, op.a)
    case LoadNum => ILoad(Global(op.a))
    case StoreNum => IStore(Global(op.a))
    case LoadLocalNum => ILoad(Local(op.a))
    case StoreLocalNum => IStore(Local(op.a))
    case AddNum => IBin(Add)
    case SubNum => IBin(Sub)
    case MulNum => IBin(Mul)
    case DivNum => IBin(Div)
    case CeqNum => IBin(Eq)
    case CneNum => IBin(Ne)
    case CltNum => IBin(Lt)
    case CleNum => IBin(Le)
    case CgtNum => IBin(Gt)
    case CgeNum => IBin(Ge)
    case AndNum => IBin(And)
    case OrNum => IBin(Or)
    case NotNum => INot
    case CallFn => CallInstr(op)
    case Fn0Num => NumericInstr(op.a, 0)
    case Fn1Num => NumericInstr(op.a, 1)
    case Fn2Num => NumericInstr(op.a, 2)
    case Fn3Num => NumericInstr(op.a, 3)
    case Jmp => IJmp(op.a)
    case Jz => IJz(op.a)
    case ForInit => IForInit(op.a)
    case ForCheck => IForCheck(op.b)
    case ForIncr => IForIncr(op.a)
    case ExitLoop => IExitLoop(op.a, op.b, op.s)
    case Dup => IDup
    case Drop => IDrop
    case Halt => IHalt
    case MovNum => FAssign(Global(op.a), G(op.b))
    case StoreConstNum => FAssign(Global(op.a), C(Constant(pool, op.b)))
    case AddVvPush => FPush(Bin(Add, G(op.a), G(op.b)))
    case SubVvPush => FPush(Bin(Sub, G(op.a), G(op.b)))
    case MulVvPush => FPush(Bin(Mul, G(op.a), G(op.b)))
    case MulCvPush => FPush(Bin(Mul, C(Constant(pool, op.a)), G(op.b)))
    case AddVcPush => FPush(Bin(Add, G(op.a), C(Constant(pool, op.b))))
    case SubVcPush => FPush(Bin(Sub, G(op.a), C(Constant(pool, op.b))))
    case DivVcPush => FPush(Bin(Div, G(op.a), C(Constant(pool, op.b))))
    case AddVvStore => FAssign(Global(op.a), Bin(Add, G(op.b % 256), G(op.b / 256 % 256)))
    case SubVvStore => FAssign(Global(op.a), Bin(Sub, G(op.b % 256), G(op.b / 256 % 256)))
    case MulVvStore => FAssign(Global(op.a), Bin(Mul, G(op.b % 256), G(op.b / 256 % 256)))
    case MulAddStore =>
      var product := Bin(Mul, G(Field6(op.a, 2)), G(Field6(op.a, 3)));
      var addend := G(Field6(op.a, 1));
      FAssign(Global(Field6(op.a, 0)), if op.flags % 2 == 1 then Bin(Add, product, addend)
          else Bin(Add, addend, product))
    case MulSubAddStore =>
      FAssign(Global(Field6(op.a, 0)),
              Bin(Add, Bin(Sub, Bin(Mul, G(Field6(op.a, 1)), G(Field6(op.a, 2))),
                                Bin(Mul, G(Field6(op.a, 3)), G(Field6(op.a, 4)))), G(Field6(op.b, 0))))
    case MulCvvAddStore =>
      FAssign(Global(Field6(op.a, 0)),
              Bin(Add, Bin(Mul, Bin(Mul, C(Constant(pool, op.b)), G(Field6(op.a, 1))), G(Field6(op.a, 2))),
                       G(Field6(op.a, 3))))
    case Sq2GtOrJz => FBranch(EscapeTest(true, Field6(op.s, 0), Field6(op.s, 1), Constant(pool, op.b)), op.a)
    case SumSqGtJz => FBranch(EscapeTest(false, Field6(op.s, 0), Field6(op.s, 1), Constant(pool, op.b)), op.a)
    case CeqNumJz => FBinJz(Eq, op.a)
    case CneNumJz => FBinJz(Ne, op.a)
    case CltNumJz => FBinJz(Lt, op.a)
    case CleNumJz => FBinJz(Le, op.a)
    case CgtNumJz => FBinJz(Gt, op.a)
    case CgeNumJz => FBinJz(Ge, op.a)
    case AndNumJz => FBinJz(And, op.a)
    case OrNumJz => FBinJz(Or, op.a)
    case NotNumJz => FNotJz(op.a)
    case RgbPsetVv =>
      FPlot(Global(Field6(op.a, 0)), Global(Field6(op.a, 1)), Global(Field6(op.a, 2)),
            Global(Field6(op.a, 3)), Global(Field6(op.a, 4)))
    case GrayPsetMulInt =>
      FGray(Global(Field6(op.a, 0)), Global(Field6(op.a, 1)), Global(Field6(op.a, 2)),
            Global(Field6(op.a, 3)), Global(Field6(op.a, 4)))
    case GrayPsetIntStack =>
      FGrayStack(Global(Field6(op.a, 0)), Global(Field6(op.a, 1)), Global(Field6(op.a, 2)))
    case RgbPsetMinMul =>
      FMinMul(Field6(op.a, 0), (Field6(op.a, 1), Field6(op.a, 2), Field6(op.a, 3)),
              (Byte(op.b, 0), Byte(op.b, 1), Byte(op.b, 2)), Byte(op.b, 3), Field6(op.a, 4), Field6(op.s, 0))
    case ComplexIterOrJz => ComplexInstr(pool, op, true)
    case ComplexIterSumSqJz => ComplexInstr(pool, op, false)
    case LocalNumFused => LocalFusedInstr(pool, op)
    case LocalGrayPsetMulInt =>
      FGray(Local(Field7(op.a, 0)), Local(Field7(op.a, 1)), Local(Field7(op.a, 2)), Local(Field7(op.a, 3)),
            Local(op.b))
    case _ => IOther(op)
  }

  function ComplexInstr(pool: seq<Num>, op: Op, either: bool): Instr {
    FComplex(Field6(op.a, 0), Field6(op.a, 1), Field6(op.a, 2), Field6(op.a, 3), Field6(op.a, 4), either,
             Constant(pool, op.b / 4096 % 4096), op.b % 4096,
             if op.flags % 2 == 1 then Some((Field6(op.s, 0), Field6(op.s, 1))) else None,
             op.flags / 2 % 2 == 1)
  }
}
