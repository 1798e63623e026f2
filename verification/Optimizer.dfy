/** The superinstruction passes: which spans of operations each pass fuses, and the in-place
    sweeps that overwrite the first slot of a matched span and leave its tail alone. */
module Optimizer {
  import opened Wrappers
  import opened Il

  datatype Function = Function(entry: int, end: int, parameters: int, numericLocals: int, stringLocals: int)

  datatype Program = Program(pool: seq<Num>, symbolIsString: seq<bool>, linePcs: seq<int>, functions: seq<Function>,
                             structured: bool)

  // A mark on a slot: the start of an addressable line, or a place control can come from elsewhere.
  datatype Mark = Mark(line: bool, flow: bool)

  // How many original slots a fused operation covers.
  type Span = n: nat | 1 <= n witness 1

  datatype Rewrite = Keep | Fuse(op: Op, length: Span)

  // ---------- which slots may not lie inside a span ----------

  function FlowTargets(op: Op, i: int): set<int> {
    match op.code
    case ExitLoop => {i, op.a, i + 1}
    case Jmp => {op.a, i + 1}
    case Jz => {op.a, i + 1}
    case Gosub => {op.a, i + 1}
    case CeqNumJz => {op.a, i + 1}
    case CneNumJz => {op.a, i + 1}
    case CltNumJz => {op.a, i + 1}
    case CleNumJz => {op.a, i + 1}
    case CgtNumJz => {op.a, i + 1}
    case CgeNumJz => {op.a, i + 1}
    case NotNumJz => {op.a, i + 1}
    case AndNumJz => {op.a, i + 1}
    case OrNumJz => {op.a, i + 1}
    case Sq2GtOrJz => {op.a, i + 1}
    case SumSqGtJz => {op.a, i + 1}
    case ComplexIterOrJz => {op.b % 4096}
    case ComplexIterSumSqJz => {op.b % 4096}
    case ForCheck => {op.b, i, i + 1}
    case ForLocalCheck => {op.b, i, i + 1}
    case ForInit => {i, i + 1}
    case ForLocalInit => {i, i + 1}
    case ForIncr => {i, i + 1}
    case ForLocalIncr => {i, i + 1}
    case CallUser => {i, i + 1}
    case ReturnUser => {i, i + 1}
    case FunctionFallthrough => {i, i + 1}
    case RetSub => {i, i + 1}
    case Halt => {i, i + 1}
    case OnGoto => {i, i + 1 + op.a}
    case OnGosub => {i, i + 1 + op.a}
    case _ => {}
  }

  predicate IsLine(p: Program, pc: int) { pc in p.linePcs }

  predicate IsBoundary(p: Program, pc: int) {
    exists f :: 0 <= f < |p.functions| && (pc == p.functions[f].entry || pc == p.functions[f].end)
  }

  predicate IsFlow(p: Program, code: seq<Op>, pc: int) {
    IsBoundary(p, pc) || exists k :: 0 <= k < |code| && pc in FlowTargets(code[k], k)
  }

  function Marks(p: Program, code: seq<Op>): seq<Mark> {
    seq(|code|, i => Mark(IsLine(p, i), IsFlow(p, code, i)))
  }

  predicate TailIsStraight(target: seq<Mark>, start: nat, length: nat) {
    start + length <= |target| && forall i :: start < i < start + length ==> !target[i].line && !target[i].flow
  }

  predicate FlowIsStraight(target: seq<Mark>, start: nat, length: nat) {
    start + length <= |target| && forall i :: start < i < start + length ==> !target[i].flow
  }

  // ---------- reading a span ----------

  predicate NumericSlot(p: Program, slot: int) { 0 <= slot < |p.symbolIsString| && !p.symbolIsString[slot] }

  predicate ConstantIndex(p: Program, k: int) { 0 <= k < |p.pool| }

  predicate Is(code: seq<Op>, i: nat, c: OpCode) { i < |code| && code[i].code == c }

  predicate Calls(code: seq<Op>, i: nat, id: int, argc: int) {
    i < |code| && code[i].code == CallFn && code[i].a == id && code[i].b == argc
  }

  function Arg(code: seq<Op>, i: nat, k: nat): int { if i + k < |code| then code[i + k].a else 0 }

  // ---------- first pass: expressions, conditions, pixels, moves ----------

  function MulSubAddAt(p: Program, target: seq<Mark>, code: seq<Op>, i: nat): Rewrite {
    var a, b, c, d, e, dst := Arg(code, i, 0), Arg(code, i, 1), Arg(code, i, 3), Arg(code, i, 4), Arg(code, i, 7),
        Arg(code, i, 9);
    if TailIsStraight(target, i, 10) &&
       Is(code, i, LoadNum) && Is(code, i + 1, LoadNum) && Is(code, i + 2, MulNum) && Is(code, i + 3, LoadNum) &&
       Is(code, i + 4, LoadNum) && Is(code, i + 5, MulNum) && Is(code, i + 6, SubNum) && Is(code, i + 7, LoadNum) &&
       Is(code, i + 8, AddNum) && Is(code, i + 9, StoreNum) &&
       NumericSlot(p, a) && NumericSlot(p, b) && NumericSlot(p, c) && NumericSlot(p, d) && NumericSlot(p, e) &&
       NumericSlot(p, dst)
    then Fuse(Op(MulSubAddStore, 0, 0, Pack6(dst, a, b, c, d), e), 10) else Keep
  }

  function AddProductAt(p: Program, target: seq<Mark>, code: seq<Op>, i: nat): Rewrite {
    var addend, lhs, rhs, dst := Arg(code, i, 0), Arg(code, i, 1), Arg(code, i, 2), Arg(code, i, 5);
    if TailIsStraight(target, i, 6) && Is(code, i, LoadNum) && Is(code, i + 1, LoadNum) &&
       Is(code, i + 2, LoadNum) && Is(code, i + 3, MulNum) && Is(code, i + 4, AddNum) && Is(code, i + 5, StoreNum) &&
       NumericSlot(p, addend) && NumericSlot(p, lhs) && NumericSlot(p, rhs) && NumericSlot(p, dst)
    then Fuse(Op(MulAddStore, 0, 0, Pack6(dst, addend, lhs, rhs, 0), 0), 6) else Keep
  }

  function ProductAddAt(p: Program, target: seq<Mark>, code: seq<Op>, i: nat): Rewrite {
    var lhs, rhs, addend, dst := Arg(code, i, 0), Arg(code, i, 1), Arg(code, i, 3), Arg(code, i, 5);
    if TailIsStraight(target, i, 6) && Is(code, i, LoadNum) && Is(code, i + 1, LoadNum) && Is(code, i + 2, MulNum) &&
       Is(code, i + 3, LoadNum) && Is(code, i + 4, AddNum) && Is(code, i + 5, StoreNum) &&
       NumericSlot(p, addend) && NumericSlot(p, lhs) && NumericSlot(p, rhs) && NumericSlot(p, dst)
    then Fuse(Op(MulAddStore, 1, 0, Pack6(dst, addend, lhs, rhs, 0), 0), 6) else Keep
  }

  function MulCvvAddAt(p: Program, target: seq<Mark>, code: seq<Op>, i: nat): Rewrite {
    var constant, a, b, c, dst := Arg(code, i, 0), Arg(code, i, 1), Arg(code, i, 3), Arg(code, i, 5), Arg(code, i, 7);
    if TailIsStraight(target, i, 8) &&
       Is(code, i, PushNum) && Is(code, i + 1, LoadNum) && Is(code, i + 2, MulNum) && Is(code, i + 3, LoadNum) &&
       Is(code, i + 4, MulNum) && Is(code, i + 5, LoadNum) && Is(code, i + 6, AddNum) && Is(code, i + 7, StoreNum) &&
       ConstantIndex(p, constant) && NumericSlot(p, a) && NumericSlot(p, b) && NumericSlot(p, c) && NumericSlot(p, dst)
    then Fuse(Op(MulCvvAddStore, 0, 0, Pack6(dst, a, b, c, 0), constant), 8) else Keep
  }

  function Sq2At(p: Program, target: seq<Mark>, code: seq<Op>, i: nat): Rewrite {
    var x, c, y := Arg(code, i, 0), Arg(code, i, 3), Arg(code, i, 5);
    if TailIsStraight(target, i, 12) &&
       Is(code, i, LoadNum) && Is(code, i + 1, LoadNum) && Is(code, i + 2, MulNum) && Is(code, i + 3, PushNum) &&
       Is(code, i + 4, CgtNum) && Is(code, i + 5, LoadNum) && Is(code, i + 6, LoadNum) && Is(code, i + 7, MulNum) &&
       Is(code, i + 8, PushNum) && Is(code, i + 9, CgtNum) && Is(code, i + 10, OrNum) && Is(code, i + 11, Jz) &&
       x == Arg(code, i, 1) && y == Arg(code, i, 6) && c == Arg(code, i, 8) &&
       NumericSlot(p, x) && NumericSlot(p, y) && ConstantIndex(p, c)
    then Fuse(Op(Sq2GtOrJz, 0, Pack6(x, y, 0, 0, 0), Arg(code, i, 11), c), 12) else Keep
  }

  function SumSqAt(p: Program, target: seq<Mark>, code: seq<Op>, i: nat): Rewrite {
    var x, y, c := Arg(code, i, 0), Arg(code, i, 3), Arg(code, i, 7);
    if TailIsStraight(target, i, 10) &&
       Is(code, i, LoadNum) && Is(code, i + 1, LoadNum) && Is(code, i + 2, MulNum) && Is(code, i + 3, LoadNum) &&
       Is(code, i + 4, LoadNum) && Is(code, i + 5, MulNum) && Is(code, i + 6, AddNum) && Is(code, i + 7, PushNum) &&
       Is(code, i + 8, CgtNum) && Is(code, i + 9, Jz) &&
       x == Arg(code, i, 1) && y == Arg(code, i, 4) &&
       NumericSlot(p, x) && NumericSlot(p, y) && ConstantIndex(p, c)
    then Fuse(Op(SumSqGtJz, 0, Pack6(x, y, 0, 0, 0), Arg(code, i, 9), c), 10) else Keep
  }

  function JumpingForm(code: OpCode): Option<OpCode> {
    match code
    case CeqNum => Some(CeqNumJz)
    case CneNum => Some(CneNumJz)
    case CltNum => Some(CltNumJz)
    case CleNum => Some(CleNumJz)
    case CgtNum => Some(CgtNumJz)
    case CgeNum => Some(CgeNumJz)
    case NotNum => Some(NotNumJz)
    case AndNum => Some(AndNumJz)
    case OrNum => Some(OrNumJz)
    case _ => None
  }

  function ConditionAt(target: seq<Mark>, code: seq<Op>, i: nat): Rewrite {
    if TailIsStraight(target, i, 2) && i + 1 < |code| && code[i + 1].code == Jz && JumpingForm(code[i].code).Some?
    then Fuse(Op(JumpingForm(code[i].code).value, 0, 0, code[i + 1].a, 0), 2) else Keep
  }

  function RgbPsetAt(p: Program, target: seq<Mark>, code: seq<Op>, i: nat): Rewrite {
    var r, g, b, x, y := Arg(code, i, 0), Arg(code, i, 1), Arg(code, i, 2), Arg(code, i, 4), Arg(code, i, 5);
    if TailIsStraight(target, i, 7) && PaintsFrom(code, i) &&
       NumericSlot(p, r) && NumericSlot(p, g) && NumericSlot(p, b) && NumericSlot(p, x) && NumericSlot(p, y)
    then Fuse(Op(RgbPsetVv, 0, 0, Pack6(r, g, b, x, y), 0), 7) else Keep
  }

  /** LOAD r,g,b / COLOR / LOAD x,y / PSET. */
  predicate PaintsFrom(code: seq<Op>, i: nat) {
    Is(code, i, LoadNum) && Is(code, i + 1, LoadNum) && Is(code, i + 2, LoadNum) && Is(code, i + 3, CallFn) &&
    Is(code, i + 4, LoadNum) && Is(code, i + 5, LoadNum) && Is(code, i + 6, CallFn) &&
    Calls(code, i + 3, FN_COLOR, 3) && Calls(code, i + 6, FN_PSET, 2)
  }

  predicate AddSubMul(c: OpCode) { c == AddNum || c == SubNum || c == MulNum }

  function VvStoreAt(p: Program, target: seq<Mark>, code: seq<Op>, i: nat): Rewrite {
    var lhs, rhs, dst := Arg(code, i, 0), Arg(code, i, 1), Arg(code, i, 3);
    if TailIsStraight(target, i, 4) && Is(code, i, LoadNum) && Is(code, i + 1, LoadNum) && Is(code, i + 3, StoreNum) &&
       NumericSlot(p, lhs) && NumericSlot(p, rhs) && NumericSlot(p, dst) && AddSubMul(code[i + 2].code)
    then
      var c := match code[i + 2].code case AddNum => AddVvStore case SubNum => SubVvStore case _ => MulVvStore;
      Fuse(Op(c, 0, 0, dst, lhs % 256 + 256 * (rhs % 256)), 4)
    else Keep
  }

  function MulCvAt(p: Program, target: seq<Mark>, code: seq<Op>, i: nat): Rewrite {
    if TailIsStraight(target, i, 3) && Is(code, i + 2, MulNum) then
      if Is(code, i, PushNum) && Is(code, i + 1, LoadNum) && ConstantIndex(p, code[i].a) &&
         NumericSlot(p, code[i + 1].a)
      then Fuse(Op(MulCvPush, 0, 0, code[i].a, code[i + 1].a), 3)
      else if Is(code, i, LoadNum) && Is(code, i + 1, PushNum) && ConstantIndex(p, code[i + 1].a) &&
      NumericSlot(p, code[i].a)
      then Fuse(Op(MulCvPush, 0, 0, code[i + 1].a, code[i].a), 3)
      else Keep
    else Keep
  }

  function VvPushAt(p: Program, target: seq<Mark>, code: seq<Op>, i: nat): Rewrite {
    if TailIsStraight(target, i, 3) && Is(code, i, LoadNum) && Is(code, i + 1, LoadNum) && i + 2 < |code| &&
       AddSubMul(code[i + 2].code) &&
       NumericSlot(p, code[i].a) && NumericSlot(p, code[i + 1].a)
    then
      var c := match code[i + 2].code case AddNum => AddVvPush case SubNum => SubVvPush case _ => MulVvPush;
      Fuse(Op(c, 0, 0, code[i].a, code[i + 1].a), 3)
    else Keep
  }

  function MoveAt(p: Program, target: seq<Mark>, code: seq<Op>, i: nat): Rewrite {
    if TailIsStraight(target, i, 2) && Is(code, i, LoadNum) && Is(code, i + 1, StoreNum) &&
       NumericSlot(p, code[i].a) && NumericSlot(p, code[i + 1].a)
    then Fuse(Op(MovNum, 0, 0, code[i + 1].a, code[i].a), 2) else Keep
  }

  function OrElse(first: Rewrite, second: Rewrite): Rewrite { if first.Fuse? then first else second }

  function FirstMatch(p: Program, t: seq<Mark>, code: seq<Op>, i: nat): Rewrite {
    OrElse(MulSubAddAt(p, t, code, i), OrElse(AddProductAt(p, t, code, i), OrElse(ProductAddAt(p, t, code, i),
    OrElse(MulCvvAddAt(p, t, code, i), OrElse(Sq2At(p, t, code, i), OrElse(SumSqAt(p, t, code, i),
    OrElse(ConditionAt(t, code, i), OrElse(RgbPsetAt(p, t, code, i), OrElse(VvStoreAt(p, t, code, i),
    OrElse(MulCvAt(p, t, code, i), OrElse(VvPushAt(p, t, code, i), MoveAt(p, t, code, i))))))))))))
  }

  // ---------- cross-line pass: one complex iteration and its escape test ----------

  function ComplexAt(p: Program, target: seq<Mark>, code: seq<Op>, i: nat): Rewrite {
    if i + 20 < |code| && code[i].code == MulSubAddStore && code[i + 10].code == MulCvvAddStore &&
       code[i + 18].code == MovNum
    then
      var t, x, y, re := Field6(code[i].a, 0), Field6(code[i].a, 1), Field6(code[i].a, 3), Field6(code[i].b, 0);
      var second, move := code[i + 10], code[i + 18];
      var im := Field6(second.a, 3);
      if ConstantIndex(p, second.b) && p.pool[second.b] == TWO &&
         Field6(code[i].a, 2) == x && Field6(code[i].a, 4) == y &&
         Field6(second.a, 0) == y && Field6(second.a, 1) == x && Field6(second.a, 2) == y && move.a == x &&
         move.b == t &&
         NumericSlot(p, t) && NumericSlot(p, x) && NumericSlot(p, y) && NumericSlot(p, re) && NumericSlot(p, im)
      then ComplexCondition(p, target, code, i, Pack6(x, y, re, im, t))
      else Keep
    else Keep
  }

  function ComplexCondition(p: Program, target: seq<Mark>, code: seq<Op>, i: nat, packed: int): Rewrite
    requires i + 20 < |code|
  {
    var x, y := Field6(packed, 0), Field6(packed, 1);
    var extra := code[i + 20].code == MovNum;
    var pc := if extra then i + 22 else i + 20;
    if (extra ==> NumericSlot(p, code[i + 20].a) && NumericSlot(p, code[i + 20].b)) && pc < |code| &&
       (code[pc].code == Sq2GtOrJz || code[pc].code == SumSqGtJz)
    then
      var condition := code[pc];
      var either := condition.code == Sq2GtOrJz;
      var length := (pc - i) + (if either then 12 else 10);
      if Field6(condition.s, 0) == x && Field6(condition.s, 1) == y && ConstantIndex(p, condition.b) &&
         0 <= condition.a < |code| && condition.a <= 0xfff && condition.b <= 0xfff && FlowIsStraight(target, i, length)
      then
        var next := code[condition.a].code == ForIncr;
        Fuse(Op(if either then ComplexIterOrJz else ComplexIterSumSqJz,
                 (if extra then 1 else 0) + (if next then 2 else 0),
                 if extra then Pack6(code[i + 20].a, code[i + 20].b, 0, 0, 0) else 0,
                 packed, condition.a + 4096 * condition.b), length)
      else Keep
    else Keep
  }

  // ---------- cross-line pass: pixel pipelines ----------

  /** G=INT(A*B): the slots A and B, whether or not the product is already fused. */
  function ProductSlots(code: seq<Op>, i: nat): Option<(int, int)> {
    if i < |code| && code[i].code == MulVvPush then Some((code[i].a, code[i].b))
    else if Is(code, i, LoadNum) && Is(code, i + 1, LoadNum) &&
    Is(code, i + 2, MulNum) then Some((code[i].a, code[i + 1].a))
    else None
  }

  predicate ColorsWith(code: seq<Op>, i: nat, gray: int)
    requires i + 7 <= |code|
  {
    (code[i].code == LoadNum && code[i].a == gray) ||
    (code[i].code == RgbPsetVv && Field6(code[i].a, 0) == gray && Field6(code[i].a, 1) == gray &&
     Field6(code[i].a, 2) == gray && Field6(code[i].a, 3) == code[i + 4].a && Field6(code[i].a, 4) == code[i + 5].a)
  }

  /** The six slots after the first color load, all in their original form. */
  predicate PaintTail(code: seq<Op>, i: nat, gray: int) {
    Is(code, i, LoadNum) && Is(code, i + 1, LoadNum) && Is(code, i + 2, CallFn) && Is(code, i + 3, LoadNum) &&
    Is(code, i + 4, LoadNum) && Is(code, i + 5, CallFn) && code[i].a == gray && code[i + 1].a == gray &&
    Calls(code, i + 2, FN_COLOR, 3) && Calls(code, i + 5, FN_PSET, 2)
  }

  function GrayAt(p: Program, target: seq<Mark>, code: seq<Op>, i: nat): Rewrite {
    if FlowIsStraight(target, i, 12) && i + 12 <= |code| && ProductSlots(code, i).Some? &&
       Calls(code, i + 3, FN_INT, 1) &&
       code[i + 4].code == StoreNum && ColorsWith(code, i + 5, code[i + 4].a) && PaintTail(code, i + 6, code[i + 4].a)
    then GrayOp(p, ProductSlots(code, i).value, code[i + 4].a, code[i + 9].a, code[i + 10].a) else Keep
  }

  function GrayOp(p: Program, product: (int, int), gray: int, x: int, y: int): Rewrite {
    if NumericSlot(p, product.0) && NumericSlot(p, product.1) && NumericSlot(p, gray) && NumericSlot(p, x) &&
       NumericSlot(p, y)
    then Fuse(Op(GrayPsetMulInt, 0, 0, Pack6(gray, product.0, product.1, x, y), 0), 12) else Keep
  }

  function AsByte(v: Num): Option<int> {
    match v case Whole(n) => if 0 <= n <= 255 then Some(n) else None case Bits(_) => None
  }

  datatype ChannelMatch = ChannelMatch(cap: int, src: int, k: int, dst: int)

  /** dst = MIN(cap, src*k), six slots, the product fused or not. */
  function ChannelAt(p: Program, code: seq<Op>, i: nat): Option<ChannelMatch> {
    if i + 6 <= |code| && code[i].code == PushNum && ConstantIndex(p, code[i].a) && AsByte(p.pool[code[i].a]).Some? &&
       Calls(code, i + 4, FN_MIN, 2) && code[i + 5].code == StoreNum
    then
      var factor :=
        if code[i + 1].code == MulCvPush then Some((code[i + 1].b, code[i + 1].a))
        else if Is(code, i + 1, LoadNum) && Is(code, i + 2, PushNum) &&
        Is(code, i + 3, MulNum) then Some((code[i + 1].a, code[i + 2].a))
        else None;
      if factor.Some? && ConstantIndex(p, factor.value.1) && AsByte(p.pool[factor.value.1]).Some?
      then Some(ChannelMatch(AsByte(p.pool[code[i].a]).value, factor.value.0, AsByte(p.pool[factor.value.1]).value,
          code[i + 5].a))
      else None
    else None
  }

  function MinMulAt(p: Program, target: seq<Mark>, code: seq<Op>, i: nat): Rewrite {
    var r, g, b := ChannelAt(p, code, i), ChannelAt(p, code, i + 6), ChannelAt(p, code, i + 12);
    if FlowIsStraight(target, i, 25) && i + 25 <= |code| && r.Some? && g.Some? && b.Some? &&
       r.value.cap == g.value.cap == b.value.cap && r.value.src == g.value.src == b.value.src &&
       PaintsFrom(code, i + 18) &&
       code[i + 18].a == r.value.dst && code[i + 19].a == g.value.dst && code[i + 20].a == b.value.dst &&
       NumericSlot(p, r.value.src) && NumericSlot(p, r.value.dst) && NumericSlot(p, g.value.dst) &&
       NumericSlot(p, b.value.dst) &&
       NumericSlot(p, code[i + 22].a) && NumericSlot(p, code[i + 23].a)
    then Fuse(Op(RgbPsetMinMul, 0, code[i + 23].a,
                  Pack6(r.value.src, r.value.dst, g.value.dst, b.value.dst, code[i + 22].a),
                  PackBytes(r.value.k, g.value.k, b.value.k, r.value.cap)), 25)
    else Keep
  }

  // ---------- specialization and the passes after it ----------

  function SpecializeAt(code: seq<Op>, i: nat): Rewrite {
    if i < |code| && code[i].code == CallFn && NumericArity(code[i].a) >= 0 && code[i].b == NumericArity(code[i].a)
    then
      var c := match code[i].b case 0 => Fn0Num case 1 => Fn1Num case 2 => Fn2Num case _ => Fn3Num;
      Fuse(code[i].(code := c), 1)
    else Keep
  }

  predicate IsIntCall(code: seq<Op>, i: nat) {
    Calls(code, i, FN_INT, 1) || (i < |code| && code[i].code == Fn1Num && code[i].a == FN_INT)
  }

  function GrayAgainAt(p: Program, target: seq<Mark>, code: seq<Op>, i: nat): Rewrite {
    if FlowIsStraight(target, i, 12) && i + 12 <= |code| && ProductSlots(code, i).Some? && IsIntCall(code, i + 3) &&
       Is(code, i + 4, StoreNum) && Is(code, i + 5, LoadNum) && code[i + 5].a == code[i + 4].a &&
       PaintTail(code, i + 6, code[i + 4].a)
    then GrayOp(p, ProductSlots(code, i).value, code[i + 4].a, code[i + 9].a, code[i + 10].a) else Keep
  }

  function GrayTailAt(p: Program, target: seq<Mark>, code: seq<Op>, i: nat): Rewrite {
    if FlowIsStraight(target, i, 9) && i + 9 <= |code| && code[i].code == Fn1Num && code[i].a == FN_INT &&
       Is(code, i + 1, StoreNum) && Is(code, i + 2, LoadNum) && code[i + 2].a == code[i + 1].a &&
       PaintTail(code, i + 3, code[i + 1].a) &&
       NumericSlot(p, code[i + 1].a) && NumericSlot(p, code[i + 6].a) && NumericSlot(p, code[i + 7].a)
    then Fuse(Op(GrayPsetIntStack, 0, 0, Pack6(code[i + 1].a, code[i + 6].a, code[i + 7].a, 0, 0), 0), 9)
    else Keep
  }

  function StoreConstantAt(p: Program, target: seq<Mark>, code: seq<Op>, i: nat): Rewrite {
    if TailIsStraight(target, i, 2) && Is(code, i, PushNum) && Is(code, i + 1, StoreNum) &&
       ConstantIndex(p, code[i].a) && NumericSlot(p, code[i + 1].a)
    then Fuse(Op(StoreConstNum, 0, 0, code[i + 1].a, code[i].a), 2) else Keep
  }

  function VariableConstantAt(p: Program, target: seq<Mark>, code: seq<Op>, i: nat): Rewrite {
    if TailIsStraight(target, i, 3) && Is(code, i, LoadNum) && Is(code, i + 1, PushNum) && i + 2 < |code| &&
       ConstantIndex(p, code[i + 1].a) && NumericSlot(p, code[i].a)
    then
      match code[i + 2].code
      case AddNum => Fuse(Op(AddVcPush, 0, 0, code[i].a, code[i + 1].a), 3)
      case SubNum => Fuse(Op(SubVcPush, 0, 0, code[i].a, code[i + 1].a), 3)
      case DivNum => Fuse(Op(DivVcPush, 0, 0, code[i].a, code[i + 1].a), 3)
      case MulNum => Fuse(Op(MulCvPush, 0, 0, code[i + 1].a, code[i].a), 3)
      case _ => Keep
    else Keep
  }

  function ResidualMatch(p: Program, t: seq<Mark>, code: seq<Op>, i: nat): Rewrite {
    OrElse(AddProductAt(p, t, code, i), OrElse(StoreConstantAt(p, t, code, i), VariableConstantAt(p, t, code, i)))
  }

  // ---------- local patterns, one function at a time ----------

  predicate LocalSlots(fn: Function, slots: seq<int>) {
    forall k :: 0 <= k < |slots| ==> 0 <= slots[k] < fn.numericLocals && slots[k] < 128
  }

  function SlotAt(slots: seq<int>, k: nat): int { if k < |slots| then slots[k] else 0 }

  function PackedLocals(slots: seq<int>): (int, int) {
    (Pack7(SlotAt(slots, 0), SlotAt(slots, 1), SlotAt(slots, 2), SlotAt(slots, 3)),
     Pack7(SlotAt(slots, 4), SlotAt(slots, 5), 0, 0))
  }

  function FoldLocal(
      p: Program, fn: Function, target: seq<Mark>, i: nat, pattern: int, length: Span, slots: seq<int>,
      constant: Option<int>): Rewrite {
    var packed := PackedLocals(slots);
    var b := if constant.Some? && constant.value >= 0 then constant.value else packed.1;
    if TailIsStraight(target, i, length) && LocalSlots(fn, slots) && (constant.Some? ==> ConstantIndex(p, b))
    then Fuse(Op(LocalNumFused, pattern, length, packed.0, b), length)
    else Keep
  }

  function LocalGrayAt(fn: Function, target: seq<Mark>, code: seq<Op>, i: nat): Rewrite {
    if i + 12 <= fn.end && TailIsStraight(target, i, 12) && i + 12 <= |code| &&
       Is(code, i, LoadLocalNum) && Is(code, i + 1, LoadLocalNum) && Is(code, i + 2, MulNum) &&
       IsIntCall(code, i + 3) &&
       Is(code, i + 4, StoreLocalNum) && Is(code, i + 5, LoadLocalNum) && Is(code, i + 6, LoadLocalNum) &&
       Is(code, i + 7, LoadLocalNum) &&
       Arg(code, i, 5) == Arg(code, i, 4) && Arg(code, i, 6) == Arg(code, i, 4) &&
       Arg(code, i, 7) == Arg(code, i, 4) && Calls(code, i + 8, FN_COLOR, 3) &&
       Is(code, i + 9, LoadLocalNum) && Is(code, i + 10, LoadLocalNum) && Calls(code, i + 11, FN_PSET, 2) &&
       LocalSlots(fn, [Arg(code, i, 4), Arg(code, i, 0), Arg(code, i, 1), Arg(code, i, 9), Arg(code, i, 10)])
    then Fuse(Op(LocalGrayPsetMulInt, 0, 12, Pack7(Arg(code, i, 4), Arg(code, i, 0), Arg(code, i, 1), Arg(code, i,
        9)), Arg(code, i, 10)), 12) else Keep
  }

  function ArithmeticKind(c: OpCode): int { match c case AddNum => 0 case SubNum => 1 case _ => 2 }

  function LocalProductsDifferenceAt(p: Program, fn: Function, t: seq<Mark>, code: seq<Op>, i: nat): Rewrite {
    if Is(code, i, LoadLocalNum) && Is(code, i + 1, LoadLocalNum) && Is(code, i + 2, MulNum) &&
       Is(code, i + 3, LoadLocalNum) && Is(code, i + 4, LoadLocalNum) && Is(code, i + 5, MulNum) &&
       Is(code, i + 6, SubNum) && Is(code, i + 7, LoadLocalNum) && Is(code, i + 8, AddNum) &&
       Is(code, i + 9, StoreLocalNum)
    then FoldLocal(p, fn, t, i, 10, 10, [Arg(code, i, 9), Arg(code, i, 0), Arg(code, i, 1), Arg(code, i, 3),
        Arg(code, i, 4), Arg(code, i, 7)], None) else Keep
  }

  function LocalAddProductAt(p: Program, fn: Function, t: seq<Mark>, code: seq<Op>, i: nat): Rewrite {
    if Is(code, i, LoadLocalNum) && Is(code, i + 1, LoadLocalNum) && Is(code, i + 2, LoadLocalNum) &&
       Is(code, i + 3, MulNum) && Is(code, i + 4, AddNum) && Is(code, i + 5, StoreLocalNum)
    then FoldLocal(p, fn, t, i, 8, 6, [Arg(code, i, 5), Arg(code, i, 0), Arg(code, i, 1), Arg(code, i, 2)],
        None) else Keep
  }

  function LocalProductAddAt(p: Program, fn: Function, t: seq<Mark>, code: seq<Op>, i: nat): Rewrite {
    if Is(code, i, LoadLocalNum) && Is(code, i + 1, LoadLocalNum) && Is(code, i + 2, MulNum) &&
       Is(code, i + 3, LoadLocalNum) && Is(code, i + 4, AddNum) && Is(code, i + 5, StoreLocalNum)
    then FoldLocal(p, fn, t, i, 9, 6, [Arg(code, i, 5), Arg(code, i, 3), Arg(code, i, 0), Arg(code, i, 1)],
        None) else Keep
  }

  function LocalAddConstantProductAt(p: Program, fn: Function, t: seq<Mark>, code: seq<Op>, i: nat): Rewrite {
    if Is(code, i, LoadLocalNum) && Is(code, i + 1, LoadLocalNum) && Is(code, i + 2, PushNum) &&
       Is(code, i + 3, MulNum) && Is(code, i + 4, AddNum) && Is(code, i + 5, StoreLocalNum)
    then FoldLocal(p, fn, t, i, 16, 6, [Arg(code, i, 5), Arg(code, i, 0), Arg(code, i, 1)], Some(Arg(code, i,
        2))) else Keep
  }

  function LocalPairStoreAt(p: Program, fn: Function, t: seq<Mark>, code: seq<Op>, i: nat): Rewrite {
    if Is(code, i, LoadLocalNum) && Is(code, i + 1, LoadLocalNum) && Is(code, i + 3, StoreLocalNum) &&
       AddSubMul(code[i + 2].code)
    then FoldLocal(p, fn, t, i, 5 + ArithmeticKind(code[i + 2].code), 4, [Arg(code, i, 3), Arg(code, i, 0), Arg(code,
        i, 1)], None) else Keep
  }

  function LocalPairPushAt(p: Program, fn: Function, t: seq<Mark>, code: seq<Op>, i: nat): Rewrite {
    if Is(code, i, LoadLocalNum) && Is(code, i + 1, LoadLocalNum) && i + 2 < |code| && AddSubMul(code[i + 2].code)
    then FoldLocal(p, fn, t, i, 2 + ArithmeticKind(code[i + 2].code), 3, [Arg(code, i, 0), Arg(code, i, 1)],
        None) else Keep
  }

  function LocalConstantAt(p: Program, fn: Function, t: seq<Mark>, code: seq<Op>, i: nat): Rewrite {
    if Is(code, i, LoadLocalNum) && Is(code, i + 1, PushNum) && i + 2 < |code| && AddSubMul(code[i + 2].code)
    then FoldLocal(p, fn, t, i, 12 + ArithmeticKind(code[i + 2].code), 3, [Arg(code, i, 0)], Some(Arg(code, i,
        1))) else Keep
  }

  function LocalMoveAt(p: Program, fn: Function, t: seq<Mark>, code: seq<Op>, i: nat): Rewrite {
    if Is(code, i, LoadLocalNum) &&
       Is(code, i + 1, StoreLocalNum) then FoldLocal(p, fn, t, i, 0, 2, [Arg(code, i, 1), Arg(code, i, 0)],
           None) else Keep
  }

  function LocalConstantProductAddAt(p: Program, fn: Function, t: seq<Mark>, code: seq<Op>, i: nat): Rewrite {
    if Is(code, i, PushNum) && Is(code, i + 1, LoadLocalNum) && Is(code, i + 2, MulNum) &&
       Is(code, i + 3, LoadLocalNum) && Is(code, i + 4, MulNum) && Is(code, i + 5, LoadLocalNum) &&
       Is(code, i + 6, AddNum) && Is(code, i + 7, StoreLocalNum)
    then FoldLocal(p, fn, t, i, 11, 8, [Arg(code, i, 7), Arg(code, i, 1), Arg(code, i, 3), Arg(code, i, 5)],
        Some(Arg(code, i, 0))) else Keep
  }

  function LocalConstantMulAt(p: Program, fn: Function, t: seq<Mark>, code: seq<Op>, i: nat): Rewrite {
    if Is(code, i, PushNum) && Is(code, i + 1, LoadLocalNum) &&
       Is(code, i + 2, MulNum) then FoldLocal(p, fn, t, i, 15, 3, [Arg(code, i, 1)], Some(Arg(code, i, 0))) else Keep
  }

  function LocalStoreConstantAt(p: Program, fn: Function, t: seq<Mark>, code: seq<Op>, i: nat): Rewrite {
    if Is(code, i, PushNum) &&
       Is(code, i + 1, StoreLocalNum) then FoldLocal(p, fn, t, i, 1, 2, [Arg(code, i, 1)], Some(Arg(code, i,
           0))) else Keep
  }

  function LocalMatch(p: Program, fn: Function, t: seq<Mark>, code: seq<Op>, i: nat): Rewrite {
    OrElse(LocalGrayAt(fn, t, code, i),
    OrElse(LocalProductsDifferenceAt(p, fn, t, code, i), OrElse(LocalAddProductAt(p, fn, t, code, i),
    OrElse(LocalProductAddAt(p, fn, t, code, i), OrElse(LocalAddConstantProductAt(p, fn, t, code, i),
    OrElse(LocalPairStoreAt(p, fn, t, code, i), OrElse(LocalPairPushAt(p, fn, t, code, i),
    OrElse(LocalConstantAt(p, fn, t, code, i), OrElse(LocalMoveAt(p, fn, t, code, i),
    OrElse(LocalConstantProductAddAt(p, fn, t, code, i), OrElse(LocalConstantMulAt(p, fn, t, code, i),
           LocalStoreConstantAt(p, fn, t, code, i))))))))))))
  }

  // ---------- the sweeps ----------

  datatype Pass = LocalPass(fn: Function) | FirstPass | ComplexPass | PixelPass | SpecializePass | GrayAgainPass | GrayTailPass | ResidualPass

  function Match(pass: Pass, p: Program, t: seq<Mark>, code: seq<Op>, i: nat): Rewrite {
    match pass
    case LocalPass(fn) => LocalMatch(p, fn, t, code, i)
    case FirstPass => FirstMatch(p, t, code, i)
    case ComplexPass => ComplexAt(p, t, code, i)
    case PixelPass => OrElse(GrayAt(p, t, code, i), MinMulAt(p, t, code, i))
    case SpecializePass => SpecializeAt(code, i)
    case GrayAgainPass => GrayAgainAt(p, t, code, i)
    case GrayTailPass => GrayTailAt(p, t, code, i)
    case ResidualPass => ResidualMatch(p, t, code, i)
  }

  /** One pass over the slots [i, end): overwrite a matched first slot, step over its tail. */
  function Sweep(pass: Pass, p: Program, t: seq<Mark>, code: seq<Op>, i: nat, end: nat): seq<Op>
    requires end <= |code|
    decreases end - i
  {
    if i >= end then code
    else
      var f := Match(pass, p, t, code, i);
      if f.Fuse? then Sweep(pass, p, t, code[i := f.op], i + f.length, end)
      else Sweep(pass, p, t, code, i + 1, end)
  }

  function Clamp(pc: int, length: nat): nat { if pc < 0 then 0 else if pc > length then length else pc }

  function SweepFunctions(p: Program, t: seq<Mark>, code: seq<Op>, f: nat): (out: seq<Op>)
    decreases |p.functions| - f
  {
    if f >= |p.functions| then code
    else
      var fn := p.functions[f];
      SweepFunctions(p, t, Sweep(LocalPass(fn), p, t, code, Clamp(fn.entry, |code|), Clamp(fn.end, |code|)), f + 1)
  }

  function SweepAll(pass: Pass, p: Program, t: seq<Mark>, code: seq<Op>): seq<Op> { Sweep(pass, p, t, code, 0, |code|) }

  function Optimized(p: Program, raw: seq<Op>): seq<Op> {
    var t := Marks(p, raw);
    var c1 := SweepAll(FirstPass, p, t, SweepFunctions(p, t, raw, 0));
    var c2 := SweepAll(PixelPass, p, t, SweepAll(ComplexPass, p, t, c1));
    var c3 := SweepAll(GrayAgainPass, p, t, SweepAll(SpecializePass, p, t, c2));
    SweepAll(ResidualPass, p, t, SweepAll(GrayTailPass, p, t, c3))
  }
}
