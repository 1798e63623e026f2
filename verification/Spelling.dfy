/** What each fused operation stands for: the original operations it was fused from. */
module Spelling {
  import opened Wrappers
  import opened Il

  // Which products were written constant-second; the optimizer accepts either order.
  datatype Order = Order(first: bool, second: bool, third: bool)

  // ---------- spelling a fused operation out ----------

  function Code(e: Expr): (ins: seq<Instr>)
    ensures |ins| == CodeLength(e)
  {
    match e
    case Leaf(x) => [ILoad(x)]
    case Bin(op, l, r) => Code(l) + Code(r) + [IBin(op)]
  }

  function Assignment(dst: Operand, e: Expr): seq<Instr> { Code(e) + [IStore(dst)] }

  function BranchCode(e: Expr, target: int): seq<Instr> { Code(e) + [IJz(target)] }

  function Painting(r: Operand, g: Operand, b: Operand, px: Operand, py: Operand): seq<Instr> {
    [ILoad(r), ILoad(g), ILoad(b), IColor] + [ILoad(px), ILoad(py), IPset]
  }

  function Product(x: Expr, y: Expr, swapped: bool): Expr {
    if swapped then Bin(Mul, y, x) else Bin(Mul, x, y)
  }

  function Channel(cap: int, src: int, k: int, swapped: bool): Expr {
    Bin(Min, C(Whole(cap)), Product(G(src), C(Whole(k)), swapped))
  }

  function ComplexCode(i: Instr): seq<Instr>
    requires i.FComplex?
  {
    IterationCode(i) + MoveCode(i.move) + BranchCode(EscapeTest(i.either, i.zx, i.zy, i.limit), i.target)
  }

  function IterationCode(i: Instr): seq<Instr>
    requires i.FComplex?
  {
    Assignment(Global(i.t), RealPart(i)) + Assignment(Global(i.zy), ImagPart(i)) + Assignment(Global(i.zx), G(i.t))
  }

  function RealPart(i: Instr): Expr
    requires i.FComplex?
  {
    Bin(Add, Bin(Sub, Bin(Mul, G(i.zx), G(i.zx)), Bin(Mul, G(i.zy), G(i.zy))), G(i.re))
  }

  function ImagPart(i: Instr): Expr
    requires i.FComplex?
  {
    Bin(Add, Bin(Mul, Bin(Mul, C(TWO), G(i.zx)), G(i.zy)), G(i.im))
  }

  function MoveCode(move: Option<(int, int)>): seq<Instr> {
    if move.Some? then Assignment(Global(move.value.0), G(move.value.1)) else []
  }

  predicate ConstantTimes(e: Expr) {
    e.Bin? && e.op.Mul? && e.l.Leaf? && e.l.x.Literal? && e.r.Leaf? && e.r.x.Global?
  }

  /** The original operations behind `i`; a single original operation spells itself. */
  function Spell(i: Instr, w: Order): seq<Instr> {
    match i
    case FPush(e) => if ConstantTimes(e) && w.first then Code(Bin(Mul, e.r, e.l)) else Code(e)
    case FAssign(dst, e) => Assignment(dst, e)
    case FBranch(e, target) => BranchCode(e, target)
    case FBinJz(op, target) => [IBin(op), IJz(target)]
    case FNotJz(target) => [INot, IJz(target)]
    case FPlot(r, g, b, px, py) => Painting(r, g, b, px, py)
    case FGray(dst, lhs, rhs, px, py) =>
      Code(Bin(Mul, Leaf(lhs), Leaf(rhs))) + ([IInt, IStore(dst)] + Painting(dst, dst, dst, px, py))
    case FGrayStack(dst, px, py) => [IInt, IStore(dst)] + Painting(dst, dst, dst, px, py)
    case FMinMul(src, d, k, cap, px, py) =>
      Assignment(Global(d.0), Channel(cap, src, k.0, w.first)) + Assignment(Global(d.1), Channel(cap, src, k.1,
          w.second))
      + Assignment(Global(d.2), Channel(cap, src, k.2, w.third))
      + Painting(Global(d.0), Global(d.1), Global(d.2), Global(px), Global(py))
    case FComplex(_, _, _, _, _, _, _, _, _, _) => ComplexCode(i)
    case _ => [i]
  }

  // ---------- which operands are in range ----------

  predicate VarOk(symbols: nat, x: Operand) { x.Global? ==> 0 <= x.slot < symbols }

  predicate ExprOk(symbols: nat, e: Expr) {
    match e case Leaf(x) => VarOk(symbols, x) case Bin(_, l, r) => ExprOk(symbols, l) && ExprOk(symbols, r)
  }

  predicate OperandsOk(symbols: nat, i: Instr) {
    match i
    case FPush(e) => ExprOk(symbols, e)
    case FAssign(dst, e) => ExprOk(symbols, e) && VarOk(symbols, dst) && !dst.Literal? &&
        (dst.Global? ==> !UsesLocals(e))
    case FBranch(e, _) => ExprOk(symbols, e) && !UsesLocals(e)
    case FPlot(r, g, b, px, py) => GlobalOk(symbols, r) && GlobalOk(symbols, g) && GlobalOk(symbols, b) &&
        GlobalOk(symbols, px) && GlobalOk(symbols, py)
    case FGray(dst, lhs, rhs, px, py) =>
      (GlobalOk(symbols, dst) && GlobalOk(symbols, lhs) && GlobalOk(symbols, rhs) && GlobalOk(symbols, px) &&
          GlobalOk(symbols, py)) ||
      (dst.Local? && lhs.Local? && rhs.Local? && px.Local? && py.Local?)
    case FGrayStack(dst, px, py) => GlobalOk(symbols, dst) && GlobalOk(symbols, px) && GlobalOk(symbols, py)
    case FMinMul(src, d, k, cap, px, py) =>
      SlotOk(symbols, src) && SlotOk(symbols, d.0) && SlotOk(symbols, d.1) && SlotOk(symbols, d.2) &&
          SlotOk(symbols, px) && SlotOk(symbols, py)
    case FComplex(x, y, re, im, t, _, _, _, move, _) =>
      SlotOk(symbols, x) && SlotOk(symbols, y) && SlotOk(symbols, re) && SlotOk(symbols, im) && SlotOk(symbols, t) &&
      (move.Some? ==> SlotOk(symbols, move.value.0) && SlotOk(symbols, move.value.1))
    case _ => true
  }

  predicate SlotOk(symbols: nat, s: int) { 0 <= s < symbols }
  predicate GlobalOk(symbols: nat, x: Operand) { x.Global? && SlotOk(symbols, x.slot) }

  // ---------- when the fused arithmetic may reuse values it read before storing ----------

  /** The condition under which a fused operation means what its spelling means. Every fused
      operation but the two that cross statements satisfies it outright. */
  predicate AliasFree(i: Instr) {
    match i
    case FMinMul(src, d, k, _, _, _) =>
      src != d.0 && src != d.1 &&
      (d.0 == d.1 ==> k.0 == k.1) && (d.0 == d.2 ==> k.0 == k.2) && (d.1 == d.2 ==> k.1 == k.2)
    case FComplex(x, y, _, im, t, _, _, _, move, _) =>
      t != x && t != y && t != im && x != y &&
      (move.Some? ==> (move.value.0 == x ==> move.value.1 == x || move.value.1 == t) &&
                      (move.value.0 == y ==> move.value.1 == y))
    case _ => true
  }
}
