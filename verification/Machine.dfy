/** The virtual machine: one dispatch of every operation the compiler's control flow and the
    optimizer deal in. Arithmetic and every other operation are parameters. */
module Machine {
  import opened Wrappers
  import opened Il

  const FOR_LIMIT := 32

  datatype Value = Number(n: Num) | Text(s: string)

  datatype Event = Color(r: Num, g: Num, b: Num) | Pixel(x: Num, y: Num)

  datatype ForFrame = ForFrame(slot: int, end: Num, step: Num, body: int)

  // `rest` stands for strings, arrays, the random state, return addresses and saved call frames.
  datatype State = State(
    pc: int, stack: seq<Value>, globals: map<int, Num>, locals: Option<map<int, Num>>,
    fors: seq<ForFrame>, forBase: nat, out: seq<Event>, rest: map<nat, int>)

  // What a run-time error leaves behind.
  datatype Left = Left(globals: map<int, Num>, locals: Option<map<int, Num>>, out: seq<Event>)

  datatype Outcome = Run(st: State) | Done(end: State) | Failed(left: Left) | Overflow

  datatype Arith = Arith(
    apply: (BinOp, Num, Num) -> Num,
    holds: (BinOp, Num, Num) -> bool,
    isZero: Num -> bool,
    floor: Num -> Num,
    pun: string -> Num, // what a numeric operation reads from a string cell
    numeric: (int, seq<Num>, map<nat, int>) -> Option<(Num, map<nat, int>)>)

  datatype Machine = Machine(
    arith: Arith, pool: seq<Num>, symbols: nat, limit: nat,
    other: (int, Op, State) -> Outcome)

  /** All that is asked of the arithmetic: products commute, > is < turned round, -1 is true. */
  ghost predicate Lawful(a: Arith) {
    && (forall x, y :: a.apply(Mul, x, y) == a.apply(Mul, y, x))
    && (forall x, y :: a.holds(Gt, x, y) == a.holds(Lt, y, x))
    && a.isZero(ZERO) && !a.isZero(TRUTH)
  }

  // ---------- values ----------

  function Truth(b: bool): Num { if b then TRUTH else ZERO }

  function BinValue(a: Arith, op: BinOp, x: Num, y: Num): Option<Num> {
    match op
    case Add => Some(a.apply(Add, x, y))
    case Sub => Some(a.apply(Sub, x, y))
    case Mul => Some(a.apply(Mul, x, y))
    case Div => if a.isZero(y) then None else Some(a.apply(Div, x, y))
    case And => Some(Truth(!a.isZero(x) && !a.isZero(y)))
    case Or => Some(Truth(!a.isZero(x) || !a.isZero(y)))
    case Min => Some(if a.holds(Lt, x, y) then x else y)
    case _ => Some(Truth(a.holds(op, x, y)))
  }

  function NumberOf(a: Arith, v: Value): Num {
    match v case Number(n) => n case Text(s) => a.pun(s)
  }

  function Get(vars: map<int, Num>, slot: int): Num { if slot in vars then vars[slot] else ZERO }

  function Read(st: State, x: Operand): Option<Num> {
    match x
    case Global(slot) => Some(Get(st.globals, slot))
    case Local(slot) => if st.locals.Some? then Some(Get(st.locals.value, slot)) else None
    case Literal(v) => Some(v)
  }

  function Write(st: State, x: Operand, v: Num): State {
    match x
    case Global(slot) => st.(globals := st.globals[slot := v])
    case Local(slot) => if st.locals.Some? then st.(locals := Some(st.locals.value[slot := v])) else st
    case Literal(_) => st
  }

  function Eval(a: Arith, st: State, e: Expr): Option<Num> {
    match e
    case Leaf(x) => Read(st, x)
    case Bin(op, l, r) =>
      var x, y := Eval(a, st, l), Eval(a, st, r);
      if x.None? || y.None? then None else BinValue(a, op, x.value, y.value)
  }

  /** How many stack cells the postfix code of an expression needs at once. */
  function Peak(e: Expr): nat {
    match e
    case Leaf(_) => 1
    case Bin(_, l, r) => if Peak(l) > 1 + Peak(r) then Peak(l) else 1 + Peak(r)
  }

  // ---------- single operations ----------

  function Leaves(st: State): Left { Left(st.globals, st.locals, st.out) }

  function Advance(st: State, n: int): State { st.(pc := st.pc + n) }

  function Push(m: Machine, st: State, n: Num): Outcome {
    if |st.stack| >= m.limit then Overflow
    else Run(st.(stack := st.stack + [Number(n)]))
  }

  function Then(o: Outcome, n: int): Outcome { if o.Run? then Run(Advance(o.st, n)) else o }

  function Jump(code: seq<Op>, st: State, target: int): Outcome {
    if 0 <= target < |code| then Run(st.(pc := target)) else Failed(Leaves(st))
  }

  function Pop(st: State, n: nat): State
    requires n <= |st.stack|
  {
    st.(stack := st.stack[..|st.stack| - n])
  }

  function Top(st: State, k: nat): Value
    requires k < |st.stack|
  {
    st.stack[|st.stack| - 1 - k]
  }

  function StepLoad(m: Machine, st: State, x: Operand): Outcome {
    if x.Local? && st.locals.None? then Failed(Leaves(st))
    else if |st.stack| >= m.limit then Overflow
    else if x.Global? && !(0 <= x.slot < m.symbols) then Failed(Leaves(st))
    else Then(Push(m, st, Read(st, x).value), 1)
  }

  function StepStore(m: Machine, st: State, v: Operand): Outcome {
    if v.Literal? || (v.Local? && st.locals.None?) || |st.stack| == 0 ||
       (v.Global? && !(0 <= v.slot < m.symbols)) || (v.Local? && Top(st, 0).Text?)
    then Failed(Leaves(st))
    else Run(Advance(Write(Pop(st, 1), v, NumberOf(m.arith, Top(st, 0))), 1))
  }

  function StepBin(m: Machine, st: State, op: BinOp): Outcome {
    if |st.stack| < 2 || (op.Min? && (Top(st, 0).Text? || Top(st, 1).Text?)) then Failed(Leaves(st))
    else
      var v := BinValue(m.arith, op, NumberOf(m.arith, Top(st, 1)), NumberOf(m.arith, Top(st, 0)));
      if v.None? then Failed(Leaves(st))
      else Run(Advance(Pop(st, 2).(stack := Pop(st, 2).stack + [Number(v.value)]), 1))
  }

  function StepNumeric(m: Machine, st: State, id: int, argc: nat): Outcome {
    if |st.stack| < argc || (exists k :: 0 <= k < argc && Top(st, k).Text?) then Failed(Leaves(st))
    else
      var args := seq(argc, k requires 0 <= k < argc => NumberOf(m.arith, Top(st, argc - 1 - k)));
      var r := m.arith.numeric(id, args, st.rest);
      if r.None? then Failed(Leaves(st))
      else Then(Push(m, Pop(st, argc).(rest := r.value.1), r.value.0), 1)
  }

  /** Consume `argc` numbers off the stack, oldest first. */
  predicate TopNumbers(st: State, argc: nat) {
    |st.stack| >= argc && forall k :: 0 <= k < argc ==> Top(st, k).Number?
  }

  function StepColor(st: State): Outcome {
    if !TopNumbers(st, 3) then Failed(Leaves(st))
    else Run(Advance(Emit(Pop(st, 3), [Color(Top(st, 2).n, Top(st, 1).n, Top(st, 0).n)]), 1))
  }

  function StepPset(st: State): Outcome {
    if !TopNumbers(st, 2) then Failed(Leaves(st))
    else Run(Advance(Emit(Pop(st, 2), [Pixel(Top(st, 1).n, Top(st, 0).n)]), 1))
  }

  function Emit(st: State, events: seq<Event>): State { st.(out := st.out + events) }

  function StepJz(m: Machine, code: seq<Op>, st: State, target: int): Outcome {
    if |st.stack| == 0 || Top(st, 0).Text? then Failed(Leaves(st))
    else if m.arith.isZero(Top(st, 0).n) then Jump(code, Pop(st, 1), target)
    else Run(Advance(Pop(st, 1), 1))
  }

  // ---------- FOR loops ----------

  predicate Continues(a: Arith, frame: ForFrame, current: Num) {
    if a.holds(Ge, frame.step, ZERO) then a.holds(Le, current, frame.end) else a.holds(Ge, current, frame.end)
  }

  function StepForInit(m: Machine, st: State, slot: int): Outcome {
    if |st.stack| < 2 || Top(st, 0).Text? || Top(st, 1).Text? || m.arith.isZero(Top(st, 0).n) ||
       |st.fors| >= FOR_LIMIT
    then Failed(Leaves(st))
    else Run(Advance(Pop(st, 2).(fors := st.fors + [ForFrame(slot, Top(st, 1).n, Top(st, 0).n, 0)]), 1))
  }

  function StepForCheck(m: Machine, st: State, body: int): Outcome {
    if |st.fors| == 0 || st.fors[|st.fors| - 1].slot < 0 then Failed(Leaves(st))
    else
      var n := |st.fors| - 1;
      var frame := st.fors[n].(body := body);
      if Continues(m.arith, frame, Get(st.globals, frame.slot))
      then Run(st.(fors := st.fors[n := frame], pc := body))
      else Run(Advance(st.(fors := st.fors[..n]), 1))
  }

  /** NEXT with a variable abandons inner loops until that variable's frame is on top. */
  function Unwind(fors: seq<ForFrame>, base: nat, slot: int): seq<ForFrame> {
    if |fors| > base && slot >= 0 && fors[|fors| - 1].slot != slot
    then Unwind(fors[..|fors| - 1], base, slot) else fors
  }

  function StepForIncr(m: Machine, st: State, slot: int): Outcome {
    var fors := Unwind(st.fors, st.forBase, slot);
    if |fors| <= st.forBase then Failed(Leaves(st))
    else
      var n := |fors| - 1;
      var current := m.arith.apply(Add, Get(st.globals, fors[n].slot), fors[n].step);
      var st' := st.(globals := st.globals[fors[n].slot := current]);
      if Continues(m.arith, fors[n], current)
      then Run(st'.(fors := fors, pc := fors[n].body))
      else Run(Advance(st'.(fors := fors[..n]), 1))
  }

  function StepExitLoop(code: seq<Op>, st: State, target: int, discard: int, depth: int): Outcome {
    if |st.fors| < st.forBase || |st.fors| - st.forBase != depth || !(0 <= discard <= depth) then Failed(Leaves(st))
    else Jump(code, st.(fors := st.fors[..|st.fors| - discard]), target)
  }

  // ---------- fused operations, as the machine runs them ----------

  function StepFusedPush(m: Machine, st: State, e: Expr): Outcome {
    var v := Eval(m.arith, st, e);
    if v.None? then Failed(Leaves(st))
    else if UsesLocals(e) && |st.stack| + Peak(e) > m.limit then Overflow
    else Then(Push(m, st, v.value), CodeLength(e))
  }

  function StepFusedAssign(m: Machine, st: State, dst: Operand, e: Expr): Outcome {
    var v := Eval(m.arith, st, e);
    if v.None? || (dst.Local? && st.locals.None?) then Failed(Leaves(st))
    else if dst.Local? && |st.stack| + Peak(e) > m.limit then Overflow
    else Run(Advance(Write(st, dst, v.value), CodeLength(e) + 1))
  }

  function StepFusedBranch(m: Machine, code: seq<Op>, st: State, e: Expr, target: int): Outcome {
    var v := Eval(m.arith, st, e);
    if v.None? then Failed(Leaves(st))
    else if m.arith.isZero(v.value) then Jump(code, st, target)
    else Run(Advance(st, CodeLength(e) + 1))
  }

  function StepBinJz(m: Machine, code: seq<Op>, st: State, op: BinOp, target: int): Outcome {
    if |st.stack| < 2 then Failed(Leaves(st))
    else
      var v := BinValue(m.arith, op, NumberOf(m.arith, Top(st, 1)), NumberOf(m.arith, Top(st, 0)));
      if v.None? then Failed(Leaves(st))
      else if m.arith.isZero(v.value) then Jump(code, Pop(st, 2), target)
      else Run(Advance(Pop(st, 2), 2))
  }

  function StepNotJz(m: Machine, code: seq<Op>, st: State, target: int): Outcome {
    if |st.stack| == 0 then Failed(Leaves(st))
    else if !m.arith.isZero(NumberOf(m.arith, Top(st, 0))) then Jump(code, Pop(st, 1), target)
    else Run(Advance(Pop(st, 1), 2))
  }

  function Paint(st: State, r: Num, g: Num, b: Num, px: Operand, py: Operand): State
    requires Read(st, px).Some? && Read(st, py).Some?
  {
    Emit(st, [Color(r, g, b), Pixel(Read(st, px).value, Read(st, py).value)])
  }

  function StepPlot(st: State, r: Operand, g: Operand, b: Operand, px: Operand, py: Operand): Outcome {
    if Read(st, r).None? || Read(st, g).None? || Read(st, b).None? || Read(st, px).None? || Read(st, py).None?
    then Failed(Leaves(st))
    else Run(Advance(Paint(st, Read(st, r).value, Read(st, g).value, Read(st, b).value, px, py), 7))
  }

  function StepGray(
      m: Machine, st: State, dst: Operand, lhs: Operand, rhs: Operand, px: Operand, py: Operand): Outcome {
    var x, y := Read(st, lhs), Read(st, rhs);
    if x.None? || y.None? || Read(st, px).None? || Read(st, py).None? then Failed(Leaves(st))
    else if dst.Local? && |st.stack| > m.limit - 3 then StepLoad(m, st, lhs) // near overflow: run the tail
    else
      var v := m.arith.floor(m.arith.apply(Mul, x.value, y.value));
      var st' := Write(st, dst, v);
      if Read(st', px).None? || Read(st', py).None? then Failed(Leaves(st))
      else Run(Advance(Paint(st', v, v, v, px, py), 12))
  }

  function StepGrayStack(m: Machine, st: State, dst: Operand, px: Operand, py: Operand): Outcome {
    if |st.stack| == 0 || Top(st, 0).Text? then Failed(Leaves(st))
    else
      var v := m.arith.floor(Top(st, 0).n);
      var st' := Write(Pop(st, 1), dst, v);
      if Read(st', px).None? || Read(st', py).None? then Failed(Leaves(st))
      else Run(Advance(Paint(st', v, v, v, px, py), 9))
  }

  /** min(v, cap), the way the machine clamps a channel. */
  function Capped(a: Arith, v: Num, cap: Num): Num { if a.holds(Gt, v, cap) then cap else v }

  function StepMinMul(m: Machine, st: State, i: Instr): Outcome
    requires i.FMinMul?
  {
    var source, cap := Get(st.globals, i.src), Whole(i.cap);
    var r := Capped(m.arith, m.arith.apply(Mul, source, Whole(i.k.0)), cap);
    var g := Capped(m.arith, m.arith.apply(Mul, source, Whole(i.k.1)), cap);
    var b := Capped(m.arith, m.arith.apply(Mul, source, Whole(i.k.2)), cap);
    var st' := st.(globals := st.globals[i.d.0 := r][i.d.1 := g][i.d.2 := b]);
    Run(Advance(Paint(st', r, g, b, Global(i.column), Global(i.row)), 25))
  }

  function ComplexSpan(i: Instr): nat
    requires i.FComplex?
  {
    20 + (if i.move.Some? then 2 else 0) + (if i.either then 12 else 10)
  }

  function ComplexReal(m: Machine, st: State, i: Instr): Num
    requires i.FComplex?
  {
    var x, y := Get(st.globals, i.zx), Get(st.globals, i.zy);
    m.arith.apply(Add, m.arith.apply(Sub, m.arith.apply(Mul, x, x), m.arith.apply(Mul, y, y)), Get(st.globals, i.re))
  }

  function ComplexImag(m: Machine, st: State, i: Instr): Num
    requires i.FComplex?
  {
    var x, y := Get(st.globals, i.zx), Get(st.globals, i.zy);
    m.arith.apply(Add, m.arith.apply(Mul, m.arith.apply(Mul, TWO, x), y), Get(st.globals, i.im))
  }

  function ComplexMove(vars: map<int, Num>, move: Option<(int, int)>): map<int, Num> {
    match move case None => vars case Some(p) => vars[p.0 := Get(vars, p.1)]
  }

  predicate Escapes(a: Arith, either: bool, x: Num, y: Num, limit: Num) {
    var xx, yy := a.apply(Mul, x, x), a.apply(Mul, y, y);
    if either then a.holds(Gt, xx, limit) || a.holds(Gt, yy, limit) else a.holds(Gt, a.apply(Add, xx, yy), limit)
  }

  function ComplexVars(m: Machine, st: State, i: Instr): map<int, Num>
    requires i.FComplex?
  {
    var x, y := ComplexReal(m, st, i), ComplexImag(m, st, i);
    ComplexMove(st.globals[i.t := x][i.zy := y][i.zx := x], i.move)
  }

  function StepComplex(m: Machine, code: seq<Op>, st: State, i: Instr): Outcome
    requires i.FComplex?
  {
    var st' := st.(globals := ComplexVars(m, st, i));
    if Escapes(m.arith, i.either, ComplexReal(m, st, i), ComplexImag(m, st, i), i.limit)
    then Run(Advance(st', ComplexSpan(i)))
    else if !(0 <= i.target < |code|) then Failed(Leaves(st'))
    else if i.next && code[i.target].code == ForIncr
    then StepForIncr(m, st'.(pc := i.target), code[i.target].a)
    else Run(st'.(pc := i.target))
  }

  // ---------- dispatch ----------

  function StepInstr(m: Machine, code: seq<Op>, st: State, i: Instr): Outcome {
    match i
    case ILoad(x) => StepLoad(m, st, x)
    case IStore(v) => StepStore(m, st, v)
    case IBin(op) => StepBin(m, st, op)
    case INot =>
      if |st.stack| == 0 then Failed(Leaves(st))
      else Run(Advance(st.(stack := st.stack[|st.stack| - 1 :=
        Number(Truth(m.arith.isZero(NumberOf(m.arith, Top(st, 0)))))]), 1))
    case IInt =>
      if !TopNumbers(st, 1) then Failed(Leaves(st))
      else Run(Advance(st.(stack := st.stack[|st.stack| - 1 := Number(m.arith.floor(Top(st, 0).n))]), 1))
    case INumeric(id, argc) => StepNumeric(m, st, id, argc)
    case IColor => StepColor(st)
    case IPset => StepPset(st)
    case IJmp(target) => Jump(code, st, target)
    case IJz(target) => StepJz(m, code, st, target)
    case IForInit(slot) => StepForInit(m, st, slot)
    case IForCheck(body) => StepForCheck(m, st, body)
    case IForIncr(slot) => StepForIncr(m, st, slot)
    case IExitLoop(target, discard, depth) => StepExitLoop(code, st, target, discard, depth)
    case IDup =>
      if |st.stack| == 0 then Failed(Leaves(st))
      else if |st.stack| >= m.limit then Overflow
      else Run(Advance(st.(stack := st.stack + [Top(st, 0)]), 1))
    case IDrop => if |st.stack| == 0 then Failed(Leaves(st)) else Run(Advance(Pop(st, 1), 1))
    case IHalt => Done(st)
    case IBadConstant => Failed(Leaves(st))
    case IOther(op) => m.other(st.pc, op, st)
    case FPush(e) => StepFusedPush(m, st, e)
    case FAssign(dst, e) => StepFusedAssign(m, st, dst, e)
    case FBranch(e, target) => StepFusedBranch(m, code, st, e, target)
    case FBinJz(op, target) => StepBinJz(m, code, st, op, target)
    case FNotJz(target) => StepNotJz(m, code, st, target)
    case FPlot(r, g, b, px, py) => StepPlot(st, r, g, b, px, py)
    case FGray(dst, lhs, rhs, px, py) => StepGray(m, st, dst, lhs, rhs, px, py)
    case FGrayStack(dst, px, py) => StepGrayStack(m, st, dst, px, py)
    case FMinMul(_, _, _, _, _, _) => StepMinMul(m, st, i)
    case FComplex(_, _, _, _, _, _, _, _, _, _) => StepComplex(m, code, st, i)
  }

  function Step(m: Machine, code: seq<Op>, st: State): Outcome {
    if 0 <= st.pc < |code| then StepInstr(m, code, st, Decode(m.pool, code[st.pc])) else Failed(Leaves(st))
  }

  function RunN(m: Machine, code: seq<Op>, o: Outcome, n: nat): Outcome
    decreases n
  {
    if n == 0 || !o.Run? then o else RunN(m, code, Step(m, code, o.st), n - 1)
  }

  /** The program started in `st` stops with outcome `o`. */
  ghost predicate Ends(m: Machine, code: seq<Op>, st: State, o: Outcome) {
    !o.Run? && exists n: nat :: RunN(m, code, Run(st), n) == o
  }

  lemma {:induction false} RunAdds(m: Machine, code: seq<Op>, o: Outcome, j: nat, k: nat)
    ensures RunN(m, code, RunN(m, code, o, j), k) == RunN(m, code, o, j + k)
    decreases j
  {
    hide Step;
    if j > 0 && o.Run? {
      RunAdds(m, code, Step(m, code, o.st), j - 1, k);
    }
  }
}
