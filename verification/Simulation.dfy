/** Running the code of a structured program on the machine does what the program means: it ends in
    the same variables and output, unless the operand stack overflows, and it runs on for as long as
    the program's loops do. */
module Simulation {
  import opened Wrappers
  import opened Il
  import opened Machine
  import opened Spelling
  import opened Statements
  import opened Labels
  import opened Blocks
  import opened Semantics
  import opened Fusion
  import opened OptimizerProof
  import opened Justification

  // ---------- the code in place ----------

  ghost predicate CodeAt(prog: seq<Op>, base: int, syms: seq<Sym>) {
    0 <= base && base + |syms| <= |prog| && forall k :: 0 <= k < |syms| ==> prog[base + k] == Lower(syms[k])
  }

  lemma {:induction false} SplitCode(prog: seq<Op>, base: int, a: seq<Sym>, b: seq<Sym>)
    requires CodeAt(prog, base, a + b)
    ensures CodeAt(prog, base, a) && CodeAt(prog, base + |a|, b)
  {
    forall k | 0 <= k < |a| ensures prog[base + k] == Lower(a[k]) { assert (a + b)[k] == a[k]; }
    forall k | 0 <= k < |b| ensures prog[base + |a| + k] == Lower(b[k]) { assert (a + b)[|a| + k] == b[k]; }
  }

  lemma {:induction false} OneCode(prog: seq<Op>, base: int, s: Sym)
    requires CodeAt(prog, base, [s])
    ensures 0 <= base < |prog| && prog[base] == Lower(s)
  {
    assert prog[base + 0] == Lower([s][0]);
  }

  // ---------- what a program may mention ----------

  predicate LiteralsIn(pool: seq<Num>, e: Expr) {
    match e
    case Leaf(x) => x.Literal? ==> x.v in pool
    case Bin(_, l, r) => LiteralsIn(pool, l) && LiteralsIn(pool, r)
  }

  predicate ExprFits(m: Machine, e: Expr) { ExprOk(m.symbols, e) && LiteralsIn(m.pool, e) }

  predicate ItemFits(m: Machine, item: Literals) {
    match item case OneOf(v) => v in m.pool case Between(low, high) => low in m.pool && high in m.pool
  }

  /** Slots, constants, loop depth and EXITs are in order; `fors` FOR loops are open. */
  predicate Fits(m: Machine, s: Stmt, fors: nat, inDo: bool) {
    match s
    case Let(slot, e) => 0 <= slot < m.symbols && ExprFits(m, e)
    case SetColor(r, g, b) => ExprFits(m, r) && ExprFits(m, g) && ExprFits(m, b)
    case SetPixel(x, y) => ExprFits(m, x) && ExprFits(m, y)
    case End => true
    case LeaveFor => fors > 0
    case LeaveDo => inDo
    case OneLine(test, yes, no) => ExprFits(m, test) && Fits(m, yes, fors, inDo) &&
        (no.Some? ==> Fits(m, no.value, fors, inDo))
    case Choose(arms) => ArmsFit(m, arms, fors, inDo)
    case ForLoop(slot, first, limit, step, body, _) =>
      0 <= slot < m.symbols && ExprFits(m, first) && ExprFits(m, limit) && ExprFits(m, step) && fors < FOR_LIMIT &&
      BlockFits(m, body, fors + 1, inDo)
    case WhileLoop(test, body) => ExprFits(m, test) && BlockFits(m, body, fors, inDo)
    case DoLoop(entry, body, until) =>
      (entry.Some? ==> ExprFits(m, entry.value)) && (until.Some? ==> ExprFits(m, until.value)) &&
          BlockFits(m, body, fors, true)
    case SelectCase(e, clauses) => ExprFits(m, e) && ClausesFit(m, clauses, fors, inDo)
  }

  predicate BlockFits(m: Machine, b: Block, fors: nat, inDo: bool) {
    b.Cons? ==> Fits(m, b.head, fors, inDo) && BlockFits(m, b.tail, fors, inDo)
  }

  predicate ArmsFit(m: Machine, a: Arms, fors: nat, inDo: bool) {
    match a
    case Arm(test, body, rest) => ExprFits(m, test) && BlockFits(m, body, fors, inDo) && ArmsFit(m, rest, fors, inDo)
    case Otherwise(other) => other.Some? ==> BlockFits(m, other.value, fors, inDo)
  }

  predicate ClausesFit(m: Machine, c: Clauses, fors: nat, inDo: bool) {
    match c
    case When(items, body, rest) =>
      (forall k :: 0 <= k < |items| ==> ItemFits(m, items[k])) && BlockFits(m, body, fors, inDo) &&
          ClausesFit(m, rest, fors, inDo)
    case Rest(other) => other.Some? ==> BlockFits(m, other.value, fors, inDo)
  }

  // ---------- the relation ----------

  function WorldOf(st: State): World { World(st.globals, st.out) }

  function LeftBy(w: World): Left { Left(w.vars, None, w.out) }

  function Land(st: State, s: World, pc: int): State { st.(globals := s.vars, out := s.out, pc := pc) }

  /** A state at module level, with `fors` FOR loops running. */
  predicate Level(m: Machine, st: State, fors: nat) { st.locals.None? && st.forBase == 0 && |st.fors| == fors }

  predicate Target_(n: nat, t: Target) { t.At? && 0 <= t.pc < n }

  /** Exits lead into the program. */
  predicate Exits(n: nat, c: Context, inDo: bool) {
    (c.fors > 0 ==> Target_(n, c.forExit)) && (inDo ==> Target_(n, c.doExit) && 0 <= c.doFors <= c.fors)
  }

  /** The outcome `o` of running the code from `st`, against the meaning `r`. */
  ghost predicate Meets(o: Outcome, r: Result, st: State, end: int, c: Context) {
    o == Overflow ||
    match r
    case Normal(s) => o == Run(Land(st, s, end))
    case ToFor(s) => |st.fors| > 0 && o == Run(Land(st, s, PcOf(c.forExit)).(fors := st.fors[..|st.fors| - 1]))
    case ToDo(s) => 0 <= c.doFors <= |st.fors| && o == Run(Land(st, s, PcOf(c.doExit)).(fors := st.fors[..c.doFors]))
    case Halted(s) => o.Done? && WorldOf(o.end) == s
    case Stuck(s) => o == Failed(LeftBy(s))
    case Running => o.Run?
  }

  /** Run for `k` dispatches the code means `r`; while it has not, at least `fuel` have passed. */
  ghost predicate Does(m: Machine, prog: seq<Op>, st: State, k: nat, r: Result, end: int, c: Context, fuel: nat) {
    Meets(RunN(m, prog, Run(st), k), r, st, end, c) && (r.Running? ==> k >= fuel)
  }

  // ---------- stepping ----------

  lemma {:induction false} ThenRun(m: Machine, prog: seq<Op>, st: State, j: nat, mid: State, k: nat)
    requires SameOrOverflow(RunN(m, prog, Run(st), j), Run(mid))
    ensures SameOrOverflow(RunN(m, prog, Run(st), j + k), RunN(m, prog, Run(mid), k))
  {
    RunAdds(m, prog, Run(st), j, k);
    if RunN(m, prog, Run(st), j) == Overflow { StoppedStays(m, prog, Overflow, k); }
  }

  lemma {:induction false} OpsDecode(pool: seq<Num>, e: Expr)
    requires LiteralsIn(pool, e)
    ensures |Code(e)| == |Ops(pool, e)| && forall k :: 0 <= k < |Code(e)| ==>
        Decode(pool, Ops(pool, e)[k]) == Code(e)[k]
    decreases e
  {
    hide Decode;
    match e
    case Leaf(x) => LoadDecodes(pool, x);
    case Bin(op, l, r) =>
      OpsDecode(pool, l);
      OpsDecode(pool, r);
      BinDecodes(pool, op);
      var front := Ops(pool, l) + Ops(pool, r);
      assert Ops(pool, e) == front + [BinCode(op)] && Code(e) == Code(l) + Code(r) + [IBin(op)];
  }

  lemma {:induction false} IndexFound(pool: seq<Num>, v: Num)
    requires v in pool
    ensures 0 <= IndexOf(pool, v) < |pool| && pool[IndexOf(pool, v)] == v
    decreases |pool|
  {
    if pool[0] != v { IndexFound(pool[1..], v); }
  }

  lemma {:induction false} LoadDecodes(pool: seq<Num>, x: Operand)
    requires x.Literal? ==> x.v in pool
    ensures Decode(pool, LoadOf(pool, x)) == ILoad(x)
  {
    if x.Literal? { IndexFound(pool, x.v); }
  }

  lemma {:induction false} BinDecodes(pool: seq<Num>, op: BinOp)
    ensures Decode(pool, BinCode(op)) == IBin(op)
  {}

  lemma {:induction false} ExprSpelled(m: Machine, prog: seq<Op>, e: Expr, base: nat)
    requires ExprFits(m, e) && CodeAt(prog, base, PlainOps(Ops(m.pool, e)))
    ensures SpellsAt(Decoded(m.pool, prog), base, Code(e))
  {
    hide Decode;
    var ops := Ops(m.pool, e);
    OpsDecode(m.pool, e);
    forall k | 0 <= k < |Code(e)| ensures Decoded(m.pool, prog)[base + k] == Code(e)[k] {
      assert prog[base + k] == Lower(PlainOps(ops)[k]);
    }
  }

  function Pushed(st: State, n: nat, v: Num): State { st.(pc := st.pc + n, stack := st.stack + [Number(v)]) }

  lemma {:induction false} ValueIs(m: Machine, st: State, e: Expr)
    requires st.locals.None?
    ensures Valued(m.arith, WorldOf(st), e) == Eval(m.arith, st, e)
  {
    EvalIgnoresStack(m.arith, State(0, [], st.globals, None, [], 0, st.out, map[]), st, e);
  }

  /** The code of an expression pushes its value. */
  lemma {:induction false} ExprRuns(m: Machine, prog: seq<Op>, e: Expr, st: State)
    requires ExprFits(m, e) && st.pc >= 0 && CodeAt(prog, st.pc, PlainOps(Ops(m.pool, e))) && st.locals.None?
    ensures var v := Valued(m.arith, WorldOf(st), e);
            SameOrOverflow(RunN(m, prog, Run(st), CodeLength(e)), if v.None?
                then Failed(LeftBy(WorldOf(st))) else Run(Pushed(st, CodeLength(e), v.value)))
  {
    hide Exec, Code, Eval, Valued, CodeAt;
    ExprSpelled(m, prog, e, st.pc);
    CodeIsStraight(e);
    ExecIsDispatch(m, prog, st.pc, Code(e), st);
    CodeComputes(m, prog, e, st);
    ValueIs(m, st, e);
  }

  lemma {:induction false} StepAt(m: Machine, prog: seq<Op>, s: Sym, st: State)
    requires CodeAt(prog, st.pc, [s])
    ensures RunN(m, prog, Run(st), 1) == StepInstr(m, prog, st, Decode(m.pool, Lower(s)))
  {
    hide StepInstr, Decode;
    OneCode(prog, st.pc, s);
    OneStep(m, prog, st);
  }

  // ---------- what one dispatch of each operation does ----------

  lemma {:induction false} StoreDispatch(m: Machine, prog: seq<Op>, st: State, a: int)
    ensures StepInstr(m, prog, st, Decode(m.pool, Op(StoreNum, 0, 0, a, 0))) == StepStore(m, st, Global(a))
  {
    hide StepStore;
  }

  lemma {:induction false} CompareDispatch(m: Machine, prog: seq<Op>, st: State, c: OpCode)
    requires Comparison(c)
    ensures StepInstr(m, prog, st, Decode(m.pool, Simple(c))) == StepBin(m, st, CompareOp(c))
  {
    hide StepBin;
  }

  lemma {:induction false} JzDispatch(m: Machine, prog: seq<Op>, st: State, a: int)
    ensures StepInstr(m, prog, st, Decode(m.pool, Op(Jz, 0, 0, a, 0))) == StepJz(m, prog, st, a)
  {
    hide StepJz;
  }

  lemma {:induction false} ExitDispatch(m: Machine, prog: seq<Op>, st: State, a: int, b: int, s: int)
    ensures StepInstr(m, prog, st, Decode(m.pool, Op(ExitLoop, 0, s, a, b))) == StepExitLoop(prog, st, a, b, s)
  {
    hide StepExitLoop;
  }

  lemma {:induction false} HaltDispatch(m: Machine, prog: seq<Op>, st: State)
    ensures StepInstr(m, prog, st, Decode(m.pool, Simple(Halt))) == Done(st)
  {}

  lemma {:induction false} InitDispatch(m: Machine, prog: seq<Op>, st: State, a: int)
    ensures StepInstr(m, prog, st, Decode(m.pool, Op(ForInit, 0, 0, a, 0))) == StepForInit(m, st, a)
  {
    hide StepForInit;
  }

  lemma {:induction false} CheckDispatch(m: Machine, prog: seq<Op>, st: State, a: int, b: int)
    ensures StepInstr(m, prog, st, Decode(m.pool, Op(ForCheck, 0, 0, a, b))) == StepForCheck(m, st, b)
  {
    hide StepForCheck;
  }

  lemma {:induction false} IncrDispatch(m: Machine, prog: seq<Op>, st: State, a: int)
    ensures StepInstr(m, prog, st, Decode(m.pool, Op(ForIncr, 0, 0, a, 0))) == StepForIncr(m, st, a)
  {
    hide StepForIncr;
  }

  lemma {:induction false} ColorDispatch(m: Machine, prog: seq<Op>, st: State)
    ensures StepInstr(m, prog, st, Decode(m.pool, Op(CallFn, 0, 0, FN_COLOR, 3))) == StepColor(st)
  {
    hide StepColor;
  }

  lemma {:induction false} DupDispatch(m: Machine, prog: seq<Op>, st: State)
    requires |st.stack| > 0
    ensures StepInstr(m, prog, st, Decode(m.pool, Simple(Dup)))
            == if |st.stack| >= m.limit then Overflow else Run(Advance(st.(stack := st.stack + [Top(st, 0)]), 1))
  {}

  lemma {:induction false} JumpRuns(m: Machine, prog: seq<Op>, t: Target, st: State)
    requires CodeAt(prog, st.pc, [Jump(t)]) && Target_(|prog|, t)
    ensures RunN(m, prog, Run(st), 1) == Run(st.(pc := t.pc))
  {
    StepAt(m, prog, Jump(t), st);
  }

  /** The jump taken on zero, on a number just pushed. */
  lemma {:induction false} UnlessRuns(m: Machine, prog: seq<Op>, t: Target, st: State, v: Num)
    requires CodeAt(prog, st.pc, [Unless(t)]) && Target_(|prog|, t) && |st.stack| > 0 && Top(st, 0) == Number(v)
    ensures RunN(m, prog, Run(st), 1) == Run(Pop(st, 1).(pc := if m.arith.isZero(v) then t.pc else st.pc + 1))
  {
    hide StepInstr, Decode, RunN;
    JzDispatch(m, prog, st, PcOf(t));
    StepAt(m, prog, Unless(t), st);
  }

  /** A condition and the jump it feeds. */
  lemma {:induction false} TestRuns(m: Machine, prog: seq<Op>, e: Expr, t: Target, st: State)
    requires ExprFits(m, e) && st.locals.None? && CodeAt(prog, st.pc, PlainOps(Ops(m.pool, e)) + [Unless(t)]) &&
        Target_(|prog|, t)
    ensures var v, n := Valued(m.arith, WorldOf(st), e), CodeLength(e) + 1;
            SameOrOverflow(RunN(m, prog, Run(st), n),
                           if v.None? then Failed(LeftBy(WorldOf(st))) else Run(st.(pc :=
                               if m.arith.isZero(v.value) then t.pc else st.pc + n)))
  {
    hide CodeAt, Valued, RunN, Ops, PlainOps, ExprFits;
    SplitCode(prog, st.pc, PlainOps(Ops(m.pool, e)), [Unless(t)]);
    assert st.pc >= 0 by { NonNegative(prog, st.pc, PlainOps(Ops(m.pool, e))); }
    ExprRuns(m, prog, e, st);
    var v, n := Valued(m.arith, WorldOf(st), e), CodeLength(e);
    if v.Some? {
      var mid := Pushed(st, n, v.value);
      assert Top(mid, 0) == Number(v.value) && Pop(mid, 1).stack == st.stack;
      UnlessRuns(m, prog, t, mid, v.value);
      ThenRun(m, prog, st, n, mid, 1);
    } else {
      ThenFail(m, prog, st, n, n + 1, LeftBy(WorldOf(st)));
    }
  }

  lemma {:induction false} NonNegative(prog: seq<Op>, base: int, syms: seq<Sym>)
    requires CodeAt(prog, base, syms)
    ensures base >= 0
  {}

  // ---------- simple statements ----------

  lemma {:induction false} PlainSplit(prog: seq<Op>, base: int, a: seq<Op>, b: seq<Op>)
    requires CodeAt(prog, base, PlainOps(a + b))
    ensures CodeAt(prog, base, PlainOps(a)) && CodeAt(prog, base + |a|, PlainOps(b)) && base >= 0
  {
    hide CodeAt;
    assert PlainOps(a + b) == PlainOps(a) + PlainOps(b);
    SplitCode(prog, base, PlainOps(a), PlainOps(b));
    NonNegative(prog, base, PlainOps(a));
  }

  /** One operation after an expression has been pushed, or the failure of the expression. */
  lemma {:induction false} ThenStep(m: Machine, prog: seq<Op>, st: State, n: nat, mid: State, op: Op)
    requires SameOrOverflow(RunN(m, prog, Run(st), n), Run(mid)) && CodeAt(prog, mid.pc, PlainOps([op]))
    ensures SameOrOverflow(RunN(m, prog, Run(st), n + 1), StepInstr(m, prog, mid, Decode(m.pool, op)))
  {
    hide StepInstr, Decode, CodeAt;
    assert PlainOps([op]) == [Plain(op)];
    StepAt(m, prog, Plain(op), mid);
    ThenRun(m, prog, st, n, mid, 1);
  }

  lemma {:induction false} ThenFail(m: Machine, prog: seq<Op>, st: State, n: nat, k: nat, left: Left)
    requires SameOrOverflow(RunN(m, prog, Run(st), n), Failed(left)) && n <= k
    ensures SameOrOverflow(RunN(m, prog, Run(st), k), Failed(left))
  {
    RunAdds(m, prog, Run(st), n, k - n);
    StoppedStays(m, prog, RunN(m, prog, Run(st), n), k - n);
  }

  lemma {:induction false} LetRuns(m: Machine, prog: seq<Op>, slot: int, e: Expr, st: State)
    requires st.locals.None? && 0 <= slot < m.symbols && ExprFits(m, e) &&
        CodeAt(prog, st.pc, PlainOps(SimpleOps(m.pool, Let(slot, e))))
    ensures var v := Valued(m.arith, WorldOf(st), e);
            SameOrOverflow(RunN(m, prog, Run(st), CodeLength(e) + 1),
                           if v.None? then Failed(LeftBy(WorldOf(st)))
                               else Run(Land(st, Assign(WorldOf(st), slot, v.value), st.pc + CodeLength(e) + 1)))
  {
    hide CodeAt, Valued, Ops, StepInstr, Decode, RunN, ExprFits;
    var store := Op(StoreNum, 0, 0, slot, 0);
    PlainSplit(prog, st.pc, Ops(m.pool, e), [store]);
    ExprRuns(m, prog, e, st);
    var v := Valued(m.arith, WorldOf(st), e);
    if v.None? { ThenFail(m, prog, st, CodeLength(e), CodeLength(e) + 1, LeftBy(WorldOf(st))); }
    else {
      var mid := Pushed(st, CodeLength(e), v.value);
      ThenStep(m, prog, st, CodeLength(e), mid, store);
      StoreDispatch(m, prog, mid, slot);
      assert Pop(mid, 1).stack == st.stack && Top(mid, 0) == Number(v.value);
    }
  }

  /** Two expressions in a row. */
  lemma {:induction false} PairRuns(m: Machine, prog: seq<Op>, x: Expr, y: Expr, st: State)
    requires st.locals.None? && ExprFits(m, x) && ExprFits(m, y) &&
        CodeAt(prog, st.pc, PlainOps(Ops(m.pool, x) + Ops(m.pool, y)))
    ensures var u, v, n := Valued(m.arith, WorldOf(st), x), Valued(m.arith, WorldOf(st), y), CodeLength(x)
        + CodeLength(y);
            SameOrOverflow(RunN(m, prog, Run(st), n),
                           if u.None? || v.None? then Failed(LeftBy(WorldOf(st)))
                           else Run(st.(pc := st.pc + n, stack := st.stack + [Number(u.value), Number(v.value)])))
  {
    hide CodeAt, Valued, Ops, RunN, ExprFits;
    PlainSplit(prog, st.pc, Ops(m.pool, x), Ops(m.pool, y));
    ExprRuns(m, prog, x, st);
    var u := Valued(m.arith, WorldOf(st), x);
    if u.None? { ThenFail(m, prog, st, CodeLength(x), CodeLength(x) + CodeLength(y), LeftBy(WorldOf(st))); }
    else {
      var mid := Pushed(st, CodeLength(x), u.value);
      ExprRuns(m, prog, y, mid);
      ThenRun(m, prog, st, CodeLength(x), mid, CodeLength(y));
      var v := Valued(m.arith, WorldOf(st), y);
      if v.Some? { assert mid.stack + [Number(v.value)] == st.stack + [Number(u.value), Number(v.value)]; }
    }
  }

  lemma {:induction false} PixelRuns(m: Machine, prog: seq<Op>, x: Expr, y: Expr, st: State)
    requires st.locals.None? && ExprFits(m, x) && ExprFits(m, y)
    requires CodeAt(prog, st.pc, PlainOps(Ops(m.pool, x) + Ops(m.pool, y) + [Op(CallFn, 0, 0, FN_PSET, 2)]))
    ensures var u, v, n := Valued(m.arith, WorldOf(st), x), Valued(m.arith, WorldOf(st), y), CodeLength(x)
        + CodeLength(y) + 1;
            SameOrOverflow(RunN(m, prog, Run(st), n),
                           if u.None? || v.None? then Failed(LeftBy(WorldOf(st)))
                           else Run(Emit(Advance(st, n), [Pixel(u.value, v.value)])))
  {
    hide CodeAt, Valued, Ops, RunN, ExprFits;
    var n := CodeLength(x) + CodeLength(y);
    PlainSplit(prog, st.pc, Ops(m.pool, x) + Ops(m.pool, y), [Op(CallFn, 0, 0, FN_PSET, 2)]);
    PairRuns(m, prog, x, y, st);
    var u, v := Valued(m.arith, WorldOf(st), x), Valued(m.arith, WorldOf(st), y);
    if u.None? || v.None? { ThenFail(m, prog, st, n, n + 1, LeftBy(WorldOf(st))); }
    else { PixelStep(m, prog, st, n, u.value, v.value); }
  }

  lemma {:induction false} PixelStep(m: Machine, prog: seq<Op>, st: State, n: nat, x: Num, y: Num)
    requires SameOrOverflow(RunN(m, prog, Run(st), n), Run(st.(pc := st.pc + n, stack :=
        st.stack + [Number(x), Number(y)])))
    requires CodeAt(prog, st.pc + n, PlainOps([Op(CallFn, 0, 0, FN_PSET, 2)]))
    ensures SameOrOverflow(RunN(m, prog, Run(st), n + 1), Run(Emit(Advance(st, n + 1), [Pixel(x, y)])))
  {
    hide CodeAt, RunN;
    var mid := st.(pc := st.pc + n, stack := st.stack + [Number(x), Number(y)]);
    ThenStep(m, prog, st, n, mid, Op(CallFn, 0, 0, FN_PSET, 2));
    assert Pop(mid, 2).stack == st.stack && Top(mid, 0) == Number(y) && Top(mid, 1) == Number(x);
  }

  lemma {:induction false} ColorRuns(m: Machine, prog: seq<Op>, r: Expr, g: Expr, b: Expr, st: State)
    requires st.locals.None? && ExprFits(m, r) && ExprFits(m, g) && ExprFits(m, b)
    requires CodeAt(prog, st.pc, PlainOps(Ops(m.pool, r) + Ops(m.pool, g) + Ops(m.pool, b) + [Op(CallFn, 0, 0,
        FN_COLOR, 3)]))
    ensures var x, y, z := Valued(m.arith, WorldOf(st), r), Valued(m.arith, WorldOf(st), g), Valued(m.arith,
        WorldOf(st), b);
            var n := CodeLength(r) + CodeLength(g) + CodeLength(b) + 1;
            SameOrOverflow(RunN(m, prog, Run(st), n),
                           if x.None? || y.None? || z.None? then Failed(LeftBy(WorldOf(st)))
                           else Run(Emit(Advance(st, n), [Color(x.value, y.value, z.value)])))
  {
    hide CodeAt, Valued, Ops, RunN, ExprFits;
    var j := CodeLength(r) + CodeLength(g);
    var n := j + CodeLength(b);
    PlainSplit(prog, st.pc, Ops(m.pool, r) + Ops(m.pool, g) + Ops(m.pool, b), [Op(CallFn, 0, 0, FN_COLOR, 3)]);
    PlainSplit(prog, st.pc, Ops(m.pool, r) + Ops(m.pool, g), Ops(m.pool, b));
    PairRuns(m, prog, r, g, st);
    var x, y := Valued(m.arith, WorldOf(st), r), Valued(m.arith, WorldOf(st), g);
    if x.None? || y.None? { ThenFail(m, prog, st, j, n + 1, LeftBy(WorldOf(st))); }
    else {
      var mid := st.(pc := st.pc + j, stack := st.stack + [Number(x.value), Number(y.value)]);
      BlueRuns(m, prog, b, st, mid, j, x.value, y.value);
    }
  }

  lemma {:induction false} BlueRuns(m: Machine, prog: seq<Op>, b: Expr, st: State, mid: State, j: nat, x: Num, y: Num)
    requires st.locals.None? && ExprFits(m, b) &&
        mid == st.(pc := st.pc + j, stack := st.stack + [Number(x), Number(y)])
    requires SameOrOverflow(RunN(m, prog, Run(st), j), Run(mid)) && mid.pc >= 0 &&
        CodeAt(prog, mid.pc, PlainOps(Ops(m.pool, b)))
    requires CodeAt(prog, st.pc + j + CodeLength(b), PlainOps([Op(CallFn, 0, 0, FN_COLOR, 3)]))
    ensures var z, n := Valued(m.arith, WorldOf(st), b), j + CodeLength(b) + 1;
            SameOrOverflow(RunN(m, prog, Run(st), n),
                           if z.None? then Failed(LeftBy(WorldOf(st)))
                               else Run(Emit(Advance(st, n), [Color(x, y, z.value)])))
  {
    hide CodeAt, Valued, Ops, RunN, ExprFits;
    var n := j + CodeLength(b);
    ExprRuns(m, prog, b, mid);
    ThenRun(m, prog, st, j, mid, CodeLength(b));
    var z := Valued(m.arith, WorldOf(st), b);
    if z.None? { ThenFail(m, prog, st, n, n + 1, LeftBy(WorldOf(st))); }
    else { ColorStep(m, prog, st, mid, n, x, y, z.value); }
  }

  lemma {:induction false} ColorStep(m: Machine, prog: seq<Op>, st: State, mid: State, n: nat, x: Num, y: Num, z: Num)
    requires mid.stack == st.stack + [Number(x), Number(y)] && mid == st.(pc := mid.pc, stack := mid.stack)
    requires mid.pc <= st.pc + n
    requires SameOrOverflow(RunN(m, prog, Run(st), n), Run(Pushed(mid, st.pc + n - mid.pc, z)))
    requires CodeAt(prog, st.pc + n, PlainOps([Op(CallFn, 0, 0, FN_COLOR, 3)]))
    ensures SameOrOverflow(RunN(m, prog, Run(st), n + 1), Run(Emit(Advance(st, n + 1), [Color(x, y, z)])))
  {
    hide CodeAt, StepInstr, Decode, RunN;
    ColorDispatch(m, prog, Pushed(mid, st.pc + n - mid.pc, z));
    var last := Pushed(mid, st.pc + n - mid.pc, z);
    ThenStep(m, prog, st, n, last, Op(CallFn, 0, 0, FN_COLOR, 3));
    assert Pop(last, 3).stack == st.stack;
    assert Top(last, 0) == Number(z) && Top(last, 1) == Number(y) && Top(last, 2) == Number(x);
  }

  lemma {:induction false} LeaveRuns(m: Machine, prog: seq<Op>, t: Target, discard: int, st: State)
    requires CodeAt(prog, st.pc, [Leave(t, discard, |st.fors|)]) && Target_(|prog|, t) && st.forBase == 0 &&
        0 <= discard <= |st.fors|
    ensures RunN(m, prog, Run(st), 1) == Run(st.(pc := t.pc, fors := st.fors[..|st.fors| - discard]))
  {
    hide StepInstr, Decode, RunN;
    ExitDispatch(m, prog, st, PcOf(t), discard, |st.fors|);
    StepAt(m, prog, Leave(t, discard, |st.fors|), st);
  }

  lemma {:induction false} HaltRuns(m: Machine, prog: seq<Op>, st: State)
    requires CodeAt(prog, st.pc, [Plain(Simple(Halt))])
    ensures RunN(m, prog, Run(st), 1) == Done(st)
  {
    hide StepInstr, Decode, RunN;
    HaltDispatch(m, prog, st);
    StepAt(m, prog, Plain(Simple(Halt)), st);
  }

  predicate IsSimple(s: Stmt) { s.Let? || s.SetColor? || s.SetPixel? || s.End? || s.LeaveFor? || s.LeaveDo? }

  lemma {:induction false} LeaveMeets(m: Machine, prog: seq<Op>, s: Stmt, c: Context, st: State, inDo: bool)
    requires (s.LeaveFor? || s.LeaveDo?) && Fits(m, s, c.fors, inDo) && Exits(|prog|, c, inDo) && Level(m, st, c.fors)
    requires CodeAt(prog, st.pc, Body(m.pool, s, st.pc, c))
    ensures Meets(RunN(m, prog, Run(st), Size(s)), RunSimple(m.arith, s, WorldOf(st)), st, st.pc + Size(s), c)
  {
    hide CodeAt, Valued, ExprFits, RunN, Ops, PlainOps;
    if s.LeaveFor? { LeaveRuns(m, prog, c.forExit, 1, st); }
    else { LeaveRuns(m, prog, c.doExit, c.fors - c.doFors, st); }
  }

  lemma {:induction false} EndMeets(m: Machine, prog: seq<Op>, s: Stmt, c: Context, st: State, inDo: bool)
    requires s.End? && Fits(m, s, c.fors, inDo) && Exits(|prog|, c, inDo) && Level(m, st, c.fors)
    requires CodeAt(prog, st.pc, Body(m.pool, s, st.pc, c))
    ensures Meets(RunN(m, prog, Run(st), Size(s)), RunSimple(m.arith, s, WorldOf(st)), st, st.pc + Size(s), c)
  {
    hide CodeAt, Valued, ExprFits, RunN, Ops, PlainOps;
    HaltOps(m.pool, s);
    HaltRuns(m, prog, st);
  }

  lemma {:induction false} LetMeets(m: Machine, prog: seq<Op>, s: Stmt, c: Context, st: State, inDo: bool)
    requires s.Let? && Fits(m, s, c.fors, inDo) && Exits(|prog|, c, inDo) && Level(m, st, c.fors)
    requires CodeAt(prog, st.pc, Body(m.pool, s, st.pc, c))
    ensures Meets(RunN(m, prog, Run(st), Size(s)), RunSimple(m.arith, s, WorldOf(st)), st, st.pc + Size(s), c)
  {
    hide CodeAt, Valued, ExprFits, RunN, Ops, PlainOps;
    LetRuns(m, prog, s.slot, s.e, st);
  }

  lemma {:induction false} ColorMeets(m: Machine, prog: seq<Op>, s: Stmt, c: Context, st: State, inDo: bool)
    requires s.SetColor? && Fits(m, s, c.fors, inDo) && Exits(|prog|, c, inDo) && Level(m, st, c.fors)
    requires CodeAt(prog, st.pc, Body(m.pool, s, st.pc, c))
    ensures Meets(RunN(m, prog, Run(st), Size(s)), RunSimple(m.arith, s, WorldOf(st)), st, st.pc + Size(s), c)
  {
    hide CodeAt, Valued, ExprFits, RunN, Ops, PlainOps;
    ColorRuns(m, prog, s.r, s.g, s.b, st);
  }

  lemma {:induction false} PixelMeets(m: Machine, prog: seq<Op>, s: Stmt, c: Context, st: State, inDo: bool)
    requires s.SetPixel? && Fits(m, s, c.fors, inDo) && Exits(|prog|, c, inDo) && Level(m, st, c.fors)
    requires CodeAt(prog, st.pc, Body(m.pool, s, st.pc, c))
    ensures Meets(RunN(m, prog, Run(st), Size(s)), RunSimple(m.arith, s, WorldOf(st)), st, st.pc + Size(s), c)
  {
    hide CodeAt, Valued, ExprFits, RunN, Ops, PlainOps;
    PixelRuns(m, prog, s.x, s.y, st);
  }

  lemma {:induction false} SimpleRuns(m: Machine, prog: seq<Op>, s: Stmt, c: Context, st: State, inDo: bool)
    requires IsSimple(s) && Fits(m, s, c.fors, inDo) && Exits(|prog|, c, inDo) && Level(m, st, c.fors)
    requires CodeAt(prog, st.pc, Body(m.pool, s, st.pc, c))
    ensures Meets(RunN(m, prog, Run(st), Size(s)), RunSimple(m.arith, s, WorldOf(st)), st, st.pc + Size(s), c)
  {
    hide CodeAt, Valued, ExprFits, RunN, Ops, PlainOps;
    hide Fits, Exits, Level, Body, Meets, RunSimple;
    if s.LeaveFor? || s.LeaveDo? { LeaveMeets(m, prog, s, c, st, inDo); }
    else if s.End? { EndMeets(m, prog, s, c, st, inDo); }
    else if s.Let? { LetMeets(m, prog, s, c, st, inDo); }
    else if s.SetColor? { ColorMeets(m, prog, s, c, st, inDo); }
    else { PixelMeets(m, prog, s, c, st, inDo); }
  }

  lemma {:induction false} HaltOps(pool: seq<Num>, s: Stmt)
    requires s.End?
    ensures PlainOps(SimpleOps(pool, s)) == [Plain(Simple(Halt))]
  {}

  // ---------- putting runs together ----------

  lemma {:induction false} LandSelf(st: State, pc: int)
    ensures Land(st, WorldOf(st), pc) == st.(pc := pc)
  {}

  /** Reach another state at the same level, then do the rest from there. */
  lemma {:induction false} Continue(
      m: Machine, prog: seq<Op>, st: State, j: nat, w: World, pc: int, k: nat, r: Result, end: int, c: Context,
      fuel: nat)
    requires SameOrOverflow(RunN(m, prog, Run(st), j), Run(Land(st, w, pc)))
    requires Does(m, prog, Land(st, w, pc), k, r, end, c, fuel)
    ensures Does(m, prog, st, j + k, r, end, c, fuel)
  {
    hide RunN;
    ThenRun(m, prog, st, j, Land(st, w, pc), k);
  }

  /** The rest may have less fuel when at least one dispatch came before it. */
  lemma {:induction false} ContinueLess(
      m: Machine, prog: seq<Op>, st: State, j: nat, w: World, pc: int, k: nat, r: Result, end: int, c: Context,
      fuel: nat)
    requires SameOrOverflow(RunN(m, prog, Run(st), j), Run(Land(st, w, pc))) && j > 0 && fuel > 0
    requires Does(m, prog, Land(st, w, pc), k, r, end, c, fuel - 1)
    ensures Does(m, prog, st, j + k, r, end, c, fuel)
  {
    hide RunN;
    ThenRun(m, prog, st, j, Land(st, w, pc), k);
  }

  lemma {:induction false} Fails(
      m: Machine, prog: seq<Op>, st: State, k: nat, w: World, end: int, c: Context, fuel: nat)
    requires SameOrOverflow(RunN(m, prog, Run(st), k), Failed(LeftBy(w)))
    ensures Does(m, prog, st, k, Stuck(w), end, c, fuel)
  {}

  lemma {:induction false} Arrives(
      m: Machine, prog: seq<Op>, st: State, k: nat, w: World, end: int, c: Context, fuel: nat)
    requires SameOrOverflow(RunN(m, prog, Run(st), k), Run(Land(st, w, end)))
    ensures Does(m, prog, st, k, Normal(w), end, c, fuel)
  {}

  /** Where the code ends only matters to a result that reaches the end. */
  lemma {:induction false} OtherEnd(
      m: Machine, prog: seq<Op>, st: State, k: nat, r: Result, end: int, other: int, c: Context, fuel: nat)
    requires Does(m, prog, st, k, r, end, c, fuel) && !r.Normal?
    ensures Does(m, prog, st, k, r, other, c, fuel)
  {}

  lemma {:induction false} NormalRuns(
      m: Machine, prog: seq<Op>, st: State, k: nat, w: World, end: int, c: Context, fuel: nat)
    requires Does(m, prog, st, k, Normal(w), end, c, fuel)
    ensures SameOrOverflow(RunN(m, prog, Run(st), k), Run(Land(st, w, end)))
  {}

  /** Code followed by a jump to the end. */
  lemma {:induction false} ThenJump(
      m: Machine, prog: seq<Op>, st: State, k: nat, r: Result, mid: int, end: int, c: Context, fuel: nat)
    returns (n: nat)
    requires Does(m, prog, st, k, r, mid, c, fuel) && CodeAt(prog, mid, [Jump(At(end))]) && Target_(|prog|, At(end))
    ensures Does(m, prog, st, n, r, end, c, fuel) && n >= k
  {
    hide RunN, CodeAt, Does;
    if r.Normal? {
      NormalRuns(m, prog, st, k, r.s, mid, c, fuel);
      ThenRun(m, prog, st, k, Land(st, r.s, mid), 1);
      JumpRuns(m, prog, At(end), Land(st, r.s, mid));
      n := k + 1;
      Arrives(m, prog, st, n, r.s, end, c, fuel);
    } else {
      n := k;
      OtherEnd(m, prog, st, k, r, mid, end, c, fuel);
    }
  }

  // ---------- blocks ----------

  lemma {:induction false} ConsCode(m: Machine, prog: seq<Op>, b: Block, base: int, c: Context)
    requires b.Cons? && CodeAt(prog, base, BlockBody(m.pool, b, base, c))
    ensures CodeAt(prog, base, Body(m.pool, b.head, base, c)) &&
        CodeAt(prog, base + Size(b.head), BlockBody(m.pool, b.tail, base + Size(b.head), c))
  {
    hide CodeAt, Body;
    SplitCode(prog, base, Body(m.pool, b.head, base, c), BlockBody(m.pool, b.tail, base + Size(b.head), c));
  }

  ghost predicate Set(m: Machine, prog: seq<Op>, c: Context, st: State, inDo: bool) {
    Lawful(m.arith) && Exits(|prog|, c, inDo) && Level(m, st, c.fors)
  }

  lemma {:induction false} SetAgain(m: Machine, prog: seq<Op>, c: Context, st: State, inDo: bool, w: World, pc: int)
    requires Set(m, prog, c, st, inDo)
    ensures Set(m, prog, c, Land(st, w, pc), inDo) && WorldOf(Land(st, w, pc)) == w
  {}

  lemma {:induction false} BlockRuns(
      m: Machine, prog: seq<Op>, b: Block, c: Context, st: State, inDo: bool, fuel: nat) returns (k: nat)
    requires Set(m, prog, c, st, inDo) && BlockFits(m, b, c.fors, inDo) &&
        CodeAt(prog, st.pc, BlockBody(m.pool, b, st.pc, c))
    requires st.pc + BlockSize(b) < |prog|
    ensures Does(m, prog, st, k, RunBlock(m.arith, b, WorldOf(st), fuel), st.pc + BlockSize(b), c, fuel)
    decreases fuel, b, 0
  {
    hide RunN, CodeAt, Does, Set, Fits, Body, BlockBody, RunStmt, Size;
    if b.Nil? {
      k := 0;
      LandSelf(st, st.pc);
      AtOnce(m, prog, st, c, fuel);
    } else {
      ConsCode(m, prog, b, st.pc, c);
      var j := StmtRuns(m, prog, b.head, c, st, inDo, fuel);
      var r := RunStmt(m.arith, b.head, WorldOf(st), fuel);
      var mid := st.pc + Size(b.head);
      if r.Normal? {
        NormalRuns(m, prog, st, j, r.s, mid, c, fuel);
        SetAgain(m, prog, c, st, inDo, r.s, mid);
        var n := BlockRuns(m, prog, b.tail, c, Land(st, r.s, mid), inDo, fuel);
        k := j + n;
        Continue(m, prog, st, j, r.s, mid, n, RunBlock(m.arith, b.tail, r.s, fuel), st.pc + BlockSize(b), c, fuel);
      } else {
        k := j;
        OtherEnd(m, prog, st, j, r, mid, st.pc + BlockSize(b), c, fuel);
      }
    }
  }

  lemma {:induction false} AtOnce(m: Machine, prog: seq<Op>, st: State, c: Context, fuel: nat)
    ensures Does(m, prog, st, 0, Normal(WorldOf(st)), st.pc, c, fuel)
    ensures fuel == 0 ==> forall end :: Does(m, prog, st, 0, Running, end, c, fuel)
  {}

  lemma {:induction false} StmtRuns(
      m: Machine, prog: seq<Op>, s: Stmt, c: Context, st: State, inDo: bool, fuel: nat) returns (k: nat)
    requires Set(m, prog, c, st, inDo) && Fits(m, s, c.fors, inDo) && CodeAt(prog, st.pc, Body(m.pool, s, st.pc, c))
    requires st.pc + Size(s) < |prog|
    ensures Does(m, prog, st, k, RunStmt(m.arith, s, WorldOf(st), fuel), st.pc + Size(s), c, fuel)
    decreases fuel, s, 1
  {
    hide RunN, CodeAt, Fits, Body, Size, Meets, RunSimple, RunArms, RunWhile, RunDo, RunFor, RunClauses;
    if IsSimple(s) {
      SimpleRuns(m, prog, s, c, st, inDo);
      k := Size(s);
      SimpleResult(m.arith, s, WorldOf(st), fuel);
    } else if s.OneLine? { k := OneLineRuns(m, prog, s, c, st, inDo, fuel); }
    else if s.WhileLoop? { k := WhileRuns(m, prog, s, c, st, inDo, fuel); }
    else if s.DoLoop? { k := DoRuns(m, prog, s, c, st, inDo, fuel); }
    else if s.ForLoop? { k := ForRuns(m, prog, s, c, st, inDo, fuel); }
    else if s.Choose? { k := ChooseRuns(m, prog, s, c, st, inDo, fuel); }
    else { k := SelectRuns(m, prog, s, c, st, inDo, fuel); }
  }

  lemma {:induction false} SimpleResult(a: Arith, s: Stmt, w: World, fuel: nat)
    requires IsSimple(s)
    ensures RunStmt(a, s, w, fuel) == RunSimple(a, s, w) && !RunSimple(a, s, w).Running?
  {}

  // ---------- one-line IF ----------

  lemma {:induction false} OneLineCode(m: Machine, prog: seq<Op>, s: Stmt, base: int, c: Context)
    requires s.OneLine? && CodeAt(prog, base, Body(m.pool, s, base, c))
    ensures var at := base + CodeLength(s.test) + 1;
            var out := at + Size(s.yes) + if s.no.None? then 0 else 1;
            CodeAt(prog, base, PlainOps(Ops(m.pool, s.test)) + [Unless(At(out))]) &&
                CodeAt(prog, at, Body(m.pool, s.yes, at, c)) &&
            (s.no.Some? ==> CodeAt(prog, at + Size(s.yes), [Jump(At(base + Size(s)))]) && CodeAt(prog, out, Body(m.pool, s.no.value, out, c)))
  {
    hide CodeAt, Ops, PlainOps, Size;
    var at := base + CodeLength(s.test) + 1;
    assert Size(s) == CodeLength(s.test) + 1 + Size(s.yes) + if s.no.None? then 0
        else 1 + Size(s.no.value) by { OneLineSize(s); }
    var out := at + Size(s.yes) + if s.no.None? then 0 else 1;
    var head, yes := PlainOps(Ops(m.pool, s.test)) + [Unless(At(out))], Body(m.pool, s.yes, at, c);
    if s.no.None? {
      SplitCode(prog, base, head, yes);
    } else {
      var no := Body(m.pool, s.no.value, out, c);
      SplitCode(prog, base, head + yes, [Jump(At(base + Size(s)))] + no);
      SplitCode(prog, base, head, yes);
      SplitCode(prog, at + Size(s.yes), [Jump(At(base + Size(s)))], no);
    }
  }

  lemma {:induction false} OneLineSize(s: Stmt)
    requires s.OneLine?
    ensures Size(s) == CodeLength(s.test) + 1 + Size(s.yes) + if s.no.None? then 0 else 1 + Size(s.no.value)
  {}

  lemma {:induction false} OneLineRuns(
      m: Machine, prog: seq<Op>, s: Stmt, c: Context, st: State, inDo: bool, fuel: nat) returns (k: nat)
    requires s.OneLine? && Set(m, prog, c, st, inDo) && Fits(m, s, c.fors, inDo) &&
        CodeAt(prog, st.pc, Body(m.pool, s, st.pc, c))
    requires st.pc + Size(s) < |prog|
    ensures Does(m, prog, st, k, RunStmt(m.arith, s, WorldOf(st), fuel), st.pc + Size(s), c, fuel)
    decreases fuel, s, 0
  {
    hide RunN, CodeAt, Does, Body, Size, Ops, PlainOps, ExprFits, Lawful, Valued;
    var base, w := st.pc, WorldOf(st);
    var at, end := base + CodeLength(s.test) + 1, base + Size(s);
    var out := at + Size(s.yes) + if s.no.None? then 0 else 1;
    OneLineSize(s);
    OneLineCode(m, prog, s, base, c);
    NonNegative(prog, base, PlainOps(Ops(m.pool, s.test)) + [Unless(At(out))]);
    TestRuns(m, prog, s.test, At(out), st);
    var v, n := Valued(m.arith, w, s.test), CodeLength(s.test) + 1;
    if v.None? {
      k := n;
      Fails(m, prog, st, n, WorldOf(st), end, c, fuel);
    } else if m.arith.isZero(v.value) {
      LandSelf(st, out);
      SetAgain(m, prog, c, st, inDo, w, out);
      if s.no.None? {
        k := n;
        Arrives(m, prog, st, n, w, end, c, fuel);
      } else {
        var j := StmtRuns(m, prog, s.no.value, c, Land(st, w, out), inDo, fuel);
        k := n + j;
        Continue(m, prog, st, n, w, out, j, RunStmt(m.arith, s.no.value, w, fuel), end, c, fuel);
      }
    } else {
      LandSelf(st, at);
      SetAgain(m, prog, c, st, inDo, w, at);
      var j := StmtRuns(m, prog, s.yes, c, Land(st, w, at), inDo, fuel);
      if s.no.Some? {
        j := ThenJump(m, prog, Land(st, w, at), j, RunStmt(m.arith, s.yes, w, fuel), at + Size(s.yes), end, c, fuel);
      }
      k := n + j;
      Continue(m, prog, st, n, w, at, j, RunStmt(m.arith, s.yes, w, fuel), end, c, fuel);
    }
  }

  // ---------- WHILE ----------

  lemma {:induction false} WhileCode(m: Machine, prog: seq<Op>, s: Stmt, base: int, c: Context)
    requires s.WhileLoop? && CodeAt(prog, base, Body(m.pool, s, base, c))
    ensures var at := base + CodeLength(s.test) + 1;
            CodeAt(prog, base, PlainOps(Ops(m.pool, s.test)) + [Unless(At(base + Size(s)))]) &&
            CodeAt(prog, at, BlockBody(m.pool, s.body, at, c)) &&
                CodeAt(prog, at + BlockSize(s.body), [Jump(At(base))]) &&
            Size(s) == CodeLength(s.test) + 1 + BlockSize(s.body) + 1
  {
    hide CodeAt, Ops, PlainOps, BlockBody;
    var at := base + CodeLength(s.test) + 1;
    var head, body := PlainOps(Ops(m.pool, s.test)) + [Unless(At(base + Size(s)))], BlockBody(m.pool, s.body, at, c);
    SplitCode(prog, base, head + body, [Jump(At(base))]);
    SplitCode(prog, base, head, body);
  }

  /** One pass through test and body, and the passes after it. */
  lemma {:induction false} WhileRounds(
      m: Machine, prog: seq<Op>, s: Stmt, c: Context, st: State, inDo: bool, fuel: nat) returns (k: nat)
    requires s.WhileLoop? && Set(m, prog, c, st, inDo) && ExprFits(m, s.test) && BlockFits(m, s.body, c.fors, inDo)
    requires CodeAt(prog, st.pc, Body(m.pool, s, st.pc, c)) && st.pc + Size(s) < |prog|
    ensures Does(m, prog, st, k, RunWhile(m.arith, s.test, s.body, WorldOf(st), fuel), st.pc + Size(s), c, fuel)
    decreases fuel, s.body, 1
  {
    hide RunN, CodeAt, Does, Body, BlockBody, Size, Ops, PlainOps, ExprFits, Lawful, Valued, RunBlock, BlockFits;
    var base, w := st.pc, WorldOf(st);
    var at, end := base + CodeLength(s.test) + 1, base + Size(s);
    if fuel == 0 { k := 0; AtOnce(m, prog, st, c, fuel); }
    else {
      WhileCode(m, prog, s, base, c);
      NonNegative(prog, base, PlainOps(Ops(m.pool, s.test)) + [Unless(At(end))]);
      TestRuns(m, prog, s.test, At(end), st);
      var v, n := Valued(m.arith, w, s.test), CodeLength(s.test) + 1;
      if v.None? { k := n; Fails(m, prog, st, n, WorldOf(st), end, c, fuel); }
      else if m.arith.isZero(v.value) {
        k := n;
        LandSelf(st, end);
        Arrives(m, prog, st, n, w, end, c, fuel);
      } else {
        LandSelf(st, at);
        SetAgain(m, prog, c, st, inDo, w, at);
        var j := BlockRuns(m, prog, s.body, c, Land(st, w, at), inDo, fuel);
        var r := RunBlock(m.arith, s.body, w, fuel);
        Continue(m, prog, st, n, w, at, j, r, at + BlockSize(s.body), c, fuel);
        if r.Normal? {
          var i := ThenJump(m, prog, st, n + j, r, at + BlockSize(s.body), base, c, fuel);
          k := AnotherWhile(m, prog, s, c, st, inDo, fuel, i, r.s);
        } else {
          k := n + j;
          OtherEnd(m, prog, st, k, r, at + BlockSize(s.body), end, c, fuel);
        }
      }
    }
  }

  lemma {:induction false} AnotherWhile(
      m: Machine, prog: seq<Op>, s: Stmt, c: Context, st: State, inDo: bool, fuel: nat, i: nat, w: World)
    returns (k: nat)
    requires s.WhileLoop? && Set(m, prog, c, st, inDo) && ExprFits(m, s.test) && BlockFits(m, s.body, c.fors, inDo)
    requires CodeAt(prog, st.pc, Body(m.pool, s, st.pc, c)) && st.pc + Size(s) < |prog| && fuel > 0
    requires Does(m, prog, st, i, Normal(w), st.pc, c, fuel) && i > 0
    ensures Does(m, prog, st, k, RunWhile(m.arith, s.test, s.body, w, fuel - 1), st.pc + Size(s), c, fuel)
    decreases fuel, s.body, 0
  {
    hide RunN, CodeAt, Does, Body, Size, ExprFits, RunWhile, BlockFits, Set;
    NormalRuns(m, prog, st, i, w, st.pc, c, fuel);
    SetAgain(m, prog, c, st, inDo, w, st.pc);
    var j := WhileRounds(m, prog, s, c, Land(st, w, st.pc), inDo, fuel - 1);
    k := i + j;
    ContinueLess(m, prog, st, i, w, st.pc, j, RunWhile(m.arith, s.test, s.body, w, fuel - 1), st.pc + Size(s), c, fuel);
  }

  lemma {:induction false} WhileRuns(
      m: Machine, prog: seq<Op>, s: Stmt, c: Context, st: State, inDo: bool, fuel: nat) returns (k: nat)
    requires s.WhileLoop? && Set(m, prog, c, st, inDo) && Fits(m, s, c.fors, inDo) &&
        CodeAt(prog, st.pc, Body(m.pool, s, st.pc, c))
    requires st.pc + Size(s) < |prog|
    ensures Does(m, prog, st, k, RunStmt(m.arith, s, WorldOf(st), fuel), st.pc + Size(s), c, fuel)
    decreases fuel, s, 0
  {
    hide RunN, CodeAt, Does, Body, Size, Set, RunWhile;
    k := WhileRounds(m, prog, s, c, st, inDo, fuel);
  }

  // ---------- DO ----------

  lemma {:induction false} DoCode(m: Machine, prog: seq<Op>, s: Stmt, base: int, c: Context)
    requires s.DoLoop? && CodeAt(prog, base, Body(m.pool, s, base, c))
    ensures var end, at := base + Size(s), base + TestSize(s.entry);
            var inner := c.(doExit := At(end), doFors := c.fors);
            CodeAt(prog, base, EntryCode(m.pool, s.entry, At(end))) &&
                CodeAt(prog, at, BlockBody(m.pool, s.body, at, inner)) &&
            CodeAt(prog, at + BlockSize(s.body), BackCode(m.pool, s.until, base)) && base >= 0 &&
            end == at + BlockSize(s.body) + TestSize(s.until) + if s.until.None? then 1 else 0
  {
    hide CodeAt, BlockBody, EntryCode, BackCode;
    var end, at := base + Size(s), base + TestSize(s.entry);
    var inner := c.(doExit := At(end), doFors := c.fors);
    var entry, body := EntryCode(m.pool, s.entry, At(end)), BlockBody(m.pool, s.body, at, inner);
    SplitCode(prog, base, entry + body, BackCode(m.pool, s.until, base));
    SplitCode(prog, base, entry, body);
    NonNegative(prog, base, entry);
  }

  /** Leaving a DO loop: EXIT DO arrives at its end, everything else goes on out. */
  lemma {:induction false} OutOfDo(
      m: Machine, prog: seq<Op>, st: State, k: nat, r: Result, mid: int, end: int, c: Context, fuel: nat)
    requires Does(m, prog, st, k, r, mid, c.(doExit := At(end), doFors := c.fors), fuel) && !r.Normal? &&
        |st.fors| == c.fors
    ensures Does(m, prog, st, k, if r.ToDo? then Normal(r.s) else r, end, c, fuel)
  {
    assert st.fors[..|st.fors|] == st.fors;
  }

  lemma {:induction false} SetDo(m: Machine, prog: seq<Op>, c: Context, st: State, inDo: bool, end: int)
    requires Set(m, prog, c, st, inDo) && 0 <= end < |prog|
    ensures Set(m, prog, c.(doExit := At(end), doFors := c.fors), st, true) && |st.fors| == c.fors && st.locals.None?
  {}

  lemma {:induction false} InsideDo(
      m: Machine, prog: seq<Op>, st: State, k: nat, w: World, mid: int, end: int, c: Context, fuel: nat)
    requires Does(m, prog, st, k, Normal(w), mid, c.(doExit := At(end), doFors := c.fors), fuel)
    ensures Does(m, prog, st, k, Normal(w), mid, c, fuel)
  {}

  lemma {:induction false} FailsAfter(
      m: Machine, prog: seq<Op>, st: State, k: nat, w: World, mid: int, n: nat, end: int, c: Context, fuel: nat)
    requires Does(m, prog, st, k, Normal(w), mid, c, fuel)
    requires SameOrOverflow(RunN(m, prog, Run(Land(st, w, mid)), n), Failed(LeftBy(w)))
    ensures Does(m, prog, st, k + n, Stuck(w), end, c, fuel)
  {
    hide RunN;
    ThenRun(m, prog, st, k, Land(st, w, mid), n);
  }

  lemma {:induction false} MovesAfter(
      m: Machine, prog: seq<Op>, st: State, k: nat, w: World, mid: int, n: nat, pc: int, c: Context, fuel: nat)
    requires Does(m, prog, st, k, Normal(w), mid, c, fuel)
    requires SameOrOverflow(RunN(m, prog, Run(Land(st, w, mid)), n), Run(Land(st, w, pc)))
    ensures Does(m, prog, st, k + n, Normal(w), pc, c, fuel)
  {
    hide RunN;
    ThenRun(m, prog, st, k, Land(st, w, mid), n);
  }

  /** The test at the top of a DO loop, if it has one: `n` dispatches to the body. */
  lemma {:induction false} EntryRuns(m: Machine, prog: seq<Op>, entry: Option<Expr>, end: int, st: State)
    requires (entry.Some? ==> ExprFits(m, entry.value)) && st.locals.None? && Target_(|prog|, At(end))
    requires CodeAt(prog, st.pc, EntryCode(m.pool, entry, At(end)))
    ensures var v, n := if entry.None? then Some(TRUTH) else Valued(m.arith, WorldOf(st), entry.value), TestSize(entry);
            SameOrOverflow(RunN(m, prog, Run(st), n),
                           if v.None? then Failed(LeftBy(WorldOf(st)))
                           else Run(st.(pc := if entry.Some? && m.arith.isZero(v.value) then end else st.pc + n)))
  {
    hide CodeAt, Valued, Ops, PlainOps;
    if entry.Some? { TestRuns(m, prog, entry.value, At(end), st); }
  }

  lemma {:induction false} DoRounds(
      m: Machine, prog: seq<Op>, s: Stmt, c: Context, st: State, inDo: bool, fuel: nat) returns (k: nat)
    requires s.DoLoop? && Set(m, prog, c, st, inDo) && Fits(m, s, c.fors, inDo)
    requires CodeAt(prog, st.pc, Body(m.pool, s, st.pc, c)) && st.pc + Size(s) < |prog|
    ensures Does(m, prog, st, k, RunDo(m.arith, s.entry, s.body, s.until, WorldOf(st), fuel), st.pc + Size(s), c, fuel)
    decreases fuel, s.body, 2
  {
    hide RunN, CodeAt, Does, Body, BlockBody, EntryCode, BackCode, Size, Valued, RunBlock, BlockFits, Set, ExprFits;
    var base, w := st.pc, WorldOf(st);
    var at, end := base + TestSize(s.entry), base + Size(s);
    if fuel == 0 { k := 0; AtOnce(m, prog, st, c, fuel); }
    else {
      DoCode(m, prog, s, base, c);
      SetDo(m, prog, c, st, inDo, end);
      EntryRuns(m, prog, s.entry, end, st);
      var v, n := if s.entry.None? then Some(TRUTH) else Valued(m.arith, w, s.entry.value), TestSize(s.entry);
      if v.None? { k := n; Fails(m, prog, st, n, WorldOf(st), end, c, fuel); }
      else if s.entry.Some? && m.arith.isZero(v.value) {
        k := n;
        LandSelf(st, end);
        Arrives(m, prog, st, n, w, end, c, fuel);
      } else {
        LandSelf(st, at);
        var inner := c.(doExit := At(end), doFors := c.fors);
        SetAgain(m, prog, inner, st, true, w, at);
        var j := BlockRuns(m, prog, s.body, inner, Land(st, w, at), true, fuel);
        var r := RunBlock(m.arith, s.body, w, fuel);
        Continue(m, prog, st, n, w, at, j, r, at + BlockSize(s.body), inner, fuel);
        if r.Normal? {
          InsideDo(m, prog, st, n + j, r.s, at + BlockSize(s.body), end, c, fuel);
          k := DoBack(m, prog, s, c, st, inDo, fuel, n + j, r.s);
        } else {
          k := n + j;
          OutOfDo(m, prog, st, k, r, at + BlockSize(s.body), end, c, fuel);
        }
      }
    }
  }

  /** From the end of the body: the UNTIL test or the plain jump, then out or round again. */
  lemma {:induction false} DoBack(
      m: Machine, prog: seq<Op>, s: Stmt, c: Context, st: State, inDo: bool, fuel: nat, i: nat, w: World)
    returns (k: nat)
    requires s.DoLoop? && Set(m, prog, c, st, inDo) && Fits(m, s, c.fors, inDo) && fuel > 0
    requires CodeAt(prog, st.pc, Body(m.pool, s, st.pc, c)) && st.pc + Size(s) < |prog|
    requires Does(m, prog, st, i, Normal(w), st.pc + TestSize(s.entry) + BlockSize(s.body), c, fuel)
    ensures var again := RunDo(m.arith, s.entry, s.body, s.until, w, fuel - 1);
            var u := if s.until.None? then Some(ZERO) else Valued(m.arith, w, s.until.value);
            Does(m, prog, st, k, if u.None? then Stuck(w) else if s.until.None? ||
                m.arith.isZero(u.value) then again else Normal(w),
                 st.pc + Size(s), c, fuel)
    decreases fuel, s.body, 1
  {
    hide RunN, CodeAt, Does, Body, BlockBody, EntryCode, BackCode, Size, Valued, BlockFits, ExprFits, RunDo, Lawful;
    var base, mid, end := st.pc, st.pc + TestSize(s.entry) + BlockSize(s.body), st.pc + Size(s);
    DoCode(m, prog, s, base, c);
    BackRuns(m, prog, s.until, base, Land(st, w, mid));
    var u := if s.until.None? then Some(ZERO) else Valued(m.arith, w, s.until.value);
    var n := TestSize(s.until) + if s.until.None? then 1 else 0;
    assert n > 0;
    if u.None? {
      k := i + n;
      FailsAfter(m, prog, st, i, w, mid, n, end, c, fuel);
    } else if s.until.Some? && !m.arith.isZero(u.value) {
      k := i + n;
      MovesAfter(m, prog, st, i, w, mid, n, end, c, fuel);
    } else {
      MovesAfter(m, prog, st, i, w, mid, n, base, c, fuel);
      k := AnotherDo(m, prog, s, c, st, inDo, fuel, i + n, w);
    }
  }

  lemma {:induction false} BackRuns(m: Machine, prog: seq<Op>, until: Option<Expr>, base: int, st: State)
    requires (until.Some? ==> ExprFits(m, until.value)) && st.locals.None? && Target_(|prog|, At(base))
    requires CodeAt(prog, st.pc, BackCode(m.pool, until, base))
    ensures var u := if until.None? then Some(ZERO) else Valued(m.arith, WorldOf(st), until.value);
            var n := TestSize(until) + if until.None? then 1 else 0;
            SameOrOverflow(RunN(m, prog, Run(st), n),
                           if u.None? then Failed(LeftBy(WorldOf(st)))
                           else Run(st.(pc := if until.Some? && !m.arith.isZero(u.value) then st.pc + n else base)))
  {
    hide CodeAt, Valued, Ops, PlainOps, RunN;
    if until.Some? { TestRuns(m, prog, until.value, At(base), st); } else { JumpRuns(m, prog, At(base), st); }
  }

  lemma {:induction false} AnotherDo(
      m: Machine, prog: seq<Op>, s: Stmt, c: Context, st: State, inDo: bool, fuel: nat, i: nat, w: World)
    returns (k: nat)
    requires s.DoLoop? && Set(m, prog, c, st, inDo) && Fits(m, s, c.fors, inDo) && fuel > 0
    requires CodeAt(prog, st.pc, Body(m.pool, s, st.pc, c)) && st.pc + Size(s) < |prog|
    requires Does(m, prog, st, i, Normal(w), st.pc, c, fuel) && i > 0
    ensures Does(m, prog, st, k, RunDo(m.arith, s.entry, s.body, s.until, w, fuel - 1), st.pc + Size(s), c, fuel)
    decreases fuel, s.body, 0
  {
    hide RunN, CodeAt, Does, Body, Size, ExprFits, RunDo, Fits, Set;
    NormalRuns(m, prog, st, i, w, st.pc, c, fuel);
    SetAgain(m, prog, c, st, inDo, w, st.pc);
    var j := DoRounds(m, prog, s, c, Land(st, w, st.pc), inDo, fuel - 1);
    k := i + j;
    ContinueLess(m, prog, st, i, w, st.pc, j, RunDo(m.arith, s.entry, s.body, s.until, w, fuel - 1), st.pc + Size(s),
        c, fuel);
  }

  lemma {:induction false} DoRuns(
      m: Machine, prog: seq<Op>, s: Stmt, c: Context, st: State, inDo: bool, fuel: nat) returns (k: nat)
    requires s.DoLoop? && Set(m, prog, c, st, inDo) && Fits(m, s, c.fors, inDo) &&
        CodeAt(prog, st.pc, Body(m.pool, s, st.pc, c))
    requires st.pc + Size(s) < |prog|
    ensures Does(m, prog, st, k, RunStmt(m.arith, s, WorldOf(st), fuel), st.pc + Size(s), c, fuel)
    decreases fuel, s, 0
  {
    hide RunN, CodeAt, Does, Body, Size, Set, RunDo, Fits;
    k := DoRounds(m, prog, s, c, st, inDo, fuel);
  }

  // ---------- FOR ----------

  lemma {:induction false} ForCode(m: Machine, prog: seq<Op>, s: Stmt, base: int, c: Context)
    requires s.ForLoop? && CodeAt(prog, base, Body(m.pool, s, base, c))
    ensures var first, limit, step := Ops(m.pool, s.first), Ops(m.pool, s.limit), Ops(m.pool, s.step);
            var at, end := base + |first| + |limit| + |step| + 4, base + Size(s);
            var inner := c.(forExit := At(end), fors := c.fors + 1);
            CodeAt(prog, base, PlainOps(ForHeader(base, s.slot, first, limit, step))) &&
                CodeAt(prog, at - 1, [Jump(At(end))]) &&
            CodeAt(prog, at, BlockBody(m.pool, s.body, at, inner)) && base >= 0 && end == at + BlockSize(s.body) + 1 &&
            CodeAt(prog, at + BlockSize(s.body), [Plain(Op(ForIncr, 0, 0, if s.named then s.slot else -1, 0))])
  {
    hide CodeAt, BlockBody, Ops, PlainOps;
    var first, limit, step := Ops(m.pool, s.first), Ops(m.pool, s.limit), Ops(m.pool, s.step);
    var at, end := base + |first| + |limit| + |step| + 4, base + Size(s);
    var header := PlainOps(ForHeader(base, s.slot, first, limit, step));
    var inner := c.(forExit := At(end), fors := c.fors + 1);
    var next := [Plain(Op(ForIncr, 0, 0, if s.named then s.slot else -1, 0))];
    SplitCode(prog, base, header + [Jump(At(end))] + BlockBody(m.pool, s.body, at, inner), next);
    SplitCode(prog, base, header + [Jump(At(end))], BlockBody(m.pool, s.body, at, inner));
    SplitCode(prog, base, header, [Jump(At(end))]);
    NonNegative(prog, base, header);
  }

  lemma {:induction false} HeaderCode(m: Machine, prog: seq<Op>, s: Stmt, base: int)
    requires s.ForLoop?
    requires CodeAt(prog, base, PlainOps(ForHeader(base, s.slot, Ops(m.pool, s.first), Ops(m.pool, s.limit),
        Ops(m.pool, s.step))))
    ensures var first, limit, step := Ops(m.pool, s.first), Ops(m.pool, s.limit), Ops(m.pool, s.step);
            var i, j := base + |first| + 1, base + |first| + 1 + |limit| + |step|;
            CodeAt(prog, base, PlainOps(first + [Op(StoreNum, 0, 0, s.slot, 0)])) &&
                CodeAt(prog, i, PlainOps(limit + step)) &&
            CodeAt(prog, j, PlainOps([Op(ForInit, 0, 0, s.slot, 0)])) &&
                CodeAt(prog, j + 1, PlainOps([Op(ForCheck, 0, 0, s.slot, j + 3)]))
  {
    hide CodeAt, Ops, PlainOps;
    var first, limit, step := Ops(m.pool, s.first), Ops(m.pool, s.limit), Ops(m.pool, s.step);
    var j := base + |first| + 1 + |limit| + |step|;
    var store, init, check := [Op(StoreNum, 0, 0, s.slot, 0)], [Op(ForInit, 0, 0, s.slot, 0)], [Op(ForCheck, 0, 0,
        s.slot, j + 3)];
    assert ForHeader(base, s.slot, first, limit, step) == first + store + (limit + step) + init + check;
    PlainSplit(prog, base, first + store + (limit + step) + init, check);
    PlainSplit(prog, base, first + store + (limit + step), init);
    PlainSplit(prog, base, first + store, limit + step);
  }

  /** The loop's frame, once its body has been entered. */
  function Framed(st: State, w: World, pc: int, frame: ForFrame): State { Land(st, w, pc).(fors := st.fors + [frame]) }

  lemma {:induction false} InitStep(m: Machine, prog: seq<Op>, slot: int, l: Num, d: Num, st: State)
    requires |st.fors| < FOR_LIMIT && CodeAt(prog, st.pc, [Plain(Op(ForInit, 0, 0, slot, 0))])
    ensures RunN(m, prog, Run(st.(stack := st.stack + [Number(l), Number(d)])), 1) ==
              if m.arith.isZero(d) then Failed(Leaves(st))
              else Run(st.(pc := st.pc + 1, fors := st.fors + [ForFrame(slot, l, d, 0)]))
  {
    hide StepInstr, Decode, RunN;
    InitDispatch(m, prog, st.(stack := st.stack + [Number(l), Number(d)]), slot);
    var from := st.(stack := st.stack + [Number(l), Number(d)]);
    StepAt(m, prog, Plain(Op(ForInit, 0, 0, slot, 0)), from);
    assert Top(from, 0) == Number(d) && Top(from, 1) == Number(l) && Pop(from, 2).stack == st.stack;
  }

  /** FOR_INIT and the first FOR_CHECK, on a limit and a step just pushed. */
  lemma {:induction false} InitRuns(m: Machine, prog: seq<Op>, slot: int, l: Num, d: Num, st: State)
    requires st.locals.None? && st.forBase == 0 && |st.fors| < FOR_LIMIT && slot >= 0
    requires CodeAt(prog, st.pc, PlainOps([Op(ForInit, 0, 0, slot, 0)])) &&
        CodeAt(prog, st.pc + 1, PlainOps([Op(ForCheck, 0, 0, slot, st.pc + 3)]))
    ensures var from := st.(stack := st.stack + [Number(l), Number(d)]);
            RunN(m, prog, Run(from), 2) ==
              if m.arith.isZero(d) then Failed(LeftBy(WorldOf(st)))
              else if GoesOn(m.arith, Get(st.globals, slot), l, d)
                  then Run(Framed(st, WorldOf(st), st.pc + 3, ForFrame(slot, l, d, st.pc + 3)))
              else Run(st.(pc := st.pc + 2))
  {
    hide CodeAt, PlainOps, RunN, GoesOn;
    var from := st.(stack := st.stack + [Number(l), Number(d)]);
    PlainOne(Op(ForInit, 0, 0, slot, 0));
    PlainOne(Op(ForCheck, 0, 0, slot, st.pc + 3));
    InitStep(m, prog, slot, l, d, st);
    RunAdds(m, prog, Run(from), 1, 1);
    if m.arith.isZero(d) { StoppedStays(m, prog, Failed(LeftBy(WorldOf(st))), 1); }
    else { CheckRuns(m, prog, slot, l, d, st, st.(pc := st.pc + 1, fors := st.fors + [ForFrame(slot, l, d, 0)])); }
  }

  lemma {:induction false} PlainOne(op: Op)
    ensures PlainOps([op]) == [Plain(op)]
  {}

  lemma {:induction false} CheckRuns(m: Machine, prog: seq<Op>, slot: int, l: Num, d: Num, st: State, mid: State)
    requires mid == st.(pc := st.pc + 1, fors := st.fors + [ForFrame(slot, l, d, 0)]) && slot >= 0
    requires CodeAt(prog, mid.pc, [Plain(Op(ForCheck, 0, 0, slot, st.pc + 3))])
    ensures RunN(m, prog, Run(mid), 1) ==
              if GoesOn(m.arith, Get(st.globals, slot), l, d)
                  then Run(Framed(st, WorldOf(st), st.pc + 3, ForFrame(slot, l, d, st.pc + 3)))
              else Run(st.(pc := st.pc + 2))
  {
    hide StepInstr, Decode, RunN;
    CheckDispatch(m, prog, mid, slot, st.pc + 3);
    StepAt(m, prog, Plain(Op(ForCheck, 0, 0, slot, st.pc + 3)), mid);
    var n := |st.fors|;
    assert mid.fors[n := ForFrame(slot, l, d, st.pc + 3)] == st.fors + [ForFrame(slot, l, d, st.pc + 3)];
    assert mid.fors[..n] == st.fors;
  }

  /** NEXT: the step is added, and the loop goes on or its frame is dropped. */
  lemma {:induction false} NextRuns(m: Machine, prog: seq<Op>, s: Stmt, st: State, w: World, pc: int, frame: ForFrame)
    requires s.ForLoop? && frame.slot == s.slot >= 0 && st.forBase == 0
    requires CodeAt(prog, pc, [Plain(Op(ForIncr, 0, 0, if s.named then s.slot else -1, 0))])
    ensures var current := m.arith.apply(Add, Get(w.vars, s.slot), frame.step);
            RunN(m, prog, Run(Framed(st, w, pc, frame)), 1) ==
              if GoesOn(m.arith, current, frame.end, frame.step)
                  then Run(Framed(st, Assign(w, s.slot, current), frame.body, frame))
              else Run(Land(st, Assign(w, s.slot, current), pc + 1))
  {
    hide StepInstr, Decode, RunN;
    IncrDispatch(m, prog, Framed(st, w, pc, frame), if s.named then s.slot else -1);
    var from := Framed(st, w, pc, frame);
    StepAt(m, prog, Plain(Op(ForIncr, 0, 0, if s.named then s.slot else -1, 0)), from);
    assert from.fors[..|st.fors|] == st.fors;
  }

  /** `from` stands for the code of `s` under way at the level of `st`. */
  ghost predicate DoesFrom(
      m: Machine, prog: seq<Op>, from: State, st: State, k: nat, r: Result, end: int, c: Context, fuel: nat) {
    Meets(RunN(m, prog, Run(from), k), r, st, end, c) && (r.Running? ==> k >= fuel)
  }

  /** Leaving the body of a FOR loop otherwise than by NEXT: EXIT FOR arrives at the end of the loop. */
  lemma {:induction false} OutOfFor(
      m: Machine, prog: seq<Op>, st: State, w: World, pc: int, frame: ForFrame, k: nat, r: Result, mid: int, end: int,
      c: Context, fuel: nat)
    requires Does(m, prog, Framed(st, w, pc, frame), k, r, mid, c.(forExit := At(end), fors :=
        c.fors + 1), fuel) && !r.Normal?
    requires r.ToDo? ==> c.doFors <= |st.fors|
    ensures DoesFrom(m, prog, Framed(st, w, pc, frame), st, k, if r.ToFor? then Normal(r.s) else r, end, c, fuel)
  {
    hide RunN;
    var from := Framed(st, w, pc, frame);
    assert from.fors[..|from.fors| - 1] == st.fors;
    if r.ToDo? && 0 <= c.doFors <= |st.fors| { assert from.fors[..c.doFors] == st.fors[..c.doFors]; }
  }

  lemma {:induction false} SetFor(
      m: Machine, prog: seq<Op>, c: Context, st: State, inDo: bool, w: World, pc: int, frame: ForFrame, end: int)
    requires Set(m, prog, c, st, inDo) && 0 <= end < |prog|
    ensures Set(m, prog, c.(forExit := At(end), fors := c.fors + 1), Framed(st, w, pc, frame), inDo)
    ensures WorldOf(Framed(st, w, pc, frame)) == w && st.forBase == 0 && st.locals.None? && |st.fors| == c.fors
    ensures inDo ==> c.doFors <= c.fors
  {}

  /** EXIT DO only leaves a body that stands in a DO loop. */
  lemma {:induction false} NoStrayDo(m: Machine, s: Stmt, fors: nat, w: World, fuel: nat)
    requires Fits(m, s, fors, false)
    ensures !RunStmt(m.arith, s, w, fuel).ToDo?
    decreases fuel, s, 0
  {
    hide ExprFits, Valued;
    match s
    case OneLine(test, yes, no) =>
      NoStrayDo(m, yes, fors, w, fuel);
      if no.Some? { NoStrayDo(m, no.value, fors, w, fuel); }
    case Choose(arms) => NoStrayArms(m, arms, fors, w, fuel);
    case WhileLoop(test, body) => NoStrayWhile(m, test, body, fors, w, fuel);
    case DoLoop(entry, body, until) => NoStrayRounds(m, entry, body, until, w, fuel);
    case ForLoop(slot, first, limit, step, body, _) =>
      var v := Valued(m.arith, w, first);
      if v.Some? {
        var x := Assign(w, slot, v.value);
        var l, d := Valued(m.arith, x, limit), Valued(m.arith, x, step);
        if l.Some? && d.Some? { NoStrayFor(m, slot, l.value, d.value, body, fors, x, fuel); }
      }
    case SelectCase(e, clauses) =>
      var v := Valued(m.arith, w, e);
      if v.Some? { NoStrayClauses(m, v.value, clauses, fors, w, fuel); }
    case _ =>
  }

  lemma {:induction false} NoStrayBlock(m: Machine, b: Block, fors: nat, w: World, fuel: nat)
    requires BlockFits(m, b, fors, false)
    ensures !RunBlock(m.arith, b, w, fuel).ToDo?
    decreases fuel, b, 0
  {
    hide Fits, RunStmt;
    if b.Cons? {
      NoStrayDo(m, b.head, fors, w, fuel);
      var r := RunStmt(m.arith, b.head, w, fuel);
      if r.Normal? { NoStrayBlock(m, b.tail, fors, r.s, fuel); }
    }
  }

  lemma {:induction false} NoStrayArms(m: Machine, a: Arms, fors: nat, w: World, fuel: nat)
    requires ArmsFit(m, a, fors, false)
    ensures !RunArms(m.arith, a, w, fuel).ToDo?
    decreases fuel, a, 0
  {
    hide ExprFits, Valued, RunBlock, BlockFits;
    match a
    case Arm(test, body, rest) => NoStrayBlock(m, body, fors, w, fuel); NoStrayArms(m, rest, fors, w, fuel);
    case Otherwise(other) => if other.Some? { NoStrayBlock(m, other.value, fors, w, fuel); }
  }

  lemma {:induction false} NoStrayClauses(m: Machine, v: Num, cs: Clauses, fors: nat, w: World, fuel: nat)
    requires ClausesFit(m, cs, fors, false)
    ensures !RunClauses(m.arith, v, cs, w, fuel).ToDo?
    decreases fuel, cs, 0
  {
    hide ItemFits, Matches, RunBlock, BlockFits;
    match cs
    case When(items, body, rest) => NoStrayBlock(m, body, fors, w, fuel); NoStrayClauses(m, v, rest, fors, w, fuel);
    case Rest(other) => if other.Some? { NoStrayBlock(m, other.value, fors, w, fuel); }
  }

  lemma {:induction false} NoStrayWhile(m: Machine, test: Expr, body: Block, fors: nat, w: World, fuel: nat)
    requires BlockFits(m, body, fors, false)
    ensures !RunWhile(m.arith, test, body, w, fuel).ToDo?
    decreases fuel, body, 1
  {
    hide Valued, RunBlock, BlockFits;
    if fuel > 0 {
      NoStrayBlock(m, body, fors, w, fuel);
      var r := RunBlock(m.arith, body, w, fuel);
      if r.Normal? { NoStrayWhile(m, test, body, fors, r.s, fuel - 1); }
    }
  }

  /** A DO loop catches its own EXIT DO. */
  lemma {:induction false} NoStrayRounds(
      m: Machine, entry: Option<Expr>, body: Block, until: Option<Expr>, w: World, fuel: nat)
    ensures !RunDo(m.arith, entry, body, until, w, fuel).ToDo?
    decreases fuel
  {
    hide Valued, RunBlock;
    if fuel > 0 {
      var r := RunBlock(m.arith, body, w, fuel);
      if r.Normal? { NoStrayRounds(m, entry, body, until, r.s, fuel - 1); }
    }
  }

  lemma {:induction false} NoStrayFor(
      m: Machine, slot: int, l: Num, d: Num, body: Block, fors: nat, w: World, fuel: nat)
    requires BlockFits(m, body, fors + 1, false)
    ensures !RunRounds(m.arith, slot, l, d, body, w, fuel).ToDo?
    decreases fuel, body, 1
  {
    hide RunBlock, BlockFits;
    if fuel > 0 {
      NoStrayBlock(m, body, fors + 1, w, fuel);
      var r := RunBlock(m.arith, body, w, fuel);
      if r.Normal? {
        NoStrayFor(m, slot, l, d, body, fors, Assign(r.s, slot, m.arith.apply(Add, Get(r.s.vars, slot), d)), fuel - 1);
      }
    }
  }

  /** The rounds of a FOR loop, from the start of its body. */
  lemma {:induction false} ForRounds(
      m: Machine, prog: seq<Op>, s: Stmt, base: int, c: Context, st: State, w: World, frame: ForFrame, inDo: bool,
      fuel: nat) returns (k: nat)
    requires s.ForLoop? && Set(m, prog, c, st, inDo) && Fits(m, s, c.fors, inDo) &&
        CodeAt(prog, base, Body(m.pool, s, base, c))
    requires base + Size(s) < |prog| && frame.slot == s.slot && frame.body == base + Size(s) - BlockSize(s.body) - 1
    ensures DoesFrom(m, prog, Framed(st, w, frame.body, frame), st, k,
                     RunRounds(m.arith, s.slot, frame.end, frame.step, s.body, w, fuel), base + Size(s), c, fuel)
    decreases fuel, s.body, 1
  {
    hide RunN, CodeAt, Does, Body, BlockBody, Size, RunBlock, BlockFits, Set, ExprFits, Ops, Framed, Meets, ForHeader;
    var end, at := base + Size(s), frame.body;
    var from := Framed(st, w, at, frame);
    if fuel == 0 { k := 0; NotYet(m, prog, from, st, end, c); }
    else {
      ForCode(m, prog, s, base, c);
      SetFor(m, prog, c, st, inDo, w, at, frame, end);
      var inner := c.(forExit := At(end), fors := c.fors + 1);
      FramedPc(st, w, at, frame);
      var j := BlockRuns(m, prog, s.body, inner, from, inDo, fuel);
      var r := RunBlock(m.arith, s.body, w, fuel);
      if r.Normal? {
        k := NextRound(m, prog, s, base, c, st, w, r.s, frame, inDo, fuel, j);
      } else {
        k := j;
        if !inDo { NoStrayBlock(m, s.body, c.fors + 1, w, fuel); }
        OutOfFor(m, prog, st, w, at, frame, j, r, at + BlockSize(s.body), end, c, fuel);
      }
    }
  }

  lemma {:induction false} NotYet(m: Machine, prog: seq<Op>, from: State, st: State, end: int, c: Context)
    ensures DoesFrom(m, prog, from, st, 0, Running, end, c, 0)
  {}

  lemma {:induction false} FramedPc(st: State, w: World, pc: int, frame: ForFrame)
    ensures Framed(st, w, pc, frame).pc == pc && WorldOf(Framed(st, w, pc, frame)) == w
    ensures forall x, p :: Land(Framed(st, w, pc, frame), x, p) == Framed(st, x, p, frame)
  {}

  lemma {:induction false} NextRound(
      m: Machine, prog: seq<Op>, s: Stmt, base: int, c: Context, st: State, w: World, x: World, frame: ForFrame,
      inDo: bool, fuel: nat, j: nat) returns (k: nat)
    requires s.ForLoop? && Set(m, prog, c, st, inDo) && Fits(m, s, c.fors, inDo) &&
        CodeAt(prog, base, Body(m.pool, s, base, c))
    requires base + Size(s) < |prog| && frame.slot == s.slot &&
        frame.body == base + Size(s) - BlockSize(s.body) - 1 && fuel > 0
    requires Does(m, prog, Framed(st, w, frame.body, frame), j, Normal(x), frame.body + BlockSize(s.body),
                  c.(forExit := At(base + Size(s)), fors := c.fors + 1), fuel)
    ensures var current := m.arith.apply(Add, Get(x.vars, s.slot), frame.step);
            DoesFrom(m, prog, Framed(st, w, frame.body, frame), st, k,
                     if GoesOn(m.arith, current, frame.end, frame.step)
                     then RunRounds(m.arith, s.slot, frame.end, frame.step, s.body, Assign(x, s.slot, current),
                         fuel - 1)
                     else Normal(Assign(x, s.slot, current)), base + Size(s), c, fuel)
    decreases fuel, s.body, 0
  {
    hide RunN, CodeAt, Does, Body, BlockBody, Size, BlockFits, ExprFits, Ops, Framed, RunRounds, Meets, GoesOn,
        ForHeader, Lawful;
    var end, at := base + Size(s), frame.body;
    var mid := at + BlockSize(s.body);
    ForCode(m, prog, s, base, c);
    FramedPc(st, w, at, frame);
    NormalRuns(m, prog, Framed(st, w, at, frame), j, x, mid, c.(forExit := At(end), fors := c.fors + 1), fuel);
    NextRuns(m, prog, s, st, x, mid, frame);
    ThenRun(m, prog, Framed(st, w, at, frame), j, Framed(st, x, mid, frame), 1);
    var current := m.arith.apply(Add, Get(x.vars, s.slot), frame.step);
    if GoesOn(m.arith, current, frame.end, frame.step) {
      var i := ForRounds(m, prog, s, base, c, st, Assign(x, s.slot, current), frame, inDo, fuel - 1);
      k := j + 1 + i;
      ThenRun(m, prog, Framed(st, w, at, frame), j + 1, Framed(st, Assign(x, s.slot, current), at, frame), i);
      StillMeets(m, prog, Framed(st, w, at, frame), Framed(st, Assign(x, s.slot, current), at, frame), st, j + 1, i,
                 RunRounds(m.arith, s.slot, frame.end, frame.step, s.body, Assign(x, s.slot, current), fuel - 1),
                     end, c, fuel);
    } else {
      k := j + 1;
      ArrivesFrom(m, prog, Framed(st, w, at, frame), st, k, Assign(x, s.slot, current), end, c, fuel);
    }
  }

  lemma {:induction false} StillMeets(
      m: Machine, prog: seq<Op>, from: State, mid: State, st: State, j: nat, i: nat, r: Result, end: int, c: Context,
      fuel: nat)
    requires SameOrOverflow(RunN(m, prog, Run(from), j + i), RunN(m, prog, Run(mid), i)) && j > 0 && fuel > 0
    requires DoesFrom(m, prog, mid, st, i, r, end, c, fuel - 1)
    ensures DoesFrom(m, prog, from, st, j + i, r, end, c, fuel)
  {
    hide RunN;
  }

  lemma {:induction false} ArrivesFrom(
      m: Machine, prog: seq<Op>, from: State, st: State, k: nat, w: World, end: int, c: Context, fuel: nat)
    requires SameOrOverflow(RunN(m, prog, Run(from), k), Run(Land(st, w, end)))
    ensures DoesFrom(m, prog, from, st, k, Normal(w), end, c, fuel)
  {}

  /** What the loop's header comes to: stuck, the body entered, or the loop passed over. */
  datatype Header = Bad(x: World) | Enter(x: World, l: Num, d: Num) | Skip(x: World)

  function HeaderOf(a: Arith, s: Stmt, w: World): Header
    requires s.ForLoop?
  {
    var v := Valued(a, w, s.first);
    if v.None? then Bad(w)
    else
      var x := Assign(w, s.slot, v.value);
      var l, d := Valued(a, x, s.limit), Valued(a, x, s.step);
      if l.None? || d.None? || a.isZero(d.value) then Bad(x)
      else if GoesOn(a, v.value, l.value, d.value) then Enter(x, l.value, d.value)
      else Skip(x)
  }

  function ResultOf(a: Arith, h: Header, slot: int, body: Block, fuel: nat): Result {
    match h
    case Bad(x) => Stuck(x)
    case Enter(x, l, d) => RunRounds(a, slot, l, d, body, x, fuel)
    case Skip(x) => Normal(x)
  }

  lemma {:induction false} HeaderMeans(a: Arith, s: Stmt, w: World, fuel: nat)
    requires s.ForLoop?
    ensures RunStmt(a, s, w, fuel) == ResultOf(a, HeaderOf(a, s, w), s.slot, s.body, fuel)
  {
    hide Valued, GoesOn, RunRounds;
  }

  /** Where the machine is after the header; `at` is the slot the body starts at. */
  function AfterHeader(h: Header, slot: int, st: State, at: int): Outcome {
    match h
    case Bad(x) => Failed(LeftBy(x))
    case Enter(x, l, d) => Run(Framed(st, x, at, ForFrame(slot, l, d, at)))
    case Skip(x) => Run(Land(st, x, at - 1))
  }

  function HeaderLength(s: Stmt): nat
    requires s.ForLoop?
  {
    CodeLength(s.first) + CodeLength(s.limit) + CodeLength(s.step) + 3
  }

  lemma {:induction false} HeaderRuns(m: Machine, prog: seq<Op>, s: Stmt, st: State)
    requires s.ForLoop? && st.locals.None? && st.forBase == 0 && |st.fors| < FOR_LIMIT && 0 <= s.slot < m.symbols
    requires ExprFits(m, s.first) && ExprFits(m, s.limit) && ExprFits(m, s.step)
    requires CodeAt(prog, st.pc, PlainOps(ForHeader(st.pc, s.slot, Ops(m.pool, s.first), Ops(m.pool, s.limit),
        Ops(m.pool, s.step))))
    ensures var at := st.pc + HeaderLength(s) + 1;
            SameOrOverflow(RunN(m, prog, Run(st), HeaderLength(s)), AfterHeader(HeaderOf(m.arith, s, WorldOf(st)),
                s.slot, st, at))
  {
    hide CodeAt, PlainOps, RunN, GoesOn, Ops, Valued, ExprFits, ForHeader;
    HeaderCode(m, prog, s, st.pc);
    assert PlainOps(SimpleOps(m.pool, Let(s.slot, s.first))) == PlainOps(Ops(m.pool, s.first) + [Op(StoreNum, 0, 0,
        s.slot, 0)]);
    LetRuns(m, prog, s.slot, s.first, st);
    var v, n := Valued(m.arith, WorldOf(st), s.first), CodeLength(s.first) + 1;
    if v.None? { ThenFail(m, prog, st, n, HeaderLength(s), LeftBy(WorldOf(st))); }
    else {
      var x := Assign(WorldOf(st), s.slot, v.value);
      LimitsRun(m, prog, s, st, Land(st, x, st.pc + n), n, x);
    }
  }

  lemma {:induction false} LimitsRun(m: Machine, prog: seq<Op>, s: Stmt, st: State, mid: State, n: nat, x: World)
    requires s.ForLoop? && st.locals.None? && st.forBase == 0 && |st.fors| < FOR_LIMIT && 0 <= s.slot < m.symbols
    requires ExprFits(m, s.limit) && ExprFits(m, s.step) && n == CodeLength(s.first) + 1
    requires mid == Land(st, x, st.pc + n) && x.out == st.out && SameOrOverflow(RunN(m, prog, Run(st), n), Run(mid))
    requires var j := mid.pc + CodeLength(s.limit) + CodeLength(s.step);
             CodeAt(prog, mid.pc, PlainOps(Ops(m.pool, s.limit) + Ops(m.pool, s.step))) &&
             CodeAt(prog, j, PlainOps([Op(ForInit, 0, 0, s.slot, 0)])) &&
                 CodeAt(prog, j + 1, PlainOps([Op(ForCheck, 0, 0, s.slot, j + 3)]))
    ensures var at := st.pc + HeaderLength(s) + 1;
            var l, d := Valued(m.arith, x, s.limit), Valued(m.arith, x, s.step);
            SameOrOverflow(RunN(m, prog, Run(st), HeaderLength(s)),
              if l.None? || d.None? || m.arith.isZero(d.value) then Failed(LeftBy(x))
              else if GoesOn(m.arith, Get(x.vars, s.slot), l.value, d.value)
                  then Run(Framed(st, x, at, ForFrame(s.slot, l.value, d.value, at)))
              else Run(Land(st, x, at - 1)))
  {
    hide CodeAt, PlainOps, RunN, GoesOn, Ops, Valued, ExprFits;
    var i := CodeLength(s.limit) + CodeLength(s.step);
    PairRuns(m, prog, s.limit, s.step, mid);
    var l, d := Valued(m.arith, x, s.limit), Valued(m.arith, x, s.step);
    ThenRun(m, prog, st, n, mid, i);
    if l.None? || d.None? { ThenFail(m, prog, st, n + i, HeaderLength(s), LeftBy(x)); }
    else {
      var pushed := mid.(pc := mid.pc + i, stack := mid.stack + [Number(l.value), Number(d.value)]);
      InitRuns(m, prog, s.slot, l.value, d.value, mid.(pc := mid.pc + i));
      ThenRun(m, prog, st, n + i, pushed, 2);
    }
  }

  lemma {:induction false} ForRuns(
      m: Machine, prog: seq<Op>, s: Stmt, c: Context, st: State, inDo: bool, fuel: nat) returns (k: nat)
    requires s.ForLoop? && Set(m, prog, c, st, inDo) && Fits(m, s, c.fors, inDo) &&
        CodeAt(prog, st.pc, Body(m.pool, s, st.pc, c))
    requires st.pc + Size(s) < |prog|
    ensures Does(m, prog, st, k, RunStmt(m.arith, s, WorldOf(st), fuel), st.pc + Size(s), c, fuel)
    decreases fuel, s, 0
  {
    hide RunN, CodeAt, Does, Body, BlockBody, Size, BlockFits, ExprFits, Ops, PlainOps, RunRounds, RunStmt, HeaderOf,
        ForHeader, Framed, Lawful;
    var base, end, n := st.pc, st.pc + Size(s), HeaderLength(s);
    ForCode(m, prog, s, base, c);
    HeaderRuns(m, prog, s, st);
    HeaderMeans(m.arith, s, WorldOf(st), fuel);
    var at := base + n + 1;
    match HeaderOf(m.arith, s, WorldOf(st))
    case Bad(x) =>
      k := n;
      Fails(m, prog, st, n, x, end, c, fuel);
    case Skip(x) =>
      Arrives(m, prog, st, n, x, at - 1, c, fuel);
      k := ThenJump(m, prog, st, n, Normal(x), at - 1, end, c, fuel);
    case Enter(x, l, d) =>
      var frame := ForFrame(s.slot, l, d, at);
      var i := ForRounds(m, prog, s, base, c, st, x, frame, inDo, fuel);
      ThenRun(m, prog, st, n, Framed(st, x, at, frame), i);
      k := n + i;
      FromStart(m, prog, st, Framed(st, x, at, frame), n, i, RunRounds(m.arith, s.slot, l, d, s.body, x, fuel), end,
          c, fuel);
  }

  lemma {:induction false} FromStart(
      m: Machine, prog: seq<Op>, st: State, mid: State, n: nat, i: nat, r: Result, end: int, c: Context, fuel: nat)
    requires SameOrOverflow(RunN(m, prog, Run(st), n + i), RunN(m, prog, Run(mid), i))
    requires DoesFrom(m, prog, mid, st, i, r, end, c, fuel)
    ensures Does(m, prog, st, n + i, r, end, c, fuel)
  {
    hide RunN;
  }

  // ---------- IF ----------

  lemma {:induction false} ArmsCode(m: Machine, prog: seq<Op>, a: Arms, base: int, end: int, c: Context)
    requires a.Arm? && CodeAt(prog, base, ArmsBody(m.pool, a, base, end, c))
    ensures var at := base + CodeLength(a.test) + 1;
            var next := at + BlockSize(a.body) + if Final(a.rest) then 0 else 1;
            CodeAt(prog, base, PlainOps(Ops(m.pool, a.test)) + [Unless(At(next))]) &&
                CodeAt(prog, at, BlockBody(m.pool, a.body, at, c)) &&
            base >= 0 && (!Final(a.rest) ==> CodeAt(prog, next - 1, [Jump(At(end))]) && CodeAt(prog, next, ArmsBody(m.pool, a.rest, next, end, c)))
  {
    hide CodeAt, BlockBody, Ops, PlainOps;
    var at := base + CodeLength(a.test) + 1;
    var next := at + BlockSize(a.body) + if Final(a.rest) then 0 else 1;
    var head, body := PlainOps(Ops(m.pool, a.test)) + [Unless(At(next))], BlockBody(m.pool, a.body, at, c);
    NonNegative(prog, base, ArmsBody(m.pool, a, base, end, c));
    if Final(a.rest) {
      assert ArmsBody(m.pool, a, base, end, c) == head + body + [];
      SplitCode(prog, base, head + body, []);
    } else {
      SplitCode(prog, base, head + body, [Jump(At(end))] + ArmsBody(m.pool, a.rest, next, end, c));
      SplitCode(prog, next - 1, [Jump(At(end))], ArmsBody(m.pool, a.rest, next, end, c));
    }
    SplitCode(prog, base, head, body);
  }

  lemma {:induction false} ArmsRun(
      m: Machine, prog: seq<Op>, a: Arms, c: Context, st: State, inDo: bool, end: int, fuel: nat) returns (k: nat)
    requires Set(m, prog, c, st, inDo) && ArmsFit(m, a, c.fors, inDo) &&
        CodeAt(prog, st.pc, ArmsBody(m.pool, a, st.pc, end, c))
    requires end == st.pc + ArmsSize(a) < |prog|
    ensures Does(m, prog, st, k, RunArms(m.arith, a, WorldOf(st), fuel), end, c, fuel)
    decreases fuel, a, 1
  {
    hide RunN, CodeAt, Does, ArmsBody, BlockBody, Valued, RunBlock, BlockFits, ExprFits, Ops, PlainOps, Lawful,
        BlockSize;
    var base, w := st.pc, WorldOf(st);
    if a.Otherwise? {
      k := OtherwiseRuns(m, prog, a, c, st, inDo, end, fuel);
    } else {
      ArmsCode(m, prog, a, base, end, c);
      var at, n := base + CodeLength(a.test) + 1, CodeLength(a.test) + 1;
      var next := at + BlockSize(a.body) + if Final(a.rest) then 0 else 1;
      TestRuns(m, prog, a.test, At(next), st);
      var v := Valued(m.arith, w, a.test);
      if v.None? { k := n; Fails(m, prog, st, n, WorldOf(st), end, c, fuel); }
      else if m.arith.isZero(v.value) {
        LandSelf(st, next);
        SetAgain(m, prog, c, st, inDo, w, next);
        k := n;
        if Final(a.rest) {
          Arrives(m, prog, st, n, w, end, c, fuel);
        } else {
          var j := ArmsRun(m, prog, a.rest, c, Land(st, w, next), inDo, end, fuel);
          k := n + j;
          Continue(m, prog, st, n, w, next, j, RunArms(m.arith, a.rest, w, fuel), end, c, fuel);
        }
      } else {
        LandSelf(st, at);
        SetAgain(m, prog, c, st, inDo, w, at);
        var j := BlockRuns(m, prog, a.body, c, Land(st, w, at), inDo, fuel);
        if !Final(a.rest) {
          j := ThenJump(m, prog, Land(st, w, at), j, RunBlock(m.arith, a.body, w, fuel), next - 1, end, c, fuel);
        }
        k := n + j;
        Continue(m, prog, st, n, w, at, j, RunBlock(m.arith, a.body, w, fuel), end, c, fuel);
      }
    }
  }

  lemma {:induction false} OtherwiseRuns(
      m: Machine, prog: seq<Op>, a: Arms, c: Context, st: State, inDo: bool, end: int, fuel: nat) returns (k: nat)
    requires a.Otherwise? && Set(m, prog, c, st, inDo) && ArmsFit(m, a, c.fors, inDo) &&
        CodeAt(prog, st.pc, ArmsBody(m.pool, a, st.pc, end, c))
    requires end == st.pc + ArmsSize(a) < |prog|
    ensures Does(m, prog, st, k, RunArms(m.arith, a, WorldOf(st), fuel), end, c, fuel)
    decreases fuel, a, 0
  {
    hide RunN, CodeAt, Does, BlockBody, RunBlock, BlockFits, Set, BlockSize;
    if a.other.None? {
      k := 0;
      AtOnce(m, prog, st, c, fuel);
    } else {
      k := BlockRuns(m, prog, a.other.value, c, st, inDo, fuel);
    }
  }

  lemma {:induction false} ChooseRuns(
      m: Machine, prog: seq<Op>, s: Stmt, c: Context, st: State, inDo: bool, fuel: nat) returns (k: nat)
    requires s.Choose? && Set(m, prog, c, st, inDo) && Fits(m, s, c.fors, inDo) &&
        CodeAt(prog, st.pc, Body(m.pool, s, st.pc, c))
    requires st.pc + Size(s) < |prog|
    ensures Does(m, prog, st, k, RunStmt(m.arith, s, WorldOf(st), fuel), st.pc + Size(s), c, fuel)
    decreases fuel, s, 0
  {
    hide RunN, CodeAt, Does, Set, ArmsBody, ArmsFit, RunArms, ArmsSize;
    k := ArmsRun(m, prog, s.arms, c, st, inDo, st.pc + Size(s), fuel);
  }

  // ---------- SELECT ----------

  /** The machine with the selector on the stack. */
  function Selecting(st: State, v: Num, pc: int): State { st.(pc := pc, stack := st.stack + [Number(v)]) }

  lemma {:induction false} DupRuns(m: Machine, prog: seq<Op>, st: State, v: Num, pc: int)
    requires CodeAt(prog, pc, [Plain(Simple(Dup))])
    ensures SameOrOverflow(RunN(m, prog, Run(Selecting(st, v, pc)), 1), Run(Selecting(st, v, pc + 1).(stack :=
        st.stack + [Number(v), Number(v)])))
  {
    hide StepInstr, Decode, RunN;
    DupDispatch(m, prog, Selecting(st, v, pc));
    var from := Selecting(st, v, pc);
    StepAt(m, prog, Plain(Simple(Dup)), from);
    assert Top(from, 0) == Number(v);
    assert from.stack + [Number(v)] == st.stack + [Number(v), Number(v)];
  }

  lemma {:induction false} ConstantRuns(m: Machine, prog: seq<Op>, st: State, w: Num)
    requires w in m.pool && CodeAt(prog, st.pc, [Plain(PushOf(m.pool, w))])
    ensures SameOrOverflow(RunN(m, prog, Run(st), 1), Run(st.(pc := st.pc + 1, stack := st.stack + [Number(w)])))
  {
    IndexFound(m.pool, w);
    StepAt(m, prog, Plain(PushOf(m.pool, w)), st);
  }

  predicate Comparison(c: OpCode) { c == CeqNum || c == CgeNum || c == CleNum }

  function CompareOp(c: OpCode): BinOp { if c == CeqNum then Eq else if c == CgeNum then Ge else Le }

  lemma {:induction false} ComparisonRuns(m: Machine, prog: seq<Op>, st: State, c: OpCode, v: Num, w: Num, pc: int)
    requires Comparison(c) && CodeAt(prog, pc, [Plain(Simple(c))])
    ensures var from := st.(pc := pc, stack := st.stack + [Number(v), Number(v), Number(w)]);
            RunN(m, prog, Run(from), 1)
            == Run(st.(pc := pc + 1, stack := st.stack + [Number(v), Number(Truth(m.arith.holds(CompareOp(c), v, w)))]))
  {
    hide StepInstr, Decode, RunN, CodeAt;
    var from := st.(pc := pc, stack := st.stack + [Number(v), Number(v), Number(w)]);
    StepAt(m, prog, Plain(Simple(c)), from);
    CompareDispatch(m, prog, from, c);
    assert Top(from, 0) == Number(w) && Top(from, 1) == Number(v) && Pop(from, 2).stack == st.stack + [Number(v)];
    var t := Number(Truth(m.arith.holds(CompareOp(c), v, w)));
    assert st.stack + [Number(v)] + [t] == st.stack + [Number(v), t];
  }

  /** DUP, a constant, a comparison, and the jump taken when it fails; the selector stays. */
  lemma {:induction false} CompareRuns(
      m: Machine, prog: seq<Op>, st: State, c: OpCode, v: Num, w: Num, fail: int, pc: int)
    requires Comparison(c) && w in m.pool && Lawful(m.arith) && Target_(|prog|, At(fail))
    requires CodeAt(prog, pc, [Plain(Simple(Dup)), Plain(PushOf(m.pool, w)), Plain(Simple(c)), Unless(At(fail))])
    ensures SameOrOverflow(RunN(m, prog, Run(Selecting(st, v, pc)), 4),
                           Run(Selecting(st, v, if m.arith.holds(CompareOp(c), v, w) then pc + 4 else fail)))
  {
    hide CodeAt, RunN, Lawful;
    FourCode(prog, pc, Plain(Simple(Dup)), Plain(PushOf(m.pool, w)), Plain(Simple(c)), Unless(At(fail)));
    var from := Selecting(st, v, pc);
    DupRuns(m, prog, st, v, pc);
    var s1 := Selecting(st, v, pc + 1).(stack := st.stack + [Number(v), Number(v)]);
    ConstantRuns(m, prog, s1, w);
    ThenRun(m, prog, from, 1, s1, 1);
    var s2 := st.(pc := pc + 2, stack := st.stack + [Number(v), Number(v), Number(w)]);
    assert s1.stack + [Number(w)] == s2.stack;
    ComparisonRuns(m, prog, st, c, v, w, pc + 2);
    ThenRun(m, prog, from, 2, s2, 1);
    LastCompare(m, prog, st, c, v, w, fail, pc);
  }

  lemma {:induction false} LastCompare(
      m: Machine, prog: seq<Op>, st: State, c: OpCode, v: Num, w: Num, fail: int, pc: int)
    requires Lawful(m.arith) && Target_(|prog|, At(fail)) && CodeAt(prog, pc + 3, [Unless(At(fail))])
    requires SameOrOverflow(RunN(m, prog, Run(Selecting(st, v, pc)), 3),
                            Run(st.(pc := pc + 3, stack := st.stack + [Number(v),
                                Number(Truth(m.arith.holds(CompareOp(c), v, w)))])))
    ensures SameOrOverflow(RunN(m, prog, Run(Selecting(st, v, pc)), 4),
                           Run(Selecting(st, v, if m.arith.holds(CompareOp(c), v, w) then pc + 4 else fail)))
  {
    hide CodeAt, RunN;
    var t := Truth(m.arith.holds(CompareOp(c), v, w));
    var s3 := st.(pc := pc + 3, stack := st.stack + [Number(v), Number(t)]);
    assert Top(s3, 0) == Number(t) && Pop(s3, 1).stack == st.stack + [Number(v)];
    UnlessRuns(m, prog, At(fail), s3, t);
    ThenRun(m, prog, Selecting(st, v, pc), 3, s3, 1);
  }

  lemma {:induction false} FourCode(prog: seq<Op>, pc: int, a: Sym, b: Sym, c: Sym, d: Sym)
    requires CodeAt(prog, pc, [a, b, c, d])
    ensures CodeAt(prog, pc, [a]) && CodeAt(prog, pc + 1, [b]) && CodeAt(prog, pc + 2, [c]) && CodeAt(prog, pc + 3, [d])
  {
    hide CodeAt;
    assert [a, b, c, d] == [a] + [b, c, d] && [b, c, d] == [b] + [c, d] && [c, d] == [c] + [d];
    SplitCode(prog, pc, [a], [b, c, d]);
    SplitCode(prog, pc + 1, [b], [c, d]);
    SplitCode(prog, pc + 2, [c], [d]);
  }

  lemma {:induction false} SelectorJumps(
      m: Machine, prog: seq<Op>, st: State, from: State, k: nat, v: Num, pc: int, to: int)
    requires SameOrOverflow(RunN(m, prog, Run(from), k), Run(Selecting(st, v, pc)))
    requires CodeAt(prog, pc, [Jump(At(to))]) && Target_(|prog|, At(to))
    ensures SameOrOverflow(RunN(m, prog, Run(from), k + 1), Run(Selecting(st, v, to)))
  {
    hide CodeAt, RunN;
    JumpRuns(m, prog, At(to), Selecting(st, v, pc));
    ThenRun(m, prog, from, k, Selecting(st, v, pc), 1);
  }

  lemma {:induction false} OneItemRuns(
      m: Machine, prog: seq<Op>, st: State, v: Num, w: Num, hit: int, pc: int) returns (k: nat)
    requires w in m.pool && Lawful(m.arith) && Target_(|prog|, At(hit)) && pc + 5 < |prog|
    requires CodeAt(prog, pc, Test(One(PushOf(m.pool, w)), pc, At(hit)))
    ensures SameOrOverflow(RunN(m, prog, Run(Selecting(st, v, pc)), k), Run(Selecting(st, v, if m.arith.holds(Eq, v,
        w) then hit else pc + 5)))
  {
    hide CodeAt, RunN, Lawful;
    var compare := [Plain(Simple(Dup)), Plain(PushOf(m.pool, w)), Plain(Simple(CeqNum)), Unless(At(pc + 5))];
    assert Test(One(PushOf(m.pool, w)), pc, At(hit)) == compare + [Jump(At(hit))];
    SplitCode(prog, pc, compare, [Jump(At(hit))]);
    NonNegative(prog, pc, compare);
    CompareRuns(m, prog, st, CeqNum, v, w, pc + 5, pc);
    k := 4;
    if m.arith.holds(Eq, v, w) {
      SelectorJumps(m, prog, st, Selecting(st, v, pc), 4, v, pc + 4, hit);
      k := 5;
    }
  }

  function CompareCode(m: Machine, c: OpCode, w: Num, fail: int): seq<Sym> {
    [Plain(Simple(Dup)), Plain(PushOf(m.pool, w)), Plain(Simple(c)), Unless(At(fail))]
  }

  lemma {:induction false} RangeCode(m: Machine, prog: seq<Op>, low: Num, high: Num, hit: int, pc: int)
    requires CodeAt(prog, pc, Test(Range(PushOf(m.pool, low), PushOf(m.pool, high)), pc, At(hit)))
    ensures pc >= 0 && CodeAt(prog, pc, CompareCode(m, CgeNum, low, pc + 9)) &&
        CodeAt(prog, pc + 4, CompareCode(m, CleNum, high, pc + 9)) &&
            CodeAt(prog, pc + 8, [Jump(At(hit))])
  {
    hide CodeAt;
    var first, second := CompareCode(m, CgeNum, low, pc + 9), CompareCode(m, CleNum, high, pc + 9);
    assert Test(Range(PushOf(m.pool, low), PushOf(m.pool, high)), pc, At(hit)) == first + (second + [Jump(At(hit))]);
    SplitCode(prog, pc, first, second + [Jump(At(hit))]);
    SplitCode(prog, pc + 4, second, [Jump(At(hit))]);
    NonNegative(prog, pc, first);
  }

  lemma {:induction false} RangeItemRuns(
      m: Machine, prog: seq<Op>, st: State, v: Num, low: Num, high: Num, hit: int, pc: int) returns (k: nat)
    requires low in m.pool && high in m.pool && Lawful(m.arith) && Target_(|prog|, At(hit)) && pc + 9 < |prog|
    requires CodeAt(prog, pc, Test(Range(PushOf(m.pool, low), PushOf(m.pool, high)), pc, At(hit)))
    ensures SameOrOverflow(RunN(m, prog, Run(Selecting(st, v, pc)), k),
                           Run(Selecting(st, v, if m.arith.holds(Ge, v, low) &&
                               m.arith.holds(Le, v, high) then hit else pc + 9)))
  {
    hide CodeAt, RunN, Lawful, Test;
    RangeCode(m, prog, low, high, hit, pc);
    CompareRuns(m, prog, st, CgeNum, v, low, pc + 9, pc);
    k := 4;
    if m.arith.holds(Ge, v, low) {
      CompareRuns(m, prog, st, CleNum, v, high, pc + 9, pc + 4);
      ThenRun(m, prog, Selecting(st, v, pc), 4, Selecting(st, v, pc + 4), 4);
      k := 8;
      if m.arith.holds(Le, v, high) {
        SelectorJumps(m, prog, st, Selecting(st, v, pc), 8, v, pc + 8, hit);
        k := 9;
      }
    }
  }

  lemma {:induction false} ItemRuns(
      m: Machine, prog: seq<Op>, st: State, v: Num, item: Literals, hit: int, pc: int) returns (k: nat)
    requires ItemFits(m, item) && Lawful(m.arith) && Target_(|prog|, At(hit)) &&
        pc + TestLength(ItemOf(m.pool, item)) < |prog|
    requires CodeAt(prog, pc, Test(ItemOf(m.pool, item), pc, At(hit)))
    ensures SameOrOverflow(RunN(m, prog, Run(Selecting(st, v, pc)), k),
                           Run(Selecting(st, v, if MatchesOne(m.arith, v, item) then hit
                               else pc + TestLength(ItemOf(m.pool, item)))))
  {
    hide CodeAt, RunN, Lawful, Test;
    match item
    case OneOf(w) => k := OneItemRuns(m, prog, st, v, w, hit, pc);
    case Between(low, high) => k := RangeItemRuns(m, prog, st, v, low, high, hit, pc);
  }

  lemma {:induction false} MatchesFirst(a: Arith, v: Num, items: seq<Literals>)
    requires items != []
    ensures Matches(a, v, items) <==> MatchesOne(a, v, items[0]) || Matches(a, v, items[1..])
  {
    hide MatchesOne;
    if Matches(a, v, items[1..]) {
      var k :| 0 <= k < |items[1..]| && MatchesOne(a, v, items[1..][k]);
      assert MatchesOne(a, v, items[k + 1]);
    }
    if Matches(a, v, items) {
      var k :| 0 <= k < |items| && MatchesOne(a, v, items[k]);
      if k > 0 { assert items[1..][k - 1] == items[k]; }
    }
  }

  /** The tests of a clause: to `hit` when some item matches, past them when none does. */
  lemma {:induction false} ItemsRun(
      m: Machine, prog: seq<Op>, st: State, v: Num, items: seq<Literals>, hit: int, pc: int) returns (k: nat)
    requires (forall i :: 0 <= i < |items| ==> ItemFits(m, items[i])) && Lawful(m.arith) && Target_(|prog|, At(hit))
    requires pc + LiteralsSize(items) < |prog| && CodeAt(prog, pc, Tests(ItemsOf(m.pool, items), pc, At(hit)))
    ensures SameOrOverflow(RunN(m, prog, Run(Selecting(st, v, pc)), k),
                           Run(Selecting(st, v, if Matches(m.arith, v, items) then hit else pc + LiteralsSize(items))))
    decreases |items|
  {
    hide CodeAt, RunN, Lawful, Test, ItemFits, MatchesOne, Matches;
    if items == [] {
      k := 0;
      NoMatch(m.arith, v);
      ZeroRuns(m, prog, Selecting(st, v, pc));
    } else {
      var rest, item := items[1..], ItemOf(m.pool, items[0]);
      var next := pc + TestLength(item);
      TestsFirst(m, prog, items, hit, pc);
      MatchesFirst(m.arith, v, items);
      k := ItemRuns(m, prog, st, v, items[0], hit, pc);
      if !MatchesOne(m.arith, v, items[0]) {
        var j := ItemsRun(m, prog, st, v, rest, hit, next);
        ThenRun(m, prog, Selecting(st, v, pc), k, Selecting(st, v, next), j);
        k := k + j;
      }
    }
  }

  lemma {:induction false} ZeroRuns(m: Machine, prog: seq<Op>, st: State)
    ensures RunN(m, prog, Run(st), 0) == Run(st)
  {}

  lemma {:induction false} NoMatch(a: Arith, v: Num)
    ensures !Matches(a, v, [])
  {}

  lemma {:induction false} TestsFirst(m: Machine, prog: seq<Op>, items: seq<Literals>, hit: int, pc: int)
    requires items != [] && CodeAt(prog, pc, Tests(ItemsOf(m.pool, items), pc, At(hit)))
    ensures var item := ItemOf(m.pool, items[0]);
            CodeAt(prog, pc, Test(item, pc, At(hit))) &&
                pc + TestLength(item) + LiteralsSize(items[1..]) == pc + LiteralsSize(items) &&
            CodeAt(prog, pc + TestLength(item), Tests(ItemsOf(m.pool, items[1..]), pc + TestLength(item), At(hit)))
  {
    hide CodeAt, Test;
    var item := ItemOf(m.pool, items[0]);
    assert ItemsOf(m.pool, items)[1..] == ItemsOf(m.pool, items[1..]);
    SplitCode(prog, pc, Test(item, pc, At(hit)), Tests(ItemsOf(m.pool, items[1..]), pc + TestLength(item), At(hit)));
  }

  lemma {:induction false} DropRuns(m: Machine, prog: seq<Op>, st: State, from: State, k: nat, v: Num, pc: int)
    requires SameOrOverflow(RunN(m, prog, Run(from), k), Run(Selecting(st, v, pc))) &&
        CodeAt(prog, pc, [Plain(Simple(Drop))])
    ensures SameOrOverflow(RunN(m, prog, Run(from), k + 1), Run(st.(pc := pc + 1)))
  {
    hide CodeAt, RunN;
    var mid := Selecting(st, v, pc);
    StepAt(m, prog, Plain(Simple(Drop)), mid);
    assert Pop(mid, 1).stack == st.stack;
    ThenRun(m, prog, from, k, mid, 1);
  }

  lemma {:induction false} WhenCode(m: Machine, prog: seq<Op>, cs: Clauses, base: int, end: int, c: Context)
    requires cs.When? && CodeAt(prog, base, ClausesBody(m.pool, cs, base, end, c))
    ensures var miss := base + LiteralsSize(cs.items);
            var next := miss + 2 + BlockSize(cs.body) + 1;
            CodeAt(prog, base, Tests(ItemsOf(m.pool, cs.items), base, At(miss + 1))) &&
                CodeAt(prog, miss, [Jump(At(next))]) &&
            CodeAt(prog, miss + 1, [Plain(Simple(Drop))]) &&
                CodeAt(prog, miss + 2, BlockBody(m.pool, cs.body, miss + 2, c)) &&
            CodeAt(prog, next - 1, [Jump(At(end))]) &&
                CodeAt(prog, next, ClausesBody(m.pool, cs.rest, next, end, c)) && base >= 0
  {
    hide CodeAt, BlockBody, Tests, ItemsOf;
    ItemsSize(m.pool, cs.items);
    var miss := base + LiteralsSize(cs.items);
    var next := miss + 2 + BlockSize(cs.body) + 1;
    var clause, body := Clause(ItemsOf(m.pool, cs.items), base, At(next)), BlockBody(m.pool, cs.body, miss + 2, c);
    SplitCode(prog, base, clause + body, [Jump(At(end))] + ClausesBody(m.pool, cs.rest, next, end, c));
    SplitCode(prog, next - 1, [Jump(At(end))], ClausesBody(m.pool, cs.rest, next, end, c));
    SplitCode(prog, base, clause, body);
    NonNegative(prog, base, clause);
    ClauseCode(prog, ItemsOf(m.pool, cs.items), base, next);
  }

  lemma {:induction false} ClauseCode(prog: seq<Op>, items: seq<Item>, base: int, next: int)
    requires CodeAt(prog, base, Clause(items, base, At(next)))
    ensures var miss := base + TestsLength(items);
            CodeAt(prog, base, Tests(items, base, At(miss + 1))) && CodeAt(prog, miss, [Jump(At(next))]) &&
                CodeAt(prog, miss + 1, [Plain(Simple(Drop))])
  {
    hide CodeAt, Tests;
    var miss := base + TestsLength(items);
    SplitCode(prog, base, Tests(items, base, At(miss + 1)), [Jump(At(next)), Plain(Simple(Drop))]);
    assert [Jump(At(next)), Plain(Simple(Drop))] == [Jump(At(next))] + [Plain(Simple(Drop))];
    SplitCode(prog, miss, [Jump(At(next))], [Plain(Simple(Drop))]);
  }

  lemma {:induction false} ClausesRun(
      m: Machine, prog: seq<Op>, v: Num, cs: Clauses, c: Context, st: State, from: State, n: nat, base: int,
      inDo: bool, end: int, fuel: nat) returns (k: nat)
    requires Set(m, prog, c, st, inDo) && ClausesFit(m, cs, c.fors, inDo) &&
        CodeAt(prog, base, ClausesBody(m.pool, cs, base, end, c))
    requires end == base + ClausesSize(cs) < |prog| &&
        SameOrOverflow(RunN(m, prog, Run(from), n), Run(Selecting(st, v, base)))
    ensures DoesFrom(m, prog, from, st, k, RunClauses(m.arith, v, cs, WorldOf(st), fuel), end, c, fuel)
    decreases fuel, cs, 1
  {
    hide RunN, CodeAt, Does, ClausesBody, BlockBody, RunBlock, BlockFits, ItemFits, Lawful, BlockSize, LiteralsSize,
        Selecting, Meets, Matches, ItemsOf, Tests;
    if cs.Rest? {
      k := RestRuns(m, prog, v, cs, c, st, from, n, base, inDo, end, fuel);
    } else {
      WhenCode(m, prog, cs, base, end, c);
      var miss := base + LiteralsSize(cs.items);
      var next := miss + 2 + BlockSize(cs.body) + 1;
      var j := ItemsRun(m, prog, st, v, cs.items, miss + 1, base);
      ThenRun(m, prog, from, n, Selecting(st, v, base), j);
      if Matches(m.arith, v, cs.items) {
        DropRuns(m, prog, st, from, n + j, v, miss + 1);
        k := BodyRuns(m, prog, cs.body, c, st, from, n + j + 1, miss + 2, inDo, end, fuel, true);
      } else {
        SelectorJumps(m, prog, st, from, n + j, v, miss, next);
        k := ClausesRun(m, prog, v, cs.rest, c, st, from, n + j + 1, next, inDo, end, fuel);
      }
    }
  }

  /** The body of a clause, reached with the selector dropped, and the jump to the end if there is one. */
  lemma {:induction false} BodyRuns(
      m: Machine, prog: seq<Op>, b: Block, c: Context, st: State, from: State, n: nat, at: int, inDo: bool, end: int,
      fuel: nat, jump: bool) returns (k: nat)
    requires Set(m, prog, c, st, inDo) && BlockFits(m, b, c.fors, inDo) &&
        CodeAt(prog, at, BlockBody(m.pool, b, at, c)) && 0 <= end < |prog|
    requires SameOrOverflow(RunN(m, prog, Run(from), n), Run(st.(pc := at))) && at + BlockSize(b) < |prog|
    requires if jump then CodeAt(prog, at + BlockSize(b), [Jump(At(end))]) else at + BlockSize(b) == end
    ensures DoesFrom(m, prog, from, st, k, RunBlock(m.arith, b, WorldOf(st), fuel), end, c, fuel)
    decreases fuel, b, 1
  {
    hide RunN, CodeAt, Does, BlockBody, RunBlock, BlockFits, BlockSize, DoesFrom;
    LandSelf(st, at);
    SetAgain(m, prog, c, st, inDo, WorldOf(st), at);
    var mid := Land(st, WorldOf(st), at);
    var j := BlockRuns(m, prog, b, c, mid, inDo, fuel);
    if jump {
      j := ThenJump(m, prog, mid, j, RunBlock(m.arith, b, WorldOf(st), fuel), at + BlockSize(b), end, c, fuel);
    }
    ThenRun(m, prog, from, n, mid, j);
    k := n + j;
    AnotherStart(m, prog, from, st, at, n, j, RunBlock(m.arith, b, WorldOf(st), fuel), end, c, fuel);
  }

  lemma {:induction false} AnotherStart(
      m: Machine, prog: seq<Op>, from: State, st: State, at: int, n: nat, j: nat, r: Result, end: int, c: Context,
      fuel: nat)
    requires SameOrOverflow(RunN(m, prog, Run(from), n + j), RunN(m, prog, Run(Land(st, WorldOf(st), at)), j))
    requires Does(m, prog, Land(st, WorldOf(st), at), j, r, end, c, fuel)
    ensures DoesFrom(m, prog, from, st, n + j, r, end, c, fuel)
  {
    hide RunN;
  }

  lemma {:induction false} RestRuns(
      m: Machine, prog: seq<Op>, v: Num, cs: Clauses, c: Context, st: State, from: State, n: nat, base: int,
      inDo: bool, end: int, fuel: nat) returns (k: nat)
    requires cs.Rest? && Set(m, prog, c, st, inDo) && ClausesFit(m, cs, c.fors, inDo) &&
        CodeAt(prog, base, ClausesBody(m.pool, cs, base, end, c))
    requires end == base + ClausesSize(cs) < |prog| &&
        SameOrOverflow(RunN(m, prog, Run(from), n), Run(Selecting(st, v, base)))
    ensures DoesFrom(m, prog, from, st, k, RunClauses(m.arith, v, cs, WorldOf(st), fuel), end, c, fuel)
    decreases fuel, cs, 0
  {
    hide RunN, CodeAt, Does, BlockBody, RunBlock, BlockFits, BlockSize, Selecting, Meets, Set;
    NonNegative(prog, base, ClausesBody(m.pool, cs, base, end, c));
    if cs.other.None? {
      assert ClausesBody(m.pool, cs, base, end, c) == [Plain(Simple(Drop))];
      DropRuns(m, prog, st, from, n, v, base);
      k := n + 1;
      LandSelf(st, base + 1);
      ArrivesFrom(m, prog, from, st, k, WorldOf(st), end, c, fuel);
    } else {
      SplitCode(prog, base, [Plain(Simple(Drop))], BlockBody(m.pool, cs.other.value, base + 1, c));
      DropRuns(m, prog, st, from, n, v, base);
      k := BodyRuns(m, prog, cs.other.value, c, st, from, n + 1, base + 1, inDo, end, fuel, false);
    }
  }

  lemma {:induction false} SelectCode(m: Machine, prog: seq<Op>, s: Stmt, base: int, c: Context)
    requires s.SelectCase? && CodeAt(prog, base, Body(m.pool, s, base, c))
    ensures var at := base + CodeLength(s.e);
            CodeAt(prog, base, PlainOps(Ops(m.pool, s.e))) &&
                CodeAt(prog, at, ClausesBody(m.pool, s.clauses, at, base + Size(s), c)) &&
            base >= 0 && base + Size(s) == at + ClausesSize(s.clauses)
  {
    hide CodeAt, Ops, PlainOps, ClausesBody, ClausesSize;
    var at := base + CodeLength(s.e);
    SplitCode(prog, base, PlainOps(Ops(m.pool, s.e)), ClausesBody(m.pool, s.clauses, at, base + Size(s), c));
    NonNegative(prog, base, PlainOps(Ops(m.pool, s.e)));
  }

  lemma {:induction false} SelectRuns(
      m: Machine, prog: seq<Op>, s: Stmt, c: Context, st: State, inDo: bool, fuel: nat) returns (k: nat)
    requires s.SelectCase? && Set(m, prog, c, st, inDo) && Fits(m, s, c.fors, inDo) &&
        CodeAt(prog, st.pc, Body(m.pool, s, st.pc, c))
    requires st.pc + Size(s) < |prog|
    ensures Does(m, prog, st, k, RunStmt(m.arith, s, WorldOf(st), fuel), st.pc + Size(s), c, fuel)
    decreases fuel, s, 0
  {
    hide RunN, CodeAt, Does, Body, ClausesBody, ClausesFit, RunClauses, Size, ExprFits, Valued, Ops, PlainOps,
        Lawful, ClausesSize;
    SelectCode(m, prog, s, st.pc, c);
    ExprRuns(m, prog, s.e, st);
    var v, n := Valued(m.arith, WorldOf(st), s.e), CodeLength(s.e);
    if v.None? { k := n; Fails(m, prog, st, n, WorldOf(st), st.pc + Size(s), c, fuel); }
    else {
      k := ClausesRun(m, prog, v.value, s.clauses, c, st, st, n, st.pc + n, inDo, st.pc + Size(s), fuel);
      SameStart(m, prog, st, k, RunClauses(m.arith, v.value, s.clauses, WorldOf(st), fuel), st.pc + Size(s), c, fuel);
    }
  }

  lemma {:induction false} SameStart(
      m: Machine, prog: seq<Op>, st: State, k: nat, r: Result, end: int, c: Context, fuel: nat)
    requires DoesFrom(m, prog, st, st, k, r, end, c, fuel)
    ensures Does(m, prog, st, k, r, end, c, fuel)
  {}
}
