/** From source to running code: a structured program, compiled in one pass, linked, and even
    optimized, ends exactly as the program means. */
module Correctness {
  import opened Wrappers
  import opened Il
  import opened Machine
  import opened Statements
  import opened Labels
  import opened Blocks
  import opened BlockCompiler
  import opened Semantics
  import opened Simulation
  import Backpatch
  import Extension
  import Justification
  import Optimizer
  import OptimizerProof
  import StackNeed
  import Targets

  // ---------- what the compiler emits: no fused operation, no line number, constants by index ----------

  predicate Fusing(c: OpCode) {
    match c
    case MovNum | AddVvPush | SubVvPush | MulVvPush | MulCvPush | AddVvStore | SubVvStore | MulVvStore | MulAddStore | MulSubAddStore
       | MulCvvAddStore | Sq2GtOrJz | SumSqGtJz | ComplexIterOrJz | ComplexIterSumSqJz | GrayPsetMulInt | GrayPsetIntStack
       | RgbPsetMinMul | RgbPsetVv | StoreConstNum | AddVcPush | SubVcPush | DivVcPush | LocalNumFused | LocalGrayPsetMulInt
       | CeqNumJz | CneNumJz | CltNumJz | CleNumJz | CgtNumJz | CgeNumJz | NotNumJz | AndNumJz | OrNumJz => true
    case _ => false
  }

  predicate Emitted(op: Op) { !Backpatch.IsLineRef(op) && !Fusing(op.code) && (op.code == PushNum ==> op.a >= 0) }

  predicate AllEmitted(ops: seq<Op>) { forall k :: 0 <= k < |ops| ==> Emitted(ops[k]) }

  lemma {:induction false} NotFused(pool: seq<Num>, op: Op)
    requires !Fusing(op.code)
    ensures !Justification.FusedInstr(Decode(pool, op))
  {}

  lemma {:induction false} OpsEmitted(pool: seq<Num>, e: Expr)
    ensures AllEmitted(Ops(pool, e))
    decreases e
  {
    if e.Bin? {
      OpsEmitted(pool, e.l);
      OpsEmitted(pool, e.r);
      BinEmitted(e.op);
    }
  }

  lemma {:induction false} BinEmitted(op: BinOp)
    ensures Emitted(BinCode(op))
  {}

  lemma {:induction false} SimpleEmitted(pool: seq<Num>, s: Stmt)
    ensures AllEmitted(SimpleOps(pool, s))
  {
    hide Ops;
    match s
    case Let(slot, e) => OpsEmitted(pool, e);
    case SetColor(r, g, b) => OpsEmitted(pool, r); OpsEmitted(pool, g); OpsEmitted(pool, b);
    case SetPixel(x, y) => OpsEmitted(pool, x); OpsEmitted(pool, y);
    case _ =>
  }

  ghost predicate Refless(code: seq<Sym>) { forall i :: 0 <= i < |code| ==> code[i].Plain? ==> Emitted(code[i].op) }

  lemma {:induction false} ReflessConcat(a: seq<Sym>, b: seq<Sym>)
    requires Refless(a) && Refless(b)
    ensures Refless(a + b)
  {
    hide Emitted;
  }

  lemma {:induction false} ReflessJump(s: Sym)
    requires !s.Plain?
    ensures Refless([s])
  {}

  lemma {:induction false} ReflessPlain(ops: seq<Op>)
    requires AllEmitted(ops)
    ensures Refless(PlainOps(ops))
  {
    hide Emitted;
  }

  lemma {:induction false} ReflessTest(pool: seq<Num>, e: Expr, t: Target)
    ensures Refless(PlainOps(Ops(pool, e)) + [Unless(t)])
  {
    hide Refless;
    OpsEmitted(pool, e);
    ReflessPlain(Ops(pool, e));
    ReflessJump(Unless(t));
    ReflessConcat(PlainOps(Ops(pool, e)), [Unless(t)]);
  }

  lemma {:induction false} ReflessTests(pool: seq<Num>, items: seq<Literals>, base: int, hit: Target)
    ensures Refless(Tests(ItemsOf(pool, items), base, hit))
    decreases |items|
  {
    if items != [] {
      var item := ItemOf(pool, items[0]);
      assert ItemsOf(pool, items)[1..] == ItemsOf(pool, items[1..]);
      ReflessTests(pool, items[1..], base + TestLength(item), hit);
      ReflessItem(pool, items[0], base, hit);
      ReflessConcat(Test(item, base, hit), Tests(ItemsOf(pool, items[1..]), base + TestLength(item), hit));
    }
  }

  lemma {:induction false} ReflessItem(pool: seq<Num>, item: Literals, base: int, hit: Target)
    ensures Refless(Test(ItemOf(pool, item), base, hit))
  {}

  lemma {:induction false} ReflessClause(pool: seq<Num>, items: seq<Literals>, base: int, miss: Target)
    ensures Refless(Clause(ItemsOf(pool, items), base, miss))
  {
    hide Tests;
    ReflessTests(pool, items, base, At(base + TestsLength(ItemsOf(pool, items)) + 1));
    ReflessConcat(Tests(ItemsOf(pool, items), base, At(base + TestsLength(ItemsOf(pool, items)) + 1)), [Jump(miss),
        Plain(Simple(Drop))]);
  }

  lemma {:induction false} ReflessHeader(pool: seq<Num>, pos: int, slot: int, first: Expr, limit: Expr, step: Expr)
    ensures Refless(PlainOps(ForHeader(pos, slot, Ops(pool, first), Ops(pool, limit), Ops(pool, step))))
  {
    hide Ops, Refless, PlainOps;
    var f, l, d := Ops(pool, first), Ops(pool, limit), Ops(pool, step);
    OpsEmitted(pool, first);
    OpsEmitted(pool, limit);
    OpsEmitted(pool, step);
    var init := f + [Op(StoreNum, 0, 0, slot, 0)] + l + d + [Op(ForInit, 0, 0, slot, 0)];
    var check := Op(ForCheck, 0, 0, slot, pos + |f| + |l| + |d| + 4);
    ReflessPlain(init);
    ReflessOne(check);
    ReflessConcat(PlainOps(init), PlainOps([check]));
    assert PlainOps(init + [check]) == PlainOps(init) + PlainOps([check]) by { PlainConcat(init, [check]); }
  }

  lemma {:induction false} PlainConcat(a: seq<Op>, b: seq<Op>)
    ensures PlainOps(a + b) == PlainOps(a) + PlainOps(b)
  {}

  lemma {:induction false} ReflessOne(op: Op)
    requires Emitted(op)
    ensures Refless(PlainOps([op])) && Refless([Plain(op)])
  {}

  lemma {:induction false} ReflessBody(pool: seq<Num>, s: Stmt, base: int, c: Context)
    ensures Refless(Body(pool, s, base, c))
    decreases s, 1
  {
    hide Refless, Ops, PlainOps, Body, SimpleOps;
    if s.OneLine? { ReflessOneLine(pool, s, base, c); }
    else if s.Choose? { ReflessArms(pool, s.arms, base, base + ArmsSize(s.arms), c); ChooseBody(pool, s, base, c); }
    else if s.SelectCase? { ReflessSelect(pool, s, base, c); }
    else if s.ForLoop? { ReflessFor(pool, s, base, c); }
    else if s.WhileLoop? { ReflessWhile(pool, s, base, c); }
    else if s.DoLoop? { ReflessDo(pool, s, base, c); }
    else { ReflessSimple(pool, s, base, c); }
  }

  lemma {:induction false} ChooseBody(pool: seq<Num>, s: Stmt, base: int, c: Context)
    requires s.Choose?
    ensures Body(pool, s, base, c) == ArmsBody(pool, s.arms, base, base + ArmsSize(s.arms), c)
  {}

  lemma {:induction false} ReflessSimple(pool: seq<Num>, s: Stmt, base: int, c: Context)
    requires IsSimple(s)
    ensures Refless(Body(pool, s, base, c))
  {
    hide SimpleOps;
    SimpleEmitted(pool, s);
    ReflessPlain(SimpleOps(pool, s));
  }

  lemma {:induction false} ReflessOneLine(pool: seq<Num>, s: Stmt, base: int, c: Context)
    requires s.OneLine?
    ensures Refless(Body(pool, s, base, c))
    decreases s, 0
  {
    hide Refless, Ops, PlainOps, Size;
    var at := base + CodeLength(s.test) + 1;
    ReflessBody(pool, s.yes, at, c);
    if s.no.None? {
      ReflessTest(pool, s.test, At(at + Size(s.yes)));
      ReflessConcat(PlainOps(Ops(pool, s.test)) + [Unless(At(at + Size(s.yes)))], Body(pool, s.yes, at, c));
    } else {
      var head := PlainOps(Ops(pool, s.test)) + [Unless(At(at + Size(s.yes) + 1))];
      var jump, no := Jump(At(at + Size(s.yes) + 1 + Size(s.no.value))), Body(pool, s.no.value, at + Size(s.yes) + 1,
          c);
      ReflessTest(pool, s.test, At(at + Size(s.yes) + 1));
      ReflessBody(pool, s.no.value, at + Size(s.yes) + 1, c);
      ReflessJump(jump);
      ReflessConcat(head, Body(pool, s.yes, at, c));
      ReflessConcat([jump], no);
      ReflessConcat(head + Body(pool, s.yes, at, c), [jump] + no);
    }
  }

  lemma {:induction false} ReflessFour(a: seq<Sym>, b: seq<Sym>, c: seq<Sym>, d: seq<Sym>)
    requires Refless(a) && Refless(b) && Refless(c) && Refless(d)
    ensures Refless(a + b + c + d)
  {
    hide Refless;
    ReflessConcat(a, b);
    ReflessConcat(a + b, c);
    ReflessConcat(a + b + c, d);
  }

  lemma {:induction false} ReflessFor(pool: seq<Num>, s: Stmt, base: int, c: Context)
    requires s.ForLoop?
    ensures Refless(Body(pool, s, base, c))
    decreases s, 0
  {
    hide Refless, Ops, PlainOps, Size, BlockBody, ForHeader, Body;
    var end := base + Size(s);
    var header := ForHeader(base, s.slot, Ops(pool, s.first), Ops(pool, s.limit), Ops(pool, s.step));
    var inner := c.(forExit := At(end), fors := c.fors + 1);
    var next := Op(ForIncr, 0, 0, if s.named then s.slot else -1, 0);
    ReflessHeader(pool, base, s.slot, s.first, s.limit, s.step);
    ReflessJump(Jump(At(end)));
    ReflessBlock(pool, s.body, base + |header| + 1, inner);
    ReflessOne(next);
    ReflessFour(PlainOps(header), [Jump(At(end))], BlockBody(pool, s.body, base + |header| + 1, inner), [Plain(next)]);
    ForBody(pool, s, base, c);
  }

  lemma {:induction false} ReflessWhile(pool: seq<Num>, s: Stmt, base: int, c: Context)
    requires s.WhileLoop?
    ensures Refless(Body(pool, s, base, c))
    decreases s, 0
  {
    hide Refless, Ops, PlainOps, Size, BlockBody, Body;
    var end, at := base + Size(s), base + CodeLength(s.test) + 1;
    ReflessTest(pool, s.test, At(end));
    ReflessBlock(pool, s.body, at, c);
    ReflessJump(Jump(At(base)));
    var head := PlainOps(Ops(pool, s.test)) + [Unless(At(end))];
    ReflessConcat(head, BlockBody(pool, s.body, at, c));
    ReflessConcat(head + BlockBody(pool, s.body, at, c), [Jump(At(base))]);
    WhileBody(pool, s, base, c);
  }

  lemma {:induction false} ReflessDo(pool: seq<Num>, s: Stmt, base: int, c: Context)
    requires s.DoLoop?
    ensures Refless(Body(pool, s, base, c))
    decreases s, 0
  {
    hide Refless, Ops, PlainOps, Size, BlockBody;
    var end := base + Size(s);
    var at, inner := base + TestSize(s.entry), c.(doExit := At(end), doFors := c.fors);
    if s.entry.Some? { ReflessTest(pool, s.entry.value, At(end)); } else { ReflessNone(); }
    ReflessBlock(pool, s.body, at, inner);
    if s.until.Some? { ReflessTest(pool, s.until.value, At(base)); } else { ReflessJump(Jump(At(base))); }
    ReflessConcat(EntryCode(pool, s.entry, At(end)), BlockBody(pool, s.body, at, inner));
    ReflessConcat(EntryCode(pool, s.entry, At(end)) + BlockBody(pool, s.body, at, inner), BackCode(pool, s.until,
        base));
  }

  lemma {:induction false} ReflessNone()
    ensures Refless([])
  {}

  lemma {:induction false} ReflessBlock(pool: seq<Num>, b: Block, base: int, c: Context)
    ensures Refless(BlockBody(pool, b, base, c))
    decreases b, 1
  {
    hide Refless, Body;
    if b.Nil? { ReflessNone(); }
    else {
      ReflessBody(pool, b.head, base, c);
      ReflessBlock(pool, b.tail, base + Size(b.head), c);
      ReflessConcat(Body(pool, b.head, base, c), BlockBody(pool, b.tail, base + Size(b.head), c));
    }
  }

  lemma {:induction false} ReflessArms(pool: seq<Num>, a: Arms, base: int, end: int, c: Context)
    ensures Refless(ArmsBody(pool, a, base, end, c))
    decreases a, 1
  {
    hide Refless, BlockBody, Ops, PlainOps, BlockSize;
    ReflessNone();
    match a
    case Arm(test, body, rest) =>
      var at := base + CodeLength(test) + 1;
      var next := at + BlockSize(body) + if Final(rest) then 0 else 1;
      ReflessTest(pool, test, At(next));
      ReflessBlock(pool, body, at, c);
      ReflessArms(pool, rest, next, end, c);
      ReflessJump(Jump(At(end)));
      ReflessConcat([Jump(At(end))], ArmsBody(pool, rest, next, end, c));
      ReflessConcat(PlainOps(Ops(pool, test)) + [Unless(At(next))], BlockBody(pool, body, at, c));
      ReflessConcat(PlainOps(Ops(pool, test)) + [Unless(At(next))] + BlockBody(pool, body, at, c),
                    if Final(rest) then [] else [Jump(At(end))] + ArmsBody(pool, rest, next, end, c));
    case Otherwise(other) => if other.Some? { ReflessBlock(pool, other.value, base, c); }
  }

  lemma {:induction false} ReflessClauses(pool: seq<Num>, cs: Clauses, base: int, end: int, c: Context)
    ensures Refless(ClausesBody(pool, cs, base, end, c))
    decreases cs, 1
  {
    hide Refless, BlockBody, Clause, BlockSize, LiteralsSize;
    match cs
    case When(items, body, rest) =>
      var at := base + LiteralsSize(items) + 2;
      var next := at + BlockSize(body) + 1;
      ItemsSize(pool, items);
      ReflessClause(pool, items, base, At(next));
      ReflessBlock(pool, body, at, c);
      ReflessClauses(pool, rest, next, end, c);
      ReflessJump(Jump(At(end)));
      ReflessConcat([Jump(At(end))], ClausesBody(pool, rest, next, end, c));
      ReflessConcat(Clause(ItemsOf(pool, items), base, At(next)), BlockBody(pool, body, at, c));
      ReflessConcat(Clause(ItemsOf(pool, items), base, At(next)) + BlockBody(pool, body, at, c),
                    [Jump(At(end))] + ClausesBody(pool, rest, next, end, c));
    case Rest(other) =>
      ReflessOne(Simple(Drop));
      assert [Plain(Simple(Drop))] + [] == [Plain(Simple(Drop))];
      if other.Some? {
        ReflessBlock(pool, other.value, base + 1, c);
        ReflessConcat([Plain(Simple(Drop))], BlockBody(pool, other.value, base + 1, c));
      }
  }

  lemma {:induction false} ReflessSelect(pool: seq<Num>, s: Stmt, base: int, c: Context)
    requires s.SelectCase?
    ensures Refless(Body(pool, s, base, c))
    decreases s, 0
  {
    hide Refless, Ops, PlainOps, ClausesBody, Size;
    OpsEmitted(pool, s.e);
    ReflessPlain(Ops(pool, s.e));
    ReflessClauses(pool, s.clauses, base + CodeLength(s.e), base + Size(s), c);
    ReflessConcat(PlainOps(Ops(pool, s.e)), ClausesBody(pool, s.clauses, base + CodeLength(s.e), base + Size(s), c));
  }

  // ---------- the compiled program ----------

  const TOP := Context(At(-1), At(-1), 0, 0)

  function RowsOf(ts: seq<Statement>): (r: seq<Row>)
    ensures |r| == |ts| && forall k :: 0 <= k < |ts| ==> r[k] == Of(ts[k])
  {
    seq(|ts|, k requires 0 <= k < |ts| => Of(ts[k]))
  }

  /** What the one-pass compiler leaves in the code array for the program `b`. */
  function Compiled(pool: seq<Num>, b: Block): Option<seq<Op>> {
    var d := CompileRows(true, EMPTY, RowsOf(WrittenBlock(pool, b)));
    if d.None? || Finish(d.value).None? then None
    else Some(Backpatch.LinkedProgram(d.value.lines, Finish(d.value).value))
  }

  lemma {:induction false} RowsAreStatements(d: Draft, ts: seq<Statement>)
    ensures CompileRows(true, d, RowsOf(ts)) == CompileAll(d, ts)
    decreases |ts|
  {
    hide Compile;
    if ts != [] {
      assert RowsOf(ts)[0] == Of(ts[0]) && RowsOf(ts)[1..] == RowsOf(ts[1..]);
      var p := Compile(true, d, ts[0], 0);
      if p.Some? { RowsAreStatements(p.value, ts[1..]); }
    }
  }

  /** The code of the tree, and the HALT that is added unless one is already last. */
  function Whole(pool: seq<Num>, b: Block): seq<Sym> {
    var code := BlockBody(pool, b, 0, TOP);
    code + if EndsInHalt(code) then [] else [Plain(Simple(Halt))]
  }

  lemma {:induction false} CompiledIsWhole(pool: seq<Num>, b: Block)
    requires BlockShaped(b) && Compiled(pool, b).Some?
    ensures CodeAt(Compiled(pool, b).value, 0, Whole(pool, b)) && |Compiled(pool, b).value| == |Whole(pool, b)|
    ensures Refless(Whole(pool, b))
  {
    hide CompileAll, BlockBody, WrittenBlock, CompileRows;
    RowsAreStatements(EMPTY, WrittenBlock(pool, b));
    ProgramCompiles(pool, b);
    var code := BlockBody(pool, b, 0, TOP);
    ReflessBlock(pool, b, 0, TOP);
    ReflessOne(Simple(Halt));
    ReflessNone();
    ReflessConcat(code, if EndsInHalt(code) then [] else [Plain(Simple(Halt))]);
    assert code + [] == code;
    LinkedIsLowered(Whole(pool, b));
  }

  lemma {:induction false} LinkedIsLowered(code: seq<Sym>)
    requires Refless(code)
    ensures CodeAt(Backpatch.LinkedProgram([], code), 0, code)
  {
    hide Emitted;
    forall k | 0 <= k < |code| ensures Backpatch.LinkedProgram([], code)[0 + k] == Lower(code[k]) {
      LoweredIsLinked(code[k]);
    }
  }

  lemma {:induction false} LoweredIsLinked(s: Sym)
    requires s.Plain? ==> Emitted(s.op)
    ensures Backpatch.LinkedSym([], s) == Lower(s)
  {}

  /** The compiler's own output is what the optimizer expects. */
  lemma {:induction false} CompiledIsUnfused(p: Optimizer.Program, b: Block)
    requires BlockShaped(b) && Compiled(p.pool, b).Some?
    ensures OptimizerProof.Unfused(p, Compiled(p.pool, b).value)
  {
    hide Decode, Compiled, Whole, CodeAt, Emitted, Refless, Justification.FusedInstr;
    CompiledIsWhole(p.pool, b);
    var prog, code := Compiled(p.pool, b).value, Whole(p.pool, b);
    forall k | 0 <= k < |prog| ensures !Justification.FusedInstr(Decode(p.pool, prog[k])) &&
      (prog[k].code == PushNum ==> prog[k].a >= 0) {
      LoweredAt(prog, code, k);
      LoweredIsUnfused(p.pool, code, k);
    }
  }

  lemma {:induction false} LoweredAt(prog: seq<Op>, code: seq<Sym>, k: nat)
    requires CodeAt(prog, 0, code) && k < |code|
    ensures prog[k] == Lower(code[k])
  {
    assert prog[0 + k] == Lower(code[k]);
  }

  lemma {:induction false} LoweredIsUnfused(pool: seq<Num>, code: seq<Sym>, k: nat)
    requires Refless(code) && k < |code|
    ensures var op := Lower(code[k]); !Justification.FusedInstr(Decode(pool, op)) && (op.code == PushNum ==> op.a >= 0)
  {
    hide Decode, Justification.FusedInstr;
    assert code[k].Plain? ==> Emitted(code[k].op);
    NotFused(pool, Lower(code[k]));
  }

  // ---------- whole runs ----------

  /** How a run that has stopped shows what the program means. */
  predicate Agrees(o: Outcome, r: Result) {
    match r
    case Normal(w) => o.Done? && WorldOf(o.end) == w
    case Halted(w) => o.Done? && WorldOf(o.end) == w
    case Stuck(w) => o == Failed(LeftBy(w))
    case _ => false
  }

  /** The program's own last operation is a HALT, so none was added. */
  predicate SharesHalt(pool: seq<Num>, b: Block) { EndsInHalt(BlockBody(pool, b, 0, TOP)) }

  /** What the machine makes of a settled meaning: the meaning itself, except that a program to which
      no HALT was added fails where the meaning reaches its end. */
  predicate Tallies(pool: seq<Num>, b: Block, o: Outcome, r: Result) {
    if SharesHalt(pool, b) && r.Normal? then o == Failed(LeftBy(r.s)) else Agrees(o, r)
  }

  /** A machine at the start of a program, whatever it has on its stack. */
  predicate Starting(st: State) { st.pc == 0 && st.locals.None? && st.fors == [] && st.forBase == 0 }

  lemma {:induction false} AddedHaltRuns(m: Machine, b: Block, prog: seq<Op>, st: State, fuel: nat) returns (k: nat)
    requires Lawful(m.arith) && BlockFits(m, b, 0, false) && Starting(st) && !SharesHalt(m.pool, b)
    requires CodeAt(prog, 0, Whole(m.pool, b)) && |prog| == |Whole(m.pool, b)|
    ensures var r, o := RunBlock(m.arith, b, WorldOf(st), fuel), RunN(m, prog, Run(st), k);
            o == Overflow || (if r.Running? then o.Run? && k >= fuel else Agrees(o, r))
  {
    hide RunN, CodeAt, BlockBody, RunBlock, Lawful, BlockFits;
    SplitCode(prog, 0, BlockBody(m.pool, b, 0, TOP), [Plain(Simple(Halt))]);
    assert Set(m, prog, TOP, st, false);
    NoStrayBlock(m, b, 0, WorldOf(st), fuel);
    var r := RunBlock(m.arith, b, WorldOf(st), fuel);
    k := BlockRuns(m, prog, b, TOP, st, false, fuel);
    if r.Normal? {
      NormalRuns(m, prog, st, k, r.s, BlockSize(b), TOP, fuel);
      HaltRuns(m, prog, Land(st, r.s, BlockSize(b)));
      ThenRun(m, prog, st, k, Land(st, r.s, BlockSize(b)), 1);
      k := k + 1;
    }
  }

  lemma {:induction false} CodeLonger(prog: seq<Op>, x: Op, code: seq<Sym>)
    requires CodeAt(prog, 0, code)
    ensures CodeAt(prog + [x], 0, code)
  {
    forall k | 0 <= k < |code| ensures (prog + [x])[0 + k] == Lower(code[k]) { assert prog[0 + k] == Lower(code[k]); }
  }

  /** With one more operation after it, the program has somewhere to run off to. */
  lemma {:induction false} LongerRuns(m: Machine, b: Block, prog: seq<Op>, x: Op, st: State, fuel: nat) returns (k: nat)
    requires Lawful(m.arith) && BlockFits(m, b, 0, false) && Starting(st)
    requires CodeAt(prog, 0, BlockBody(m.pool, b, 0, TOP)) && |prog| == BlockSize(b)
    ensures var r, o := RunBlock(m.arith, b, WorldOf(st), fuel), RunN(m, prog + [x], Run(st), k);
            o == Overflow ||
            if r.Running? then o.Run? && k >= fuel else if r.Normal? then o == Run(Land(st, r.s, |prog|))
                else Agrees(o, r)
  {
    hide RunN, CodeAt, BlockBody, RunBlock, Lawful, BlockFits;
    CodeLonger(prog, x, BlockBody(m.pool, b, 0, TOP));
    assert Set(m, prog + [x], TOP, st, false);
    NoStrayBlock(m, b, 0, WorldOf(st), fuel);
    k := BlockRuns(m, prog + [x], b, TOP, st, false, fuel);
  }

  lemma {:induction false} SharedHaltRuns(m: Machine, b: Block, prog: seq<Op>, st: State, fuel: nat) returns (k: nat)
    requires Lawful(m.arith) && BlockFits(m, b, 0, false) && Starting(st) && SharesHalt(m.pool, b)
    requires CodeAt(prog, 0, BlockBody(m.pool, b, 0, TOP)) && |prog| == BlockSize(b)
    requires !RunBlock(m.arith, b, WorldOf(st), fuel).Running?
    ensures var o := RunN(m, prog, Run(st), k); o == Overflow || Tallies(m.pool, b, o, RunBlock(m.arith, b, WorldOf(st), fuel))
  {
    hide RunN, CodeAt, BlockBody, RunBlock, Lawful, BlockFits;
    k := LongerRuns(m, b, prog, Extension.Spin(prog), st, fuel);
    Extension.LeavesAndFails(m, prog, st, k);
    if RunBlock(m.arith, b, WorldOf(st), fuel).Normal? && RunN(m, prog + [Extension.Spin(prog)], Run(st), k).Run? {
      k := k + 1;
    }
  }

  /** If the machine stops, fuel enough settles the meaning. */
  lemma {:induction false} SharedHaltSettles(m: Machine, b: Block, prog: seq<Op>, st: State, n: nat)
    requires Lawful(m.arith) && BlockFits(m, b, 0, false) && Starting(st)
    requires CodeAt(prog, 0, BlockBody(m.pool, b, 0, TOP)) && |prog| == BlockSize(b)
    requires !RunN(m, prog, Run(st), n).Run? && RunN(m, prog, Run(st), n) != Overflow
    ensures !RunBlock(m.arith, b, WorldOf(st), n + 2).Running?
  {
    hide RunN, CodeAt, BlockBody, RunBlock, Lawful, BlockFits;
    var k := LongerRuns(m, b, prog, Simple(Halt), st, n + 2);
    if RunBlock(m.arith, b, WorldOf(st), n + 2).Running? {
      if RunN(m, prog + [Simple(Halt)], Run(st), k).Run? {
        Extension.StaysInside(m, prog, st, k - 1);
        OneOutcome(m, prog, st, n, k - 1);
      } else {
        Extension.OverflowsInside(m, prog, st, k);
        SameOutcome(m, prog, st, n, k);
      }
    }
  }

  lemma {:induction false} OneOutcome(m: Machine, prog: seq<Op>, st: State, j: nat, k: nat)
    requires !RunN(m, prog, Run(st), j).Run? && j <= k
    ensures RunN(m, prog, Run(st), k) == RunN(m, prog, Run(st), j)
  {
    RunAdds(m, prog, Run(st), j, k - j);
    OptimizerProof.StoppedStays(m, prog, RunN(m, prog, Run(st), j), k - j);
  }

  lemma {:induction false} SameOutcome(m: Machine, prog: seq<Op>, st: State, j: nat, k: nat)
    requires !RunN(m, prog, Run(st), j).Run? && !RunN(m, prog, Run(st), k).Run?
    ensures RunN(m, prog, Run(st), k) == RunN(m, prog, Run(st), j)
  {
    hide RunN;
    if j <= k { OneOutcome(m, prog, st, j, k); } else { OneOutcome(m, prog, st, k, j); }
  }

  lemma {:induction false} SharedIsBody(pool: seq<Num>, b: Block)
    requires SharesHalt(pool, b)
    ensures Whole(pool, b) == BlockBody(pool, b, 0, TOP)
  {}

  lemma {:induction false} SettledRuns(m: Machine, b: Block, st: State, fuel: nat) returns (k: nat)
    requires BlockShaped(b) && Compiled(m.pool, b).Some? && Lawful(m.arith) && BlockFits(m, b, 0, false) && Starting(st)
    requires !RunBlock(m.arith, b, WorldOf(st), fuel).Running?
    ensures var o := RunN(m, Compiled(m.pool, b).value, Run(st), k);
            o == Overflow || Tallies(m.pool, b, o, RunBlock(m.arith, b, WorldOf(st), fuel))
  {
    hide RunN, RunBlock, Compiled, Whole, Lawful, CodeAt, BlockFits, BlockBody;
    CompiledIsWhole(m.pool, b);
    var prog := Compiled(m.pool, b).value;
    if SharesHalt(m.pool, b) {
      SharedIsBody(m.pool, b);
      k := SharedHaltRuns(m, b, prog, st, fuel);
    } else {
      k := AddedHaltRuns(m, b, prog, st, fuel);
    }
  }

  lemma {:induction false} StoppedIsSettled(m: Machine, b: Block, st: State, n: nat)
    requires BlockShaped(b) && Compiled(m.pool, b).Some? && Lawful(m.arith) && BlockFits(m, b, 0, false) && Starting(st)
    requires var o := RunN(m, Compiled(m.pool, b).value, Run(st), n); !o.Run? && o != Overflow
    ensures !RunBlock(m.arith, b, WorldOf(st), n + 2).Running?
  {
    hide RunN, RunBlock, Compiled, Whole, Lawful, CodeAt, BlockFits, BlockBody;
    CompiledIsWhole(m.pool, b);
    var prog := Compiled(m.pool, b).value;
    if SharesHalt(m.pool, b) {
      SharedIsBody(m.pool, b);
      SharedHaltSettles(m, b, prog, st, n);
    } else {
      var k := AddedHaltRuns(m, b, prog, st, n + 2);
      if k >= n { OneOutcome(m, prog, st, n, k); } else { SameOutcome(m, prog, st, n, k); }
    }
  }

  // ---------- the theorems ----------

  /** Every structured program, compiled, runs as it means: with whatever fuel the meaning is
      settled, the machine stops in agreement with it or for want of stack; only where no HALT was
      added and the meaning reaches the end does it stop with a failure instead. */
  lemma {:induction false} CompiledRunsAsMeant(m: Machine, b: Block, st: State, fuel: nat)
    requires BlockShaped(b) && Compiled(m.pool, b).Some? && Lawful(m.arith) && BlockFits(m, b, 0, false) && Starting(st)
    requires !RunBlock(m.arith, b, WorldOf(st), fuel).Running?
    ensures var prog, r := Compiled(m.pool, b).value, RunBlock(m.arith, b, WorldOf(st), fuel);
            Ends(m, prog, st, Overflow) || exists o :: Ends(m, prog, st, o) && Tallies(m.pool, b, o, r)
  {
    hide RunN, RunBlock, Compiled, Lawful, BlockFits, SharesHalt;
    var k := SettledRuns(m, b, st, fuel);
    var o := RunN(m, Compiled(m.pool, b).value, Run(st), k);
    assert Ends(m, Compiled(m.pool, b).value, st, o);
  }

  /** So the machine agrees with the meaning if and only if it is not the case that the program shares
      its last HALT and the meaning reaches the end. */
  lemma {:induction false} AgreesUnlessHaltIsShared(m: Machine, b: Block, st: State, fuel: nat)
    requires BlockShaped(b) && Compiled(m.pool, b).Some? && Lawful(m.arith) && BlockFits(m, b, 0, false) && Starting(st)
    requires !RunBlock(m.arith, b, WorldOf(st), fuel).Running? && !Ends(m, Compiled(m.pool, b).value, st, Overflow)
    ensures var prog, r := Compiled(m.pool, b).value, RunBlock(m.arith, b, WorldOf(st), fuel);
            (exists o :: Ends(m, prog, st, o) && Agrees(o, r)) <==> !(SharesHalt(m.pool, b) && r.Normal?)
  {
    hide RunN, RunBlock, Compiled, Lawful, BlockFits, SharesHalt;
    var prog, r := Compiled(m.pool, b).value, RunBlock(m.arith, b, WorldOf(st), fuel);
    CompiledRunsAsMeant(m, b, st, fuel);
    var o :| Ends(m, prog, st, o) && Tallies(m.pool, b, o, r);
    forall e | Ends(m, prog, st, e) ensures e == o { OneEnd(m, prog, st, e, o); }
  }

  lemma {:induction false} OneEnd(m: Machine, prog: seq<Op>, st: State, o: Outcome, e: Outcome)
    requires Ends(m, prog, st, o) && Ends(m, prog, st, e)
    ensures o == e
  {
    hide RunN;
    var j: nat :| RunN(m, prog, Run(st), j) == o;
    var k: nat :| RunN(m, prog, Run(st), k) == e;
    SameOutcome(m, prog, st, j, k);
  }

  /** And the other way round: whenever the machine stops, other than for want of stack, the
      meaning is settled and tallies. */
  lemma {:induction false} WhatRunsIsMeant(m: Machine, b: Block, st: State, o: Outcome) returns (fuel: nat)
    requires BlockShaped(b) && Compiled(m.pool, b).Some? && Lawful(m.arith) && BlockFits(m, b, 0, false) && Starting(st)
    requires Ends(m, Compiled(m.pool, b).value, st, o) && o != Overflow
    ensures !RunBlock(m.arith, b, WorldOf(st), fuel).Running? &&
        Tallies(m.pool, b, o, RunBlock(m.arith, b, WorldOf(st), fuel))
  {
    hide RunN, RunBlock, Compiled, Lawful, BlockFits, SharesHalt, Tallies;
    var prog := Compiled(m.pool, b).value;
    var n: nat :| RunN(m, prog, Run(st), n) == o;
    fuel := n + 2;
    StoppedIsSettled(m, b, st, n);
    var k := SettledRuns(m, b, st, fuel);
    TalliedIsStopped(m.pool, b, RunN(m, prog, Run(st), k), RunBlock(m.arith, b, WorldOf(st), fuel));
    SameOutcome(m, prog, st, n, k);
  }

  lemma {:induction false} TalliedIsStopped(pool: seq<Num>, b: Block, o: Outcome, r: Result)
    ensures Tallies(pool, b, o, r) ==> !o.Run?
  {}

  /** A program whose last statement is END never reaches its end, so it always agrees. */
  lemma {:induction false} EndNeverNormal(a: Arith, b: Block, w: World, fuel: nat)
    requires LastIsEnd(b)
    ensures !RunBlock(a, b, w, fuel).Normal?
    decreases b
  {
    hide RunStmt;
    if b.tail.Cons? {
      var r := RunStmt(a, b.head, w, fuel);
      if r.Normal? { EndNeverNormal(a, b.tail, r.s, fuel); }
    } else {
      JustHalts(a, b.head, w, fuel);
    }
  }

  predicate LastIsEnd(b: Block) { b.Cons? && if b.tail.Nil? then b.head.End? else LastIsEnd(b.tail) }

  lemma {:induction false} JustHalts(a: Arith, s: Stmt, w: World, fuel: nat)
    requires s.End?
    ensures RunStmt(a, s, w, fuel) == Halted(w)
  {}

  /** So such a program always agrees. */
  lemma {:induction false} EndedProgramAgrees(m: Machine, b: Block, st: State, fuel: nat)
    requires BlockShaped(b) && Compiled(m.pool, b).Some? && Lawful(m.arith) && BlockFits(m, b, 0, false) && Starting(st)
    requires !RunBlock(m.arith, b, WorldOf(st), fuel).Running? && !Ends(m, Compiled(m.pool, b).value, st, Overflow)
    requires LastIsEnd(b)
    ensures exists o :: Ends(m, Compiled(m.pool, b).value, st, o) && Agrees(o, RunBlock(m.arith, b, WorldOf(st), fuel))
  {
    hide RunBlock, Compiled, Lawful, BlockFits, SharesHalt, Ends, LastIsEnd;
    AgreesUnlessHaltIsShared(m, b, st, fuel);
    EndNeverNormal(m.arith, b, WorldOf(st), fuel);
  }

  // ---------- with room on the stack ----------

  /** A program compiled from `b` never overflows a stack with `BlockNeed(b)` cells to spare. */
  lemma {:induction false} NeverOverflows(m: Machine, b: Block, st: State)
    requires BlockShaped(b) && Compiled(m.pool, b).Some? && Starting(st)
    requires |st.stack| + StackNeed.BlockNeed(b) <= m.limit
    ensures !Ends(m, Compiled(m.pool, b).value, st, Overflow)
  {
    hide RunN, Compiled, CodeAt, BlockBody, Whole, StackNeed.BlockNeed;
    CompiledIsWhole(m.pool, b);
    var prog := Compiled(m.pool, b).value;
    WholeParts(m.pool, prog, b);
    if Ends(m, prog, st, Overflow) {
      var n: nat :| RunN(m, prog, Run(st), n) == Overflow;
      var ds := StackNeed.NeedIsEnough(m, prog, b, TOP, st, n);
    }
  }

  lemma {:induction false} WholeParts(pool: seq<Num>, prog: seq<Op>, b: Block)
    requires CodeAt(prog, 0, Whole(pool, b)) && |prog| == |Whole(pool, b)|
    ensures CodeAt(prog, 0, BlockBody(pool, b, 0, TOP)) && BlockSize(b) <= |prog| <= BlockSize(b) + 1
    ensures |prog| == BlockSize(b) + 1 ==> prog[BlockSize(b)] == Simple(Halt)
  {
    hide CodeAt, BlockBody, EndsInHalt;
    var code := BlockBody(pool, b, 0, TOP);
    var halt := if EndsInHalt(code) then [] else [Plain(Simple(Halt))];
    SplitCode(prog, 0, code, halt);
    if halt != [] { OneCode(prog, BlockSize(b), Plain(Simple(Halt))); }
  }

  // ---------- the optimized program ----------

  /** A machine and symbol table for the optimizer's program, and a compiled tree free of aliasing. */
  ghost predicate Optimizable(p: Optimizer.Program, m: Machine, b: Block) {
    BlockShaped(b) && Compiled(m.pool, b).Some? && Lawful(m.arith) && BlockFits(m, b, 0, false) &&
    m.pool == p.pool && m.symbols == |p.symbolIsString| <= 64 &&
        OptimizerProof.RawAliasFree(p, Compiled(m.pool, b).value)
  }

  lemma {:induction false} OptimizedStopsAlike(p: Optimizer.Program, m: Machine, b: Block, st: State)
    requires Optimizable(p, m, b)
    ensures OptimizerProof.StopAlike(m, Compiled(m.pool, b).value, Optimizer.Optimized(p, Compiled(m.pool, b).value),
        st)
  {
    hide Compiled, Optimizer.Optimized, Lawful, BlockFits, OptimizerProof.Unfused, OptimizerProof.RawAliasFree,
        OptimizerProof.StopAlike;
    CompiledIsUnfused(p, b);
    OptimizerProof.OptimizerPreservesMeaning(p, m, Compiled(m.pool, b).value, st);
  }

  /** Compiled and optimized, the program still runs as it means, unless the unoptimized one needs
      more stack than there is. */
  lemma {:induction false} OptimizedRunsAsMeant(p: Optimizer.Program, m: Machine, b: Block, st: State, fuel: nat)
    requires Optimizable(p, m, b) && Starting(st) && !RunBlock(m.arith, b, WorldOf(st), fuel).Running?
    ensures var raw, r := Compiled(m.pool, b).value, RunBlock(m.arith, b, WorldOf(st), fuel);
            Ends(m, raw, st, Overflow) || exists o :: Ends(m, Optimizer.Optimized(p, raw), st, o) && Tallies(m.pool, b, o, r)
  {
    hide Compiled, Optimizer.Optimized, RunBlock, Lawful, BlockFits, OptimizerProof.RawAliasFree, Ends, Tallies;
    var raw, r := Compiled(m.pool, b).value, RunBlock(m.arith, b, WorldOf(st), fuel);
    OptimizedStopsAlike(p, m, b, st);
    CompiledRunsAsMeant(m, b, st, fuel);
    if !Ends(m, raw, st, Overflow) {
      var o :| Ends(m, raw, st, o) && Tallies(m.pool, b, o, r);
      assert Ends(m, Optimizer.Optimized(p, raw), st, o);
    }
  }

  /** And whatever the optimized program stops with is what was meant, with the same exception. */
  lemma {:induction false} WhatOptimizedRunsIsMeant(
      p: Optimizer.Program, m: Machine, b: Block, st: State, o: Outcome) returns (fuel: nat)
    requires Optimizable(p, m, b) && Starting(st) && Ends(m, Optimizer.Optimized(p, Compiled(m.pool, b).value), st, o)
    ensures Ends(m, Compiled(m.pool, b).value, st, Overflow) ||
            (!RunBlock(m.arith, b, WorldOf(st), fuel).Running? &&
                Tallies(m.pool, b, o, RunBlock(m.arith, b, WorldOf(st), fuel)))
  {
    hide Compiled, Optimizer.Optimized, RunBlock, Lawful, BlockFits, OptimizerProof.RawAliasFree, Ends, Tallies;
    OptimizedStopsAlike(p, m, b, st);
    fuel := 0;
    if !Ends(m, Compiled(m.pool, b).value, st, Overflow) {
      fuel := WhatRunsIsMeant(m, b, st, o);
    }
  }

  /** With room on the stack nothing is left open: the optimized program stops exactly where the
      unoptimized one does, stops whenever the meaning is settled, and then with that meaning. */
  lemma {:induction false} OptimizedIsExactWithRoom(p: Optimizer.Program, m: Machine, b: Block, st: State)
    requires Optimizable(p, m, b) && Starting(st) && |st.stack| + StackNeed.BlockNeed(b) <= m.limit
    ensures var raw := Compiled(m.pool, b).value;
            forall o :: Ends(m, raw, st, o) <==> Ends(m, Optimizer.Optimized(p, raw), st, o)
    ensures forall o :: Ends(m, Optimizer.Optimized(p, Compiled(m.pool, b).value), st, o) ==> Settles(m, b, st, o)
    ensures forall fuel: nat :: !RunBlock(m.arith, b, WorldOf(st), fuel).Running? ==>
              exists o :: Ends(m, Optimizer.Optimized(p, Compiled(m.pool, b).value), st, o) &&
                          Tallies(m.pool, b, o, RunBlock(m.arith, b, WorldOf(st), fuel))
  {
    hide Compiled, Optimizer.Optimized, RunBlock, Lawful, BlockFits, OptimizerProof.RawAliasFree, Ends, Tallies,
        StackNeed.BlockNeed;
    NeverOverflows(m, b, st);
    OptimizedStopsAlike(p, m, b, st);
    var opt := Optimizer.Optimized(p, Compiled(m.pool, b).value);
    forall o | Ends(m, opt, st, o) ensures Settles(m, b, st, o) {
      var fuel := WhatOptimizedRunsIsMeant(p, m, b, st, o);
    }
    forall fuel: nat | !RunBlock(m.arith, b, WorldOf(st), fuel).Running?
      ensures exists o :: Ends(m, opt, st, o) && Tallies(m.pool, b, o, RunBlock(m.arith, b, WorldOf(st), fuel))
    {
      OptimizedRunsAsMeant(p, m, b, st, fuel);
    }
  }

  /** With fuel enough the meaning is settled, and `o` is what the machine makes of it. */
  ghost predicate Settles(m: Machine, b: Block, st: State, o: Outcome) {
    exists fuel: nat :: !RunBlock(m.arith, b, WorldOf(st), fuel).Running? &&
                        Tallies(m.pool, b, o, RunBlock(m.arith, b, WorldOf(st), fuel))
  }

  // ---------- where the trailing HALT is shared ----------

  /** IF A THEN END, and nothing after it. */
  const SHARED := Cons(OneLine(G(0), End, None), Nil)

  lemma {:induction false} SharedCode(pool: seq<Num>)
    ensures Whole(pool, SHARED) == [Plain(Op(LoadNum, 0, 0, 0, 0)), Unless(At(3)), Plain(Simple(Halt))]
    ensures SharesHalt(pool, SHARED) && BlockShaped(SHARED)
  {
    var load := Op(LoadNum, 0, 0, 0, 0);
    assert Ops(pool, G(0)) == [load] && PlainOps([load]) == [Plain(load)];
    assert PlainOps(SimpleOps(pool, End)) == [Plain(Simple(Halt))] by { HaltOps(pool, End); }
    var body := Body(pool, SHARED.head, 0, TOP);
    assert body == [Plain(load)] + [Unless(At(3))] + [Plain(Simple(Halt))];
    assert BlockBody(pool, SHARED, 0, TOP) == body + [] == body;
    assert body == [Plain(load), Unless(At(3)), Plain(Simple(Halt))];
  }

  lemma {:induction false} LoadDispatch(m: Machine, prog: seq<Op>, st: State, a: int)
    ensures StepInstr(m, prog, st, Decode(m.pool, Op(LoadNum, 0, 0, a, 0))) == StepLoad(m, st, Global(a))
  {
    hide StepLoad;
  }

  /** Zero is loaded, and the jump taken on it leaves the program. */
  lemma {:induction false} SharedStops(m: Machine, prog: seq<Op>, st: State)
    requires Lawful(m.arith) && m.symbols > 0 && |st.stack| < m.limit && Starting(st) && st.globals == map[] && |prog| == 3
    requires CodeAt(prog, 0, [Plain(Op(LoadNum, 0, 0, 0, 0))]) && CodeAt(prog, 1, [Unless(At(3))])
    ensures RunN(m, prog, Run(st), 2) == Failed(Leaves(st))
  {
    hide StepInstr, Decode, RunN, CodeAt;
    StepAt(m, prog, Plain(Op(LoadNum, 0, 0, 0, 0)), st);
    LoadDispatch(m, prog, st, 0);
    var mid := Pushed(st, 1, ZERO);
    assert RunN(m, prog, Run(st), 1) == Run(mid);
    StepAt(m, prog, Unless(At(3)), mid);
    JzDispatch(m, prog, mid, 3);
    RunAdds(m, prog, Run(st), 1, 1);
  }

  /** The compiler does leave that code: the jump leads past the last operation, and no HALT is added. */
  lemma {:induction false} SharedCompiles(pool: seq<Num>)
    ensures Compiled(pool, SHARED).Some?
  {
    hide Compile, CompileRow;
    var load, halt := Op(LoadNum, 0, 0, 0, 0), Statement.Straight([Simple(Halt)]);
    var t := InlineIf([load], halt, None);
    assert WrittenBlock(pool, SHARED) == [t] by {
      assert Ops(pool, G(0)) == [load];
      assert Line(pool, End) == halt by { assert SimpleOps(pool, End) == [Simple(Halt)]; }
      assert Line(pool, SHARED.head) == t;
      assert Written(pool, SHARED.head) == [t];
      assert WrittenBlock(pool, Nil) == [] && [t] + [] == [t];
    }
    RowsAreStatements(EMPTY, [t]);
    CompileOne(EMPTY, t);
    Targets.IfThenEndCompiles();
    var code := [Plain(load), Unless(At(3)), Plain(Simple(Halt))];
    assert CompileAll(EMPTY, [t]) == Some(EMPTY.(code := code));
    assert EndsInHalt(code) && Finish(EMPTY.(code := code)) == Some(code);
  }

  /** With A zero the program means to finish quietly, and the machine reports a bad jump. */
  lemma {:induction false} SharedHaltFails(m: Machine, st: State)
    requires Lawful(m.arith) && m.symbols > 0 && |st.stack| < m.limit && Starting(st) && st.globals == map[]
    ensures Compiled(m.pool, SHARED).Some?
    ensures Ends(m, Compiled(m.pool, SHARED).value, st, Failed(Leaves(st)))
    ensures forall fuel: nat :: RunBlock(m.arith, SHARED, WorldOf(st), fuel) == Normal(WorldOf(st))
  {
    hide RunN, CodeAt, Compiled;
    SharedCompiles(m.pool);
    CompiledIsWhole(m.pool, SHARED);
    var prog := Compiled(m.pool, SHARED).value;
    SharedCode(m.pool);
    var load, jump, halt := [Plain(Op(LoadNum, 0, 0, 0, 0))], [Unless(At(3))], [Plain(Simple(Halt))];
    assert Whole(m.pool, SHARED) == load + (jump + halt);
    SplitCode(prog, 0, load, jump + halt);
    SplitCode(prog, 1, jump, halt);
    SharedStops(m, prog, st);
    forall fuel: nat ensures RunBlock(m.arith, SHARED, WorldOf(st), fuel) == Normal(WorldOf(st)) {
      SharedMeans(m.arith, WorldOf(st), fuel);
    }
  }

  lemma {:induction false} SharedMeans(a: Arith, w: World, fuel: nat)
    requires Lawful(a) && w.vars == map[]
    ensures RunBlock(a, SHARED, w, fuel) == Normal(w)
  {
    assert Valued(a, w, G(0)) == Some(ZERO);
    assert RunStmt(a, SHARED.head, w, fuel) == Normal(w);
    assert RunBlock(a, Nil, w, fuel) == Normal(w);
  }
}
