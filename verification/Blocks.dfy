/** Structured programs as trees, the statements they are written as, and the code each tree stands
    for, with every jump target computed from sizes alone. */
module Blocks {
  import opened Wrappers
  import opened Il
  import opened Statements
  import opened Labels

  datatype Literals = OneOf(v: Num) | Between(low: Num, high: Num)

  datatype Stmt =
    | Let(slot: int, e: Expr)
    | SetColor(r: Expr, g: Expr, b: Expr)
    | SetPixel(x: Expr, y: Expr)
    | End
    | LeaveFor
    | LeaveDo
    | OneLine(test: Expr, yes: Stmt, no: Option<Stmt>)
    | Choose(arms: Arms)
    | ForLoop(slot: int, first: Expr, limit: Expr, step: Expr, body: Block, named: bool)
    | WhileLoop(test: Expr, body: Block)
    | DoLoop(entry: Option<Expr>, body: Block, until: Option<Expr>)
    | SelectCase(e: Expr, clauses: Clauses)

  datatype Block = Nil | Cons(head: Stmt, tail: Block)

  /** IF .. ELSEIF .. ELSE: the arms in order, then the ELSE part if there is one. */
  datatype Arms = Arm(test: Expr, body: Block, rest: Arms) | Otherwise(other: Option<Block>)

  /** CASE .. CASE ELSE: the clauses in order, then the CASE ELSE part if there is one. */
  datatype Clauses = When(items: seq<Literals>, body: Block, rest: Clauses) | Rest(other: Option<Block>)

  /** What may follow THEN or ELSE on one line without opening a block. */
  predicate OneLiner(s: Stmt) {
    match s
    case OneLine(_, yes, no) => OneLiner(yes) && (no.Some? ==> OneLiner(no.value))
    case Let(_, _) => true
    case SetColor(_, _, _) => true
    case SetPixel(_, _) => true
    case End => true
    case LeaveFor => true
    case LeaveDo => true
    case _ => false
  }

  /** The shapes the parser can produce. */
  predicate Shaped(s: Stmt) {
    match s
    case OneLine(_, yes, no) => OneLiner(s)
    case Choose(arms) => arms.Arm? && ArmsShaped(arms)
    case ForLoop(_, _, _, _, body, _) => BlockShaped(body)
    case WhileLoop(_, body) => BlockShaped(body)
    case DoLoop(_, body, _) => BlockShaped(body)
    case SelectCase(_, clauses) => (clauses.When? || clauses.other.Some?) && ClausesShaped(clauses)
    case _ => true
  }

  predicate BlockShaped(b: Block) { b.Cons? ==> Shaped(b.head) && BlockShaped(b.tail) }

  predicate ArmsShaped(a: Arms) {
    match a
    case Arm(_, body, rest) => BlockShaped(body) && ArmsShaped(rest)
    case Otherwise(other) => other.Some? ==> BlockShaped(other.value)
  }

  predicate ClausesShaped(c: Clauses) {
    match c
    case When(items, body, rest) => items != [] && BlockShaped(body) && ClausesShaped(rest)
    case Rest(other) => other.Some? ==> BlockShaped(other.value)
  }

  // ---------- the code of expressions ----------

  /** Where the pool keeps a constant; past its end when it does not. */
  function IndexOf(pool: seq<Num>, v: Num): nat {
    if pool == [] || pool[0] == v then 0 else 1 + IndexOf(pool[1..], v)
  }

  function PushOf(pool: seq<Num>, v: Num): Op { Op(PushNum, 0, 0, IndexOf(pool, v), 0) }

  function LoadOf(pool: seq<Num>, x: Operand): Op {
    match x
    case Global(slot) => Op(LoadNum, 0, 0, slot, 0)
    case Local(slot) => Op(LoadLocalNum, 0, 0, slot, 0)
    case Literal(v) => PushOf(pool, v)
  }

  function BinCode(op: BinOp): Op {
    match op
    case Add => Simple(AddNum)
    case Sub => Simple(SubNum)
    case Mul => Simple(MulNum)
    case Div => Simple(DivNum)
    case Eq => Simple(CeqNum)
    case Ne => Simple(CneNum)
    case Lt => Simple(CltNum)
    case Le => Simple(CleNum)
    case Gt => Simple(CgtNum)
    case Ge => Simple(CgeNum)
    case And => Simple(AndNum)
    case Or => Simple(OrNum)
    case Min => Op(CallFn, 0, 0, FN_MIN, 2)
  }

  function Ops(pool: seq<Num>, e: Expr): (r: seq<Op>)
    ensures |r| == CodeLength(e)
  {
    match e
    case Leaf(x) => [LoadOf(pool, x)]
    case Bin(op, l, r) => Ops(pool, l) + Ops(pool, r) + [BinCode(op)]
  }

  // ---------- the statements a tree is written as ----------

  function ItemOf(pool: seq<Num>, l: Literals): Item {
    match l case OneOf(v) => One(PushOf(pool, v)) case Between(low, high) => Range(PushOf(pool, low), PushOf(pool,
        high))
  }

  function ItemsOf(pool: seq<Num>, items: seq<Literals>): (r: seq<Item>)
    ensures |r| == |items| && forall k :: 0 <= k < |items| ==> r[k] == ItemOf(pool, items[k])
  {
    seq(|items|, k requires 0 <= k < |items| => ItemOf(pool, items[k]))
  }

  function SimpleOps(pool: seq<Num>, s: Stmt): seq<Op> {
    match s
    case Let(slot, e) => Ops(pool, e) + [Op(StoreNum, 0, 0, slot, 0)]
    case SetColor(r, g, b) => Ops(pool, r) + Ops(pool, g) + Ops(pool, b) + [Op(CallFn, 0, 0, FN_COLOR, 3)]
    case SetPixel(x, y) => Ops(pool, x) + Ops(pool, y) + [Op(CallFn, 0, 0, FN_PSET, 2)]
    case _ => [Simple(Halt)]
  }

  function Line(pool: seq<Num>, s: Stmt): Statement {
    match s
    case OneLine(test, yes, no) =>
      InlineIf(Ops(pool, test), Line(pool, yes), if no.None? then None else Some(Line(pool, no.value)))
    case LeaveFor => ExitFor
    case LeaveDo => ExitDo
    case _ => Statement.Straight(SimpleOps(pool, s))
  }

  function TestOf(pool: seq<Num>, test: Option<Expr>): Option<seq<Op>> {
    if test.None? then None else Some(Ops(pool, test.value))
  }

  function Written(pool: seq<Num>, s: Stmt): seq<Statement> {
    match s
    case Choose(arms) => if arms.Arm? then [If(Ops(pool, arms.test))] + WrittenBlock(pool, arms.body)
        + WrittenArms(pool, arms.rest) + [EndIf] else []
    case ForLoop(slot, first, limit, step, body, named) =>
      [For(slot, Ops(pool, first), Ops(pool, limit), Ops(pool, step))] + WrittenBlock(pool, body)
          + [Next(if named then slot else -1)]
    case WhileLoop(test, body) => [While(Ops(pool, test))] + WrittenBlock(pool, body) + [Wend]
    case DoLoop(entry, body, until) => [Do(TestOf(pool, entry))] + WrittenBlock(pool, body) + [Loop(TestOf(pool,
        until))]
    case SelectCase(e, clauses) => [Select(Ops(pool, e))] + WrittenClauses(pool, clauses) + [EndSelect]
    case _ => [Line(pool, s)]
  }

  function WrittenBlock(pool: seq<Num>, b: Block): seq<Statement> {
    if b.Nil? then [] else Written(pool, b.head) + WrittenBlock(pool, b.tail)
  }

  function WrittenArms(pool: seq<Num>, a: Arms): seq<Statement> {
    match a
    case Arm(test, body, rest) => [ElseIf(Ops(pool, test))] + WrittenBlock(pool, body) + WrittenArms(pool, rest)
    case Otherwise(other) => if other.None? then [] else [Else] + WrittenBlock(pool, other.value)
  }

  function WrittenClauses(pool: seq<Num>, c: Clauses): seq<Statement> {
    match c
    case When(items, body, rest) => [Case(ItemsOf(pool, items))] + WrittenBlock(pool, body) + WrittenClauses(pool, rest)
    case Rest(other) => if other.None? then [] else [CaseElse] + WrittenBlock(pool, other.value)
  }

  // ---------- the code of a tree ----------

  /** Where EXIT FOR and EXIT DO lead, how many FOR loops are open, and how many were at the DO. */
  datatype Context = Context(forExit: Target, doExit: Target, fors: nat, doFors: int)

  function Size(s: Stmt): nat {
    match s
    case Let(_, e) => CodeLength(e) + 1
    case SetColor(r, g, b) => CodeLength(r) + CodeLength(g) + CodeLength(b) + 1
    case SetPixel(x, y) => CodeLength(x) + CodeLength(y) + 1
    case End => 1
    case LeaveFor => 1
    case LeaveDo => 1
    case OneLine(test, yes, no) => CodeLength(test) + 1 + Size(yes) + if no.None? then 0 else 1 + Size(no.value)
    case Choose(arms) => ArmsSize(arms)
    case ForLoop(_, first, limit, step, body, _) =>
      CodeLength(first) + CodeLength(limit) + CodeLength(step) + 4 + BlockSize(body) + 1
    case WhileLoop(test, body) => CodeLength(test) + 1 + BlockSize(body) + 1
    case DoLoop(entry, body, until) => TestSize(entry) + BlockSize(body) + TestSize(until)
        + if until.None? then 1 else 0
    case SelectCase(e, clauses) => CodeLength(e) + ClausesSize(clauses)
  }

  function TestSize(test: Option<Expr>): nat { if test.None? then 0 else CodeLength(test.value) + 1 }

  function BlockSize(b: Block): nat { if b.Nil? then 0 else Size(b.head) + BlockSize(b.tail) }

  /** An arm ends in a jump to the end unless it is the last thing in the IF. */
  predicate Final(a: Arms) { a.Otherwise? && a.other.None? }

  function ArmsSize(a: Arms): nat {
    match a
    case Arm(test, body, rest) => CodeLength(test) + 1 + BlockSize(body) + (if Final(rest) then 0
        else 1 + ArmsSize(rest))
    case Otherwise(other) => if other.None? then 0 else BlockSize(other.value)
  }

  function LiteralsSize(items: seq<Literals>): nat {
    if items == [] then 0 else (if items[0].OneOf? then 5 else 9) + LiteralsSize(items[1..])
  }

  function ClausesSize(c: Clauses): nat {
    match c
    case When(items, body, rest) => LiteralsSize(items) + 2 + BlockSize(body) + 1 + ClausesSize(rest)
    case Rest(other) => 1 + if other.None? then 0 else BlockSize(other.value)
  }

  lemma {:induction false} ItemsSize(pool: seq<Num>, items: seq<Literals>)
    ensures TestsLength(ItemsOf(pool, items)) == LiteralsSize(items)
    decreases |items|
  {
    if items != [] {
      ItemsSize(pool, items[1..]);
      assert ItemsOf(pool, items)[1..] == ItemsOf(pool, items[1..]);
    }
  }

  function Body(pool: seq<Num>, s: Stmt, base: int, c: Context): (r: seq<Sym>)
    ensures |r| == Size(s)
    decreases s
  {
    match s
    case LeaveFor => [Leave(c.forExit, 1, c.fors)]
    case LeaveDo => [Leave(c.doExit, c.fors - c.doFors, c.fors)]
    case OneLine(test, yes, no) => OneLineBody(pool, test, yes, no, base, c)
    case Choose(arms) => ArmsBody(pool, arms, base, base + ArmsSize(arms), c)
    case ForLoop(slot, first, limit, step, body, named) =>
      var header := ForHeader(base, slot, Ops(pool, first), Ops(pool, limit), Ops(pool, step));
      var end := base + Size(s);
      PlainOps(header) + [Jump(At(end))] + BlockBody(pool, body, base + |header| + 1, c.(forExit :=
          At(end), fors := c.fors + 1)) +
      [Plain(Op(ForIncr, 0, 0, if named then slot else -1, 0))]
    case WhileLoop(test, body) =>
      PlainOps(Ops(pool, test)) + [Unless(At(base + Size(s)))] + BlockBody(pool, body, base + CodeLength(test) + 1,
          c) + [Jump(At(base))]
    case DoLoop(entry, body, until) =>
      var inner := c.(doExit := At(base + Size(s)), doFors := c.fors);
      EntryCode(pool, entry, At(base + Size(s))) + BlockBody(pool, body, base + TestSize(entry), inner)
          + BackCode(pool, until, base)
    case SelectCase(e, clauses) =>
      PlainOps(Ops(pool, e)) + ClausesBody(pool, clauses, base + CodeLength(e), base + Size(s), c)
    case _ => PlainOps(SimpleOps(pool, s))
  }

  function OneLineBody(pool: seq<Num>, test: Expr, yes: Stmt, no: Option<Stmt>, base: int, c: Context): (r: seq<Sym>)
    ensures |r| == CodeLength(test) + 1 + Size(yes) + if no.None? then 0 else 1 + Size(no.value)
    decreases OneLine(test, yes, no), 0
  {
    var at := base + CodeLength(test) + 1;
    if no.None? then PlainOps(Ops(pool, test)) + [Unless(At(at + Size(yes)))] + Body(pool, yes, at, c)
    else
      PlainOps(Ops(pool, test)) + [Unless(At(at + Size(yes) + 1))] + Body(pool, yes, at, c) +
      ([Jump(At(at + Size(yes) + 1 + Size(no.value)))] + Body(pool, no.value, at + Size(yes) + 1, c))
  }

  function EntryCode(pool: seq<Num>, test: Option<Expr>, exit: Target): (r: seq<Sym>)
    ensures |r| == TestSize(test)
  {
    if test.None? then [] else PlainOps(Ops(pool, test.value)) + [Unless(exit)]
  }

  function BackCode(pool: seq<Num>, test: Option<Expr>, start: int): (r: seq<Sym>)
    ensures |r| == TestSize(test) + if test.None? then 1 else 0
  {
    if test.None? then [Jump(At(start))] else PlainOps(Ops(pool, test.value)) + [Unless(At(start))]
  }

  function BlockBody(pool: seq<Num>, b: Block, base: int, c: Context): (r: seq<Sym>)
    ensures |r| == BlockSize(b)
    decreases b
  {
    if b.Nil? then [] else Body(pool, b.head, base, c) + BlockBody(pool, b.tail, base + Size(b.head), c)
  }

  function ArmsBody(pool: seq<Num>, a: Arms, base: int, end: int, c: Context): (r: seq<Sym>)
    ensures |r| == ArmsSize(a)
    decreases a
  {
    match a
    case Arm(test, body, rest) =>
      var at := base + CodeLength(test) + 1;
      var next := at + BlockSize(body) + if Final(rest) then 0 else 1;
      PlainOps(Ops(pool, test)) + [Unless(At(next))] + BlockBody(pool, body, at, c) +
      (if Final(rest) then [] else [Jump(At(end))] + ArmsBody(pool, rest, next, end, c))
    case Otherwise(other) => if other.None? then [] else BlockBody(pool, other.value, base, c)
  }

  function ClausesBody(pool: seq<Num>, cs: Clauses, base: int, end: int, c: Context): (r: seq<Sym>)
    ensures |r| == ClausesSize(cs)
    decreases cs
  {
    match cs
    case When(items, body, rest) =>
      var at := base + LiteralsSize(items) + 2;
      var next := at + BlockSize(body) + 1;
      ItemsSize(pool, items);
      Clause(ItemsOf(pool, items), base, At(next)) + BlockBody(pool, body, at, c) +
      ([Jump(At(end))] + ClausesBody(pool, rest, next, end, c))
    case Rest(other) => [Plain(Simple(Drop))] + if other.None? then [] else BlockBody(pool, other.value, base + 1, c)
  }

  // ---------- binding an exit ----------

  function BindContext(c: Context, l: Label, pc: int): Context {
    c.(forExit := BindTarget(c.forExit, l, pc), doExit := BindTarget(c.doExit, l, pc))
  }

  /** Code whose targets are all bound. */
  ghost predicate Settled(code: seq<Sym>) {
    forall i :: 0 <= i < |code| ==> match code[i] case Plain(_) => true case Jump(t) => t.At? case Unless(t) => t.At? case Leave(t, _, _) => t.At?
  }

  lemma {:induction false} BindSettled(code: seq<Sym>, l: Label, pc: int)
    requires Settled(code)
    ensures Bind(code, l, pc) == code
  {}

  lemma {:induction false} SettledConcat(a: seq<Sym>, b: seq<Sym>)
    requires Settled(a) && Settled(b)
    ensures Settled(a + b)
  {}

  lemma {:induction false} PlainSettled(ops: seq<Op>, syms: seq<Sym>)
    requires Settled(syms)
    ensures Settled(PlainOps(ops)) && Settled(PlainOps(ops) + syms)
  {}

  lemma {:induction false} TestsSettled(items: seq<Item>, base: int, hit: int)
    ensures Settled(Tests(items, base, At(hit)))
    decreases |items|
  {
    if items != [] {
      TestsSettled(items[1..], base + TestLength(items[0]), hit);
      TestSettled(items[0], base, hit);
      SettledConcat(Test(items[0], base, At(hit)), Tests(items[1..], base + TestLength(items[0]), At(hit)));
    }
  }

  lemma {:induction false} TestSettled(item: Item, base: int, hit: int)
    ensures Settled(Test(item, base, At(hit)))
  {}

  lemma {:induction false} ClauseSettled(items: seq<Item>, base: int, miss: int)
    ensures Settled(Clause(items, base, At(miss)))
  {
    TestsSettled(items, base, base + TestsLength(items) + 1);
  }

  /** Binding an exit label in the code of a tree binds it in the tree's context, and nowhere else. */
  lemma {:induction false} BindBody(pool: seq<Num>, s: Stmt, base: int, c: Context, l: Label, pc: int)
    ensures Bind(Body(pool, s, base, c), l, pc) == Body(pool, s, base, BindContext(c, l, pc))
    decreases s
  {
    hide Bind, PlainOps, Ops, Settled, BlockBody, ArmsBody, ClausesBody, OneLineBody, SimpleOps, Size, BlockSize;
    match s
    case OneLine(test, yes, no) => BindOneLine(pool, test, yes, no, base, c, l, pc);
    case Choose(arms) => BindArms(pool, arms, base, base + ArmsSize(arms), c, l, pc);
    case ForLoop(_, _, _, _, _, _) => BindFor(pool, s, base, c, l, pc);
    case WhileLoop(_, _) => BindWhile(pool, s, base, c, l, pc);
    case DoLoop(_, _, _) => BindDo(pool, s, base, c, l, pc);
    case SelectCase(e, clauses) =>
      BindClauses(pool, clauses, base + CodeLength(e), base + Size(s), c, l, pc);
      BindConcat(PlainOps(Ops(pool, e)), ClausesBody(pool, clauses, base + CodeLength(e), base + Size(s), c), l, pc);
      NoneSettled();
      PlainSettled(Ops(pool, e), []);
      BindSettled(PlainOps(Ops(pool, e)), l, pc);
    case LeaveFor => BindOne(Leave(c.forExit, 1, c.fors), l, pc);
    case LeaveDo => BindOne(Leave(c.doExit, c.fors - c.doFors, c.fors), l, pc);
    case _ =>
      NoneSettled();
      PlainSettled(SimpleOps(pool, s), []);
      BindSettled(PlainOps(SimpleOps(pool, s)), l, pc);
  }

  lemma {:induction false} NoneSettled()
    ensures Settled([])
  {}

  lemma {:induction false} BindOne(s: Sym, l: Label, pc: int)
    ensures Bind([s], l, pc) == [BindSym(s, l, pc)]
  {}

  /** Bound code around code with exits. */
  lemma {:induction false} BindAround(a: seq<Sym>, b: seq<Sym>, b': seq<Sym>, e: seq<Sym>, l: Label, pc: int)
    requires Settled(a) && Settled(e) && Bind(b, l, pc) == b'
    ensures Bind(a + b + e, l, pc) == a + b' + e
  {
    hide Bind, Settled;
    BindConcat(a + b, e, l, pc);
    BindConcat(a, b, l, pc);
    BindSettled(a, l, pc);
    BindSettled(e, l, pc);
  }

  lemma {:induction false} OneSettled(s: Sym)
    requires match s case Plain(_) => true case Jump(t) => t.At? case Unless(t) => t.At? case Leave(t, _, _) => t.At?
    ensures Settled([s])
  {}

  lemma {:induction false} BindTwo(a: seq<Sym>, b: seq<Sym>, l: Label, pc: int)
    requires Settled(a)
    ensures Bind(a + b, l, pc) == a + Bind(b, l, pc)
  {
    hide Bind, Settled;
    BindConcat(a, b, l, pc);
    BindSettled(a, l, pc);
  }

  /** The ELSE part of a one-line IF. */
  lemma {:induction false} BindInlineElse(pool: seq<Num>, no: Stmt, at: int, c: Context, l: Label, pc: int)
    requires Bind(Body(pool, no, at, c), l, pc) == Body(pool, no, at, BindContext(c, l, pc))
    ensures var jump := [Jump(At(at + Size(no)))];
            Bind(jump + Body(pool, no, at, c), l, pc) == jump + Body(pool, no, at, BindContext(c, l, pc))
  {
    hide Bind, Settled, Size, BindContext, Body;
    OneSettled(Jump(At(at + Size(no))));
    BindTwo([Jump(At(at + Size(no)))], Body(pool, no, at, c), l, pc);
  }

  /** What precedes the body of a one-line IF. */
  function InlineHead(pool: seq<Num>, test: Expr, out: int): (r: seq<Sym>)
    ensures |r| == CodeLength(test) + 1
  {
    PlainOps(Ops(pool, test)) + [Unless(At(out))]
  }

  lemma {:induction false} HeadSettled(pool: seq<Num>, test: Expr, out: int)
    ensures Settled(InlineHead(pool, test, out))
  {
    OneSettled(Unless(At(out)));
    PlainSettled(Ops(pool, test), [Unless(At(out))]);
  }

  lemma {:induction false} OneLineParts(pool: seq<Num>, test: Expr, yes: Stmt, no: Option<Stmt>, base: int, c: Context)
    ensures var at := base + CodeLength(test) + 1;
            var next := at + Size(yes) + if no.None? then 0 else 1;
            OneLineBody(pool, test, yes, no, base, c) ==
              if no.None? then InlineHead(pool, test, next) + Body(pool, yes, at, c)
              else InlineHead(pool, test, next) + Body(pool, yes, at, c) +
                   ([Jump(At(next + Size(no.value)))] + Body(pool, no.value, next, c))
  {
    hide Ops, PlainOps, Body, Size;
  }

  lemma {:induction false} BindOneLine(
      pool: seq<Num>, test: Expr, yes: Stmt, no: Option<Stmt>, base: int, c: Context, l: Label, pc: int)
    ensures Bind(OneLineBody(pool, test, yes, no, base, c), l, pc) == OneLineBody(pool, test, yes, no, base,
        BindContext(c, l, pc))
    decreases OneLine(test, yes, no), 0
  {
    hide Bind, Settled, Size, BindContext, Body, OneLineBody, InlineHead;
    var at := base + CodeLength(test) + 1;
    var next := at + Size(yes) + if no.None? then 0 else 1;
    OneLineParts(pool, test, yes, no, base, c);
    OneLineParts(pool, test, yes, no, base, BindContext(c, l, pc));
    HeadSettled(pool, test, next);
    BindBody(pool, yes, at, c, l, pc);
    if no.None? {
      BindTwo(InlineHead(pool, test, next), Body(pool, yes, at, c), l, pc);
    } else {
      BindBody(pool, no.value, next, c, l, pc);
      BindInlineElse(pool, no.value, next, c, l, pc);
      BindThree(InlineHead(pool, test, next), Body(pool, yes, at, c), [Jump(At(next + Size(no.value)))] + Body(pool,
          no.value, next, c), l, pc);
    }
  }

  lemma {:induction false} ForBody(pool: seq<Num>, s: Stmt, base: int, c: Context)
    requires s.ForLoop?
    ensures var header := ForHeader(base, s.slot, Ops(pool, s.first), Ops(pool, s.limit), Ops(pool, s.step));
            Body(pool, s, base, c) == PlainOps(header) + [Jump(At(base + Size(s)))] +
              BlockBody(pool, s.body, base + |header| + 1, c.(forExit := At(base + Size(s)), fors := c.fors + 1)) +
              [Plain(Op(ForIncr, 0, 0, if s.named then s.slot else -1, 0))]
  {
    hide Ops, PlainOps, Size;
  }

  lemma {:induction false} BindFor(pool: seq<Num>, s: Stmt, base: int, c: Context, l: Label, pc: int)
    requires s.ForLoop?
    ensures Bind(Body(pool, s, base, c), l, pc) == Body(pool, s, base, BindContext(c, l, pc))
    decreases s, 0
  {
    hide Bind, PlainOps, Ops, Settled, Size, ForHeader, Body;
    ForBody(pool, s, base, c);
    ForBody(pool, s, base, BindContext(c, l, pc));
    var header := ForHeader(base, s.slot, Ops(pool, s.first), Ops(pool, s.limit), Ops(pool, s.step));
    var end := base + Size(s);
    var inner := c.(forExit := At(end), fors := c.fors + 1);
    OneSettled(Jump(At(end)));
    PlainSettled(header, [Jump(At(end))]);
    BindBlock(pool, s.body, base + |header| + 1, inner, l, pc);
    assert BindContext(inner, l, pc) == BindContext(c, l, pc).(forExit := At(end), fors := c.fors + 1);
    var next := Plain(Op(ForIncr, 0, 0, if s.named then s.slot else -1, 0));
    OneSettled(next);
    BindAround(PlainOps(header) + [Jump(At(end))], BlockBody(pool, s.body, base + |header| + 1, inner),
               BlockBody(pool, s.body, base + |header| + 1, BindContext(inner, l, pc)), [next], l, pc);
  }

  lemma {:induction false} WhileBody(pool: seq<Num>, s: Stmt, base: int, c: Context)
    requires s.WhileLoop?
    ensures Body(pool, s, base, c) == PlainOps(Ops(pool, s.test)) + [Unless(At(base + Size(s)))] +
                                      BlockBody(pool, s.body, base + CodeLength(s.test) + 1, c) + [Jump(At(base))]
  {
    hide Ops, PlainOps, Size;
  }

  lemma {:induction false} BindWhile(pool: seq<Num>, s: Stmt, base: int, c: Context, l: Label, pc: int)
    requires s.WhileLoop?
    ensures Bind(Body(pool, s, base, c), l, pc) == Body(pool, s, base, BindContext(c, l, pc))
    decreases s, 0
  {
    hide Bind, PlainOps, Ops, Settled, Size, BindContext, Body;
    WhileBody(pool, s, base, c);
    WhileBody(pool, s, base, BindContext(c, l, pc));
    var out := Unless(At(base + Size(s)));
    OneSettled(out);
    PlainSettled(Ops(pool, s.test), [out]);
    OneSettled(Jump(At(base)));
    var at := base + CodeLength(s.test) + 1;
    BindBlock(pool, s.body, at, c, l, pc);
    BindAround(PlainOps(Ops(pool, s.test)) + [out], BlockBody(pool, s.body, at, c), BlockBody(pool, s.body, at,
        BindContext(c, l, pc)),
               [Jump(At(base))], l, pc);
  }

  lemma {:induction false} BindDo(pool: seq<Num>, s: Stmt, base: int, c: Context, l: Label, pc: int)
    requires s.DoLoop?
    ensures Bind(Body(pool, s, base, c), l, pc) == Body(pool, s, base, BindContext(c, l, pc))
    decreases s, 0
  {
    hide Bind, PlainOps, Ops, Settled, Size;
    var exit, at := At(base + Size(s)), base + TestSize(s.entry);
    var inner := c.(doExit := exit, doFors := c.fors);
    EntrySettled(pool, s.entry, base + Size(s));
    BackSettled(pool, s.until, base);
    BindBlock(pool, s.body, at, inner, l, pc);
    assert BindContext(inner, l, pc) == BindContext(c, l, pc).(doExit := exit, doFors := c.fors);
    BindAround(EntryCode(pool, s.entry, exit), BlockBody(pool, s.body, at, inner), BlockBody(pool, s.body, at,
        BindContext(inner, l, pc)),
               BackCode(pool, s.until, base), l, pc);
  }

  lemma {:induction false} EntrySettled(pool: seq<Num>, test: Option<Expr>, exit: int)
    ensures Settled(EntryCode(pool, test, At(exit)))
  {
    if test.Some? { PlainSettled(Ops(pool, test.value), [Unless(At(exit))]); }
  }

  lemma {:induction false} BackSettled(pool: seq<Num>, test: Option<Expr>, start: int)
    ensures Settled(BackCode(pool, test, start))
  {
    if test.Some? { PlainSettled(Ops(pool, test.value), [Unless(At(start))]); }
  }

  lemma {:induction false} BindBlock(pool: seq<Num>, b: Block, base: int, c: Context, l: Label, pc: int)
    ensures Bind(BlockBody(pool, b, base, c), l, pc) == BlockBody(pool, b, base, BindContext(c, l, pc))
    decreases b
  {
    hide Bind, Body, BindContext;
    if b.Nil? {
      NoneSettled();
      BindSettled([], l, pc);
    } else {
      BindBody(pool, b.head, base, c, l, pc);
      BindBlock(pool, b.tail, base + Size(b.head), c, l, pc);
      BindConcat(Body(pool, b.head, base, c), BlockBody(pool, b.tail, base + Size(b.head), c), l, pc);
    }
  }

  lemma {:induction false} BindArms(pool: seq<Num>, a: Arms, base: int, end: int, c: Context, l: Label, pc: int)
    ensures Bind(ArmsBody(pool, a, base, end, c), l, pc) == ArmsBody(pool, a, base, end, BindContext(c, l, pc))
    decreases a
  {
    hide Bind, BlockBody, PlainOps, Ops, Settled, BindContext, BlockSize;
    NoneSettled();
    BindSettled([], l, pc);
    match a
    case Arm(test, body, rest) =>
      var at := base + CodeLength(test) + 1;
      var next := at + BlockSize(body) + if Final(rest) then 0 else 1;
      OneSettled(Unless(At(next)));
      PlainSettled(Ops(pool, test), [Unless(At(next))]);
      BindBlock(pool, body, at, c, l, pc);
      BindArms(pool, rest, next, end, c, l, pc);
      var tail := if Final(rest) then [] else [Jump(At(end))] + ArmsBody(pool, rest, next, end, c);
      OneSettled(Jump(At(end)));
      BindSettled([Jump(At(end))], l, pc);
      BindConcat([Jump(At(end))], ArmsBody(pool, rest, next, end, c), l, pc);
      BindThree(PlainOps(Ops(pool, test)) + [Unless(At(next))], BlockBody(pool, body, at, c), tail, l, pc);
    case Otherwise(other) =>
      if other.Some? { BindBlock(pool, other.value, base, c, l, pc); }
  }

  lemma {:induction false} BindThree(a: seq<Sym>, b: seq<Sym>, e: seq<Sym>, l: Label, pc: int)
    requires Settled(a)
    ensures Bind(a + b + e, l, pc) == a + Bind(b, l, pc) + Bind(e, l, pc)
  {
    hide Bind, Settled;
    BindConcat(a + b, e, l, pc);
    BindConcat(a, b, l, pc);
    BindSettled(a, l, pc);
  }

  lemma {:induction false} BindClauses(pool: seq<Num>, cs: Clauses, base: int, end: int, c: Context, l: Label, pc: int)
    ensures Bind(ClausesBody(pool, cs, base, end, c), l, pc) == ClausesBody(pool, cs, base, end, BindContext(c, l, pc))
    decreases cs
  {
    hide Bind, BlockBody, Clause, Settled, BindContext, BlockSize, LiteralsSize;
    match cs
    case When(items, body, rest) =>
      var at := base + LiteralsSize(items) + 2;
      var next := at + BlockSize(body) + 1;
      ClauseSettled(ItemsOf(pool, items), base, next);
      BindBlock(pool, body, at, c, l, pc);
      BindClauses(pool, rest, next, end, c, l, pc);
      OneSettled(Jump(At(end)));
      BindSettled([Jump(At(end))], l, pc);
      BindConcat([Jump(At(end))], ClausesBody(pool, rest, next, end, c), l, pc);
      BindThree(Clause(ItemsOf(pool, items), base, At(next)), BlockBody(pool, body, at, c),
                [Jump(At(end))] + ClausesBody(pool, rest, next, end, c), l, pc);
    case Rest(other) =>
      OneSettled(Plain(Simple(Drop)));
      BindSettled([Plain(Simple(Drop))], l, pc);
      if other.Some? {
        BindBlock(pool, other.value, base + 1, c, l, pc);
        BindConcat([Plain(Simple(Drop))], BlockBody(pool, other.value, base + 1, c), l, pc);
      }
  }
}
