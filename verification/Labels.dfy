/** The compiler's output with symbolic jump targets: what the threaded operand fields stand for.
    Opening a block leaves holes labelled by the block; closing it binds the label everywhere. */
module Labels {
  import opened Wrappers
  import opened Il
  import opened Statements

  const MAX_DEPTH := 16

  /** Holes are named by the block that will fill them: its kind and nesting depth. */
  datatype Label =
    | ForEnd(k: nat) | WhileEnd(k: nat) | DoEnd(k: nat) | IfNext(k: nat) | IfEnd(k: nat) | CaseNext(k: nat)
    | SelectEnd(k: nat) | InlineNo(k: nat) | InlineEnd(k: nat) | FunctionEnd
    | Match | LowFail | HighFail // within one CASE only

  datatype Target = At(pc: int) | Hole(name: Label)

  datatype Sym =
    | Plain(op: Op)
    | Jump(to: Target)
    | Unless(to: Target) // jump when the popped number is zero
    | Leave(to: Target, discard: int, depth: int)

  datatype Depths = Depths(f: nat, w: nat, d: nat, i: nat, s: nat)

  datatype ForBlock = ForBlock(slot: int, opening: Depths)
  datatype WhileBlock = WhileBlock(start: int, opening: Depths)
  datatype DoBlock = DoBlock(start: int, opening: Depths)
  datatype IfBlock = IfBlock(pending: bool, seenElse: bool, opening: Depths)
  datatype SelectBlock = SelectBlock(pending: bool, seenCase: bool, seenElse: bool, opening: Depths)

  datatype Span = Span(entry: int, end: int)

  datatype Draft = Draft(
    code: seq<Sym>, fors: seq<ForBlock>, whiles: seq<WhileBlock>, dos: seq<DoBlock>, ifs: seq<IfBlock>,
    selects: seq<SelectBlock>, lines: seq<(int, int)>, functions: seq<Span>, entry: Option<int>, returned: bool)

  const EMPTY := Draft([], [], [], [], [], [], [], [], None, false)

  function DepthsOf(d: Draft): Depths { Depths(|d.fors|, |d.whiles|, |d.dos|, |d.ifs|, |d.selects|) }

  predicate AllClosed(d: Draft) { DepthsOf(d) == Depths(0, 0, 0, 0, 0) }

  function PlainOps(ops: seq<Op>): (r: seq<Sym>)
    ensures |r| == |ops| && forall k :: 0 <= k < |ops| ==> r[k] == Plain(ops[k])
  {
    seq(|ops|, k requires 0 <= k < |ops| => Plain(ops[k]))
  }

  function Put(d: Draft, syms: seq<Sym>): Option<Draft> {
    if |d.code| + |syms| > MAX_OPS then None else Some(d.(code := d.code + syms))
  }

  // ---------- binding a label ----------

  function BindTarget(t: Target, name: Label, pc: int): Target { if t == Hole(name) then At(pc) else t }

  function BindSym(s: Sym, name: Label, pc: int): Sym {
    match s
    case Plain(_) => s
    case Jump(t) => Jump(BindTarget(t, name, pc))
    case Unless(t) => Unless(BindTarget(t, name, pc))
    case Leave(t, discard, depth) => Leave(BindTarget(t, name, pc), discard, depth)
  }

  function Bind(code: seq<Sym>, name: Label, pc: int): (r: seq<Sym>)
    ensures |r| == |code| && forall k :: 0 <= k < |code| ==> r[k] == BindSym(code[k], name, pc)
  {
    seq(|code|, k requires 0 <= k < |code| => BindSym(code[k], name, pc))
  }

  lemma {:induction false} BindConcat(a: seq<Sym>, b: seq<Sym>, l: Label, pc: int)
    ensures Bind(a + b, l, pc) == Bind(a, l, pc) + Bind(b, l, pc)
  {
    hide BindSym;
  }

  predicate Waits(s: Sym, l: Label) {
    match s
    case Plain(_) => false
    case Jump(t) => t == Hole(l)
    case Unless(t) => t == Hole(l)
    case Leave(t, _, _) => t == Hole(l)
  }

  function PcOf(t: Target): int { match t case At(pc) => pc case Hole(_) => -1 }

  /** The operation a symbol stands for. */
  function Lower(s: Sym): Op {
    match s
    case Plain(op) => op
    case Jump(t) => Op(Jmp, 0, 0, PcOf(t), 0)
    case Unless(t) => Op(Jz, 0, 0, PcOf(t), 0)
    case Leave(t, discard, depth) => Op(ExitLoop, 0, depth, PcOf(t), discard)
  }

  /** Bind `name` to the next slot to be emitted. */
  function Here(d: Draft, name: Label): Draft { d.(code := Bind(d.code, name, |d.code|)) }

  // ---------- CASE tests ----------

  function TestLength(item: Item): nat { if item.One? then 5 else 9 }

  function TestsLength(
      items: seq<Item>): nat { if items == [] then 0 else TestLength(items[0]) + TestsLength(items[1..]) }

  /** One list item: fall to the next item on failure, to `hit` on success; the selector stays. */
  function Test(item: Item, base: int, hit: Target): (r: seq<Sym>)
    ensures |r| == TestLength(item)
  {
    var fail := At(base + TestLength(item));
    match item
    case One(v) => [Plain(Simple(Dup)), Plain(v), Plain(Simple(CeqNum)), Unless(fail), Jump(hit)]
    case Range(low, high) =>
      [Plain(Simple(Dup)), Plain(low), Plain(Simple(CgeNum)), Unless(fail)] +
      [Plain(Simple(Dup)), Plain(high), Plain(Simple(CleNum)), Unless(fail), Jump(hit)]
  }

  function Simple(c: OpCode): Op { Op(c, 0, 0, 0, 0) }

  function Tests(items: seq<Item>, base: int, hit: Target): (r: seq<Sym>)
    ensures |r| == TestsLength(items)
  {
    if items == [] then [] else Test(items[0], base, hit) + Tests(items[1..], base + TestLength(items[0]), hit)
  }

  /** The tests, the jump past the clause, and the DROP that starts the clause. */
  function Clause(items: seq<Item>, base: int, miss: Target): seq<Sym> {
    Tests(items, base, At(base + TestsLength(items) + 1)) + [Jump(miss), Plain(Simple(Drop))]
  }

  // ---------- statements ----------

  predicate AtBoundary(d: Draft, inside: Depths) { DepthsOf(d) == inside }

  function Last<T>(s: seq<T>): T
    requires |s| > 0
  {
    s[|s| - 1]
  }

  function Front<T>(s: seq<T>): seq<T>
    requires |s| > 0
  {
    s[..|s| - 1]
  }

  /** Close the CASE clause before a new one: jump to the end, and let the failed tests land here. */
  function NextClause(d: Draft): Option<Draft>
    requires |d.selects| > 0
  {
    var k := |d.selects| - 1;
    var p := Put(d, [Jump(Hole(SelectEnd(k)))]);
    if p.None? then None else Some(Here(p.value, CaseNext(k)))
  }

  predicate SelectNeedsCase(structured: bool, d: Draft, t: Statement) {
    structured && |d.selects| > 0 && !Last(d.selects).seenCase && !t.Case? && !t.CaseElse? && !t.EndSelect?
  }

  function CompileIf(d: Draft, cond: seq<Op>): Option<Draft> {
    if |d.ifs| >= MAX_DEPTH then None
    else
      var p := Put(d, PlainOps(cond) + [Unless(Hole(IfNext(|d.ifs|)))]);
      if p.None? then None else Some(p.value.(ifs := d.ifs + [IfBlock(true, false, DepthsOf(d))]))
  }

  predicate InBranch(d: Draft) {
    |d.ifs| > 0 && var o := Last(d.ifs).opening; AtBoundary(d, o.(i := o.i + 1))
  }

  function CompileElse(d: Draft, cond: Option<seq<Op>>): Option<Draft> {
    if !InBranch(d) || Last(d.ifs).seenElse then None
    else
      var k := |d.ifs| - 1;
      var p := Put(d, [Jump(Hole(IfEnd(k)))]);
      if p.None? then None
      else
        var q := Here(p.value, IfNext(k));
        match cond
        case Some(c) => Put(q, PlainOps(c) + [Unless(Hole(IfNext(k)))])
        case None => Some(q.(ifs := Front(d.ifs) + [Last(d.ifs).(pending := false, seenElse := true)]))
  }

  function CompileEndIf(d: Draft): Option<Draft> {
    if !InBranch(d) then None
    else
      var k := |d.ifs| - 1;
      var q := if Last(d.ifs).pending then Here(d, IfNext(k)) else d;
      Some(Here(q, IfEnd(k)).(ifs := Front(d.ifs)))
  }

  function ForHeader(pos: int, slot: int, start: seq<Op>, limit: seq<Op>, step: seq<Op>): seq<Op> {
    start + [Op(StoreNum, 0, 0, slot, 0)] + limit + step + [Op(ForInit, 0, 0, slot, 0)] +
    [Op(ForCheck, 0, 0, slot, pos + |start| + |limit| + |step| + 4)]
  }

  function CompileFor(d: Draft, slot: int, start: seq<Op>, limit: seq<Op>, step: seq<Op>): Option<Draft> {
    if |d.fors| >= MAX_DEPTH then None
    else
      var p := Put(d, PlainOps(ForHeader(|d.code|, slot, start, limit, step)) + [Jump(Hole(ForEnd(|d.fors|)))]);
      if p.None? then None else Some(p.value.(fors := d.fors + [ForBlock(slot, DepthsOf(d))]))
  }

  function CompileNext(structured: bool, d: Draft, slot: int): Option<Draft> {
    if |d.fors| == 0 then None
    else
      var top := Last(d.fors);
      if structured && !AtBoundary(d, top.opening.(f := top.opening.f + 1)) then None
      else if slot >= 0 && slot != top.slot then None
      else
        var p := Put(d, [Plain(Op(ForIncr, 0, 0, slot, 0))]);
        if p.None? then None else Some(Here(p.value, ForEnd(|d.fors| - 1)).(fors := Front(d.fors)))
  }

  function CompileWhile(d: Draft, cond: seq<Op>): Option<Draft> {
    if |d.whiles| >= MAX_DEPTH then None
    else
      var p := Put(d, PlainOps(cond) + [Unless(Hole(WhileEnd(|d.whiles|)))]);
      if p.None? then None else Some(p.value.(whiles := d.whiles + [WhileBlock(|d.code|, DepthsOf(d))]))
  }

  function CompileWend(structured: bool, d: Draft): Option<Draft> {
    if |d.whiles| == 0 then None
    else
      var top := Last(d.whiles);
      if structured && !AtBoundary(d, top.opening.(w := top.opening.w + 1)) then None
      else
        var p := Put(d, [Jump(At(top.start))]);
        if p.None? then None else Some(Here(p.value, WhileEnd(|d.whiles| - 1)).(whiles := Front(d.whiles)))
  }

  function CompileDo(d: Draft, test: Option<seq<Op>>): Option<Draft> {
    if |d.dos| >= MAX_DEPTH then None
    else
      var p := if test.Some? then Put(d, PlainOps(test.value) + [Unless(Hole(DoEnd(|d.dos|)))]) else Some(d);
      if p.None? then None else Some(p.value.(dos := d.dos + [DoBlock(|d.code|, DepthsOf(d))]))
  }

  function CompileLoop(structured: bool, d: Draft, test: Option<seq<Op>>): Option<Draft> {
    if |d.dos| == 0 then None
    else
      var top := Last(d.dos);
      if structured && !AtBoundary(d, top.opening.(d := top.opening.d + 1)) then None
      else
        var p := Put(d, if test.Some? then PlainOps(test.value) + [Unless(At(top.start))] else [Jump(At(top.start))]);
        if p.None? then None else Some(Here(p.value, DoEnd(|d.dos| - 1)).(dos := Front(d.dos)))
  }

  function CompileExit(structured: bool, d: Draft, loop: bool): Option<Draft> {
    if !structured then None
    else if loop then
      if |d.dos| == 0 then None
      else Put(d, [Leave(Hole(DoEnd(|d.dos| - 1)), |d.fors| - Last(d.dos).opening.f, |d.fors|)])
    else if |d.fors| == 0 then None
    else Put(d, [Leave(Hole(ForEnd(|d.fors| - 1)), 1, |d.fors|)])
  }

  function CompileSelect(d: Draft, cond: seq<Op>): Option<Draft> {
    if |d.selects| >= MAX_DEPTH then None
    else
      var p := Put(d, PlainOps(cond));
      if p.None? then None else Some(p.value.(selects := d.selects + [SelectBlock(false, false, false, DepthsOf(d))]))
  }

  predicate InSelect(d: Draft) {
    |d.selects| > 0 && var o := Last(d.selects).opening; AtBoundary(d, o.(s := o.s + 1))
  }

  function CompileCase(d: Draft, items: seq<Item>): Option<Draft> {
    if !InSelect(d) || Last(d.selects).seenElse || items == [] then None
    else
      var top, k := Last(d.selects), |d.selects| - 1;
      var p := if top.seenCase then NextClause(d) else Some(d);
      if p.None? then None
      else
        var q := Put(p.value, Clause(items, |p.value.code|, Hole(CaseNext(k))));
        if q.None? then None
        else Some(q.value.(selects := Front(d.selects) + [top.(pending := true, seenCase := true)]))
  }

  function CompileCaseElse(d: Draft): Option<Draft> {
    if !InSelect(d) || Last(d.selects).seenElse then None
    else
      var top := Last(d.selects);
      var p := if top.seenCase then NextClause(d) else Some(d);
      if p.None? then None
      else
        var q := Put(p.value, [Plain(Simple(Drop))]);
        if q.None? then None
        else Some(q.value.(selects := Front(d.selects) + [top.(pending := false, seenCase := true, seenElse := true)]))
  }

  function CompileEndSelect(d: Draft): Option<Draft> {
    if !InSelect(d) || !Last(d.selects).seenCase then None
    else
      var p := if Last(d.selects).seenElse then Some(d)
               else var n := NextClause(d); if n.None? then None else Put(n.value, [Plain(Simple(Drop))]);
      if p.None? then None else Some(Here(p.value, SelectEnd(|d.selects| - 1)).(selects := Front(d.selects)))
  }

  /** One statement; `level` counts the one-line IFs around it. */
  function Compile(structured: bool, d: Draft, t: Statement, level: nat): Option<Draft>
    decreases t
  {
    if SelectNeedsCase(structured, d, t) then None
    else
      match t
      case Straight(ops) => Put(d, PlainOps(ops))
      case Goto(line) => if structured then None else Put(d, [Plain(Op(Jmp, 0, 0, line, 1))])
      case Gosub(line) => if structured then None else Put(d, [Plain(Op(OpCode.Gosub, 0, 0, line, 1))])
      case InlineIf(cond, yes, no) =>
        var p := Put(d, PlainOps(cond) + [Unless(Hole(InlineNo(level)))]);
        var q := if p.None? then None else Compile(structured, p.value, yes, level + 1);
        if q.None? then None
        else if no.None? then Some(Here(q.value, InlineNo(level)))
        else
          var r := Put(q.value, [Jump(Hole(InlineEnd(level)))]);
          var s := if r.None? then None else Compile(structured, Here(r.value, InlineNo(level)), no.value, level + 1);
          if s.None? then None else Some(Here(s.value, InlineEnd(level)))
      case If(cond) => if structured then CompileIf(d, cond) else None
      case ElseIf(cond) => if structured then CompileElse(d, Some(cond)) else None
      case Else => if structured then CompileElse(d, None) else None
      case EndIf => if structured then CompileEndIf(d) else None
      case For(slot, start, limit, step) => CompileFor(d, slot, start, limit, step)
      case Next(slot) => CompileNext(structured, d, slot)
      case While(cond) => CompileWhile(d, cond)
      case Wend => CompileWend(structured, d)
      case Do(test) => CompileDo(d, test)
      case Loop(test) => CompileLoop(structured, d, test)
      case ExitFor => CompileExit(structured, d, false)
      case ExitDo => CompileExit(structured, d, true)
      case Select(cond) => if structured then CompileSelect(d, cond) else None
      case Case(items) => if structured then CompileCase(d, items) else None
      case CaseElse => if structured then CompileCaseElse(d) else None
      case EndSelect => if structured then CompileEndSelect(d) else None
      case Return(cond) =>
        if structured && d.entry.None? then None
        else
          var p := Put(d, if structured then PlainOps(cond + [Simple(ReturnUser)]) else [Plain(Simple(RetSub))]);
          if p.None? then None else Some(p.value.(returned := true))
  }

  function CompileRow(structured: bool, d: Draft, row: Row): Option<Draft> {
    match row
    case Numbered(line) => if structured then None else Some(d.(lines := d.lines + [(line, |d.code|)]))
    case Of(t) => Compile(structured, d, t, 0)
    case Function =>
      if !structured || d.entry.Some? || !AllClosed(d) then None
      else
        var p := Put(d, [Jump(Hole(FunctionEnd))]);
        if p.None? then None else Some(p.value.(entry := Some(|p.value.code|), returned := false))
    case EndFunction =>
      if d.entry.None? || !AllClosed(d) || !d.returned then None
      else
        var p := Put(d, [Plain(Simple(FunctionFallthrough))]);
        if p.None? then None
        else Some(Here(p.value, FunctionEnd).(functions :=
            d.functions + [Span(d.entry.value, |p.value.code|)], entry := None))
  }

  function CompileRows(structured: bool, d: Draft, rows: seq<Row>): Option<Draft>
    decreases |rows|
  {
    if rows == [] then Some(d)
    else
      var p := CompileRow(structured, d, rows[0]);
      if p.None? then None else CompileRows(structured, p.value, rows[1..])
  }

  predicate EndsInHalt(code: seq<Sym>) { |code| > 0 && Last(code).Plain? && Last(code).op.code == Halt }

  /** The end of the program: every block closed, and a HALT unless one is already last. */
  function Finish(d: Draft): Option<seq<Sym>> {
    if !AllClosed(d) || d.entry.Some? then None
    else if EndsInHalt(d.code) then Some(d.code)
    else
      var p := Put(d, [Plain(Simple(Halt))]);
      if p.None? then None else Some(p.value.code)
  }
}
