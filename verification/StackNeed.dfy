/** How much of the value stack a structured program needs: computed from its blocks alone, and
    enough for every run of its code. At each slot the stack has one depth, whatever path led there. */
module StackNeed {
  import opened Wrappers
  import opened Il
  import opened Machine
  import opened Statements
  import opened Labels
  import opened Blocks
  import opened Simulation

  // ---------- the bound ----------

  function Max(a: nat, b: nat): nat { if a < b then b else a }

  function TestNeed(test: Option<Expr>): nat { if test.None? then 0 else Peak(test.value) }

  /** The most cells a statement has on the stack at once, its blocks included. */
  function Need(s: Stmt): nat {
    match s
    case Let(_, e) => Peak(e)
    case SetColor(r, g, b) => Max(Peak(r), Max(1 + Peak(g), 2 + Peak(b)))
    case SetPixel(x, y) => Max(Peak(x), 1 + Peak(y))
    case OneLine(test, yes, no) => Max(Peak(test), Max(Need(yes), if no.None? then 0 else Need(no.value)))
    case Choose(arms) => ArmsNeed(arms)
    case ForLoop(_, first, limit, step, body, _) =>
      Max(Max(Peak(first), Peak(limit)), Max(1 + Peak(step), BlockNeed(body)))
    case WhileLoop(test, body) => Max(Peak(test), BlockNeed(body))
    case DoLoop(entry, body, until) => Max(TestNeed(entry), Max(BlockNeed(body), TestNeed(until)))
    case SelectCase(e, clauses) => Max(Peak(e), ClausesNeed(clauses))
    case _ => 0
  }

  function BlockNeed(b: Block): nat { if b.Nil? then 0 else Max(Need(b.head), BlockNeed(b.tail)) }

  function ArmsNeed(a: Arms): nat {
    match a
    case Arm(test, body, rest) => Max(Peak(test), Max(BlockNeed(body), ArmsNeed(rest)))
    case Otherwise(other) => if other.None? then 0 else BlockNeed(other.value)
  }

  /** A clause tests a copy of the selector against a constant, with the selector below them. */
  function ClausesNeed(cs: Clauses): nat {
    match cs
    case When(_, body, rest) => Max(3, Max(BlockNeed(body), ClausesNeed(rest)))
    case Rest(other) => if other.None? then 0 else BlockNeed(other.value)
  }

  // ---------- the depth at each slot ----------

  function ExprDepths(e: Expr, d: nat): (r: seq<nat>)
    ensures |r| == CodeLength(e) > 0 && r[0] == d
  {
    match e
    case Leaf(_) => [d]
    case Bin(_, l, r) => ExprDepths(l, d) + (ExprDepths(r, d + 1) + [d + 2])
  }

  function TestDepths(e: Expr): (r: seq<nat>)
    ensures |r| == CodeLength(e) + 1 && r[0] == 0
  {
    ExprDepths(e, 0) + [1]
  }

  function ItemDepths(item: Literals): seq<nat> {
    if item.OneOf? then [1, 2, 3, 2, 1] else [1, 2, 3, 2] + [1, 2, 3, 2, 1]
  }

  function ItemsDepths(items: seq<Literals>): (r: seq<nat>)
    ensures |r| == LiteralsSize(items) && (r != [] ==> r[0] == 1)
  {
    if items == [] then [] else ItemDepths(items[0]) + ItemsDepths(items[1..])
  }

  function SimpleDepths(s: Stmt): (r: seq<nat>)
    ensures IsSimple(s) ==> |r| == Size(s) && r[0] == 0
  {
    match s
    case Let(_, e) => ExprDepths(e, 0) + [1]
    case SetColor(r, g, b) => ExprDepths(r, 0) + (ExprDepths(g, 1) + (ExprDepths(b, 2) + [3]))
    case SetPixel(x, y) => ExprDepths(x, 0) + (ExprDepths(y, 1) + [2])
    case _ => [0]
  }

  function Depths(s: Stmt): (r: seq<nat>)
    ensures |r| == Size(s) && (r != [] ==> r[0] == 0)
  {
    match s
    case OneLine(test, yes, no) =>
      TestDepths(test) + (Depths(yes) + if no.None? then [] else [0] + Depths(no.value))
    case Choose(arms) => ArmsDepths(arms)
    case ForLoop(_, first, limit, step, body, _) =>
      HeaderDepths(first, limit, step) + ([0] + (BlockDepths(body) + [0]))
    case WhileLoop(test, body) => TestDepths(test) + (BlockDepths(body) + [0])
    case DoLoop(entry, body, until) =>
      (if entry.None? then [] else TestDepths(entry.value)) +
      (BlockDepths(body) + if until.None? then [0] else TestDepths(until.value))
    case SelectCase(e, clauses) => ExprDepths(e, 0) + ClausesDepths(clauses)
    case _ => SimpleDepths(s)
  }

  function HeaderDepths(first: Expr, limit: Expr, step: Expr): (r: seq<nat>)
    ensures |r| == CodeLength(first) + CodeLength(limit) + CodeLength(step) + 3 && r[0] == 0
  {
    (ExprDepths(first, 0) + [1]) + ((ExprDepths(limit, 0) + ExprDepths(step, 1)) + ([2] + [0]))
  }

  function BlockDepths(b: Block): (r: seq<nat>)
    ensures |r| == BlockSize(b) && (r != [] ==> r[0] == 0)
  {
    if b.Nil? then [] else Depths(b.head) + BlockDepths(b.tail)
  }

  function ArmsDepths(a: Arms): (r: seq<nat>)
    ensures |r| == ArmsSize(a) && (r != [] ==> r[0] == 0)
  {
    match a
    case Arm(test, body, rest) =>
      TestDepths(test) + (BlockDepths(body) + if Final(rest) then [] else [0] + ArmsDepths(rest))
    case Otherwise(other) => if other.None? then [] else BlockDepths(other.value)
  }

  function ClausesDepths(cs: Clauses): (r: seq<nat>)
    ensures |r| == ClausesSize(cs) && r[0] == 1
  {
    match cs
    case When(items, body, rest) =>
      ItemsDepths(items) + ([1] + ([1] + (BlockDepths(body) + ([0] + ClausesDepths(rest)))))
    case Rest(other) => [1] + if other.None? then [] else BlockDepths(other.value)
  }

  // ---------- what an operation does to the depth ----------

  predicate Pushing(c: OpCode) { c == PushNum || c == LoadNum || c == LoadLocalNum }

  predicate Binary(c: OpCode) {
    match c
    case AddNum | SubNum | MulNum | DivNum | CeqNum | CneNum | CltNum | CleNum | CgtNum | CgeNum | AndNum | OrNum => true
    case _ => false
  }

  predicate Cell(c: OpCode) { c == StoreNum || c == Drop || c == Dup }

  predicate Jumping(c: OpCode) { c == Jmp || c == Jz || c == ExitLoop || c == Halt }

  predicate OfLoop(c: OpCode) { c == ForInit || c == ForCheck || c == ForIncr }

  function CallEffect(op: Op): Option<(nat, nat)> {
    if op.a == FN_MIN && op.b == 2 then Some((2, 1))
    else if op.a == FN_COLOR && op.b == 3 then Some((3, 0))
    else if op.a == FN_PSET && op.b == 2 then Some((2, 0))
    else None
  }

  /** The cells an operation takes off the stack and the cells it puts there, for those the compiler emits. */
  function Effect(op: Op): Option<(nat, nat)> {
    if Pushing(op.code) then Some((0, 1))
    else if Binary(op.code) then Some((2, 1))
    else if Cell(op.code) then Some(if op.code == Dup then (1, 2) else (1, 0))
    else if Jumping(op.code) then Some(if op.code == Jz then (1, 0) else (0, 0))
    else if OfLoop(op.code) then Some(if op.code == ForInit then (2, 0) else (0, 0))
    else if op.code == CallFn then CallEffect(op)
    else None
  }

  predicate Stands(ds: seq<nat>, pc: int, d: nat) { 0 <= pc < |ds| ==> ds[pc] == d }

  predicate FallsThrough(op: Op) { op.code != Jmp && op.code != ExitLoop && op.code != Halt }

  predicate InLoop(op: Op) { op.code == ForCheck || op.code == ForIncr }

  function TargetOf(op: Op): int {
    if op.code == Jmp || op.code == Jz || op.code == ExitLoop then op.a else if op.code == ForCheck then op.b else -1
  }

  /** The depths at slot `k` and wherever control goes from there fit its operation, and what it
      pushes fits in `need` cells; loops begin and end with nothing of theirs on the stack. */
  predicate Sound(prog: seq<Op>, ds: seq<nat>, need: nat, k: nat)
    requires |prog| == |ds| && k < |ds|
  {
    var e := Effect(prog[k]);
    e.Some? && e.value.0 <= ds[k] &&
    var after := ds[k] - e.value.0 + e.value.1;
    (e.value.1 > e.value.0 ==> after <= need) && (InLoop(prog[k]) ==> after == 0) &&
    (FallsThrough(prog[k]) ==> Stands(ds, k + 1, after)) && Stands(ds, TargetOf(prog[k]), after)
  }

  ghost predicate Sounds(prog: seq<Op>, ds: seq<nat>, need: nat, lo: int, hi: int)
    requires |prog| == |ds|
  {
    0 <= lo && hi <= |ds| && forall k :: lo <= k < hi ==> Sound(prog, ds, need, k)
  }

  // ---------- one dispatch ----------

  ghost predicate Grounded(ds: seq<nat>, fors: seq<ForFrame>) {
    forall k :: 0 <= k < |fors| ==> Stands(ds, fors[k].body, 0)
  }

  /** The stack is as deep as the slot says, over the `h` cells that were there at the start. */
  ghost predicate AtDepth(ds: seq<nat>, h: nat, st: State) {
    (0 <= st.pc < |ds| ==> |st.stack| == h + ds[st.pc]) && Grounded(ds, st.fors) && Stands(ds, 0, 0)
  }

  lemma {:induction false} GroundedPrefix(ds: seq<nat>, fors: seq<ForFrame>, some: seq<ForFrame>)
    requires Grounded(ds, fors) && some <= fors
    ensures Grounded(ds, some)
  {}

  lemma {:induction false} TopIsGround(ds: seq<nat>, fors: seq<ForFrame>)
    requires |fors| > 0 && Grounded(ds, fors)
    ensures Stands(ds, fors[|fors| - 1].body, 0)
  {}

  lemma {:induction false} GroundedTop(ds: seq<nat>, fors: seq<ForFrame>, frame: ForFrame)
    requires |fors| > 0 && Grounded(ds, fors) && Stands(ds, frame.body, 0)
    ensures Grounded(ds, fors[|fors| - 1 := frame])
  {}

  /** Next, and not for want of stack. */
  ghost predicate Goes(ds: seq<nat>, h: nat, o: Outcome) { o != Overflow && (o.Run? ==> AtDepth(ds, h, o.st)) }

  lemma {:induction false} UnwindIsPrefix(fors: seq<ForFrame>, base: nat, slot: int)
    ensures Unwind(fors, base, slot) <= fors
  {
    if |fors| > base && slot >= 0 && fors[|fors| - 1].slot != slot { UnwindIsPrefix(fors[..|fors| - 1], base, slot); }
  }

  /** What one dispatch did: the depth it left, where it went, and that it dropped loops at most. */
  ghost predicate Moves(m: Machine, st: State, o: Outcome, op: Op, e: (nat, nat)) {
    match o
    case Overflow => e.1 > e.0 && |st.stack| >= m.limit
    case Run(to) =>
      |to.stack| == |st.stack| - e.0 + e.1 && to.fors <= st.fors &&
      ((FallsThrough(op) && to.pc == st.pc + 1) || to.pc == TargetOf(op))
    case _ => true
  }

  lemma {:induction false} PushMoves(m: Machine, prog: seq<Op>, st: State, op: Op)
    requires Pushing(op.code)
    ensures Moves(m, st, StepInstr(m, prog, st, Decode(m.pool, op)), op, (0, 1))
  {
    hide StepLoad;
    var f := Decode(m.pool, op);
    if f.ILoad? { LoadMoves(m, st, f.x, op); }
  }

  lemma {:induction false} LoadMoves(m: Machine, st: State, x: Operand, op: Op)
    requires FallsThrough(op)
    ensures Moves(m, st, StepLoad(m, st, x), op, (0, 1))
  {}

  lemma {:induction false} BinaryMoves(m: Machine, prog: seq<Op>, st: State, op: Op)
    requires Binary(op.code) || (op.code == CallFn && CallEffect(op) == Some((2, 1)))
    ensures Moves(m, st, StepInstr(m, prog, st, Decode(m.pool, op)), op, (2, 1))
  {
    hide StepBin;
    var f := Decode(m.pool, op);
    assert f.IBin? && StepInstr(m, prog, st, f) == StepBin(m, st, f.op);
    BinMoves(m, st, f.op, op);
  }

  lemma {:induction false} BinMoves(m: Machine, st: State, f: BinOp, op: Op)
    requires FallsThrough(op)
    ensures Moves(m, st, StepBin(m, st, f), op, (2, 1))
  {
    hide BinValue, NumberOf;
  }

  lemma {:induction false} PaintMoves(m: Machine, prog: seq<Op>, st: State, op: Op, e: (nat, nat))
    requires op.code == CallFn && CallEffect(op) == Some(e) && e.1 == 0
    ensures Moves(m, st, StepInstr(m, prog, st, Decode(m.pool, op)), op, e)
  {}

  lemma {:induction false} CellMoves(m: Machine, prog: seq<Op>, st: State, op: Op, e: (nat, nat))
    requires Cell(op.code) && Effect(op) == Some(e)
    ensures Moves(m, st, StepInstr(m, prog, st, Decode(m.pool, op)), op, e)
  {
    hide NumberOf;
  }

  lemma {:induction false} JumpMoves(m: Machine, prog: seq<Op>, st: State, op: Op, e: (nat, nat))
    requires Jumping(op.code) && Effect(op) == Some(e)
    ensures Moves(m, st, StepInstr(m, prog, st, Decode(m.pool, op)), op, e)
  {
    hide StepInstr, Decode, Moves;
    if op.code == Jz || op.code == ExitLoop {
      JumpDispatch(m, prog, st, op);
      if op.code == Jz { JzMoves(m, prog, st, op); } else { ExitMoves(m, prog, st, op); }
    } else {
      AlwaysMoves(m, prog, st, op);
    }
  }

  lemma {:induction false} JumpDispatch(m: Machine, prog: seq<Op>, st: State, op: Op)
    ensures op.code == Jz ==> StepInstr(m, prog, st, Decode(m.pool, op)) == StepJz(m, prog, st, op.a)
    ensures op.code == ExitLoop ==> StepInstr(m, prog, st, Decode(m.pool, op)) == StepExitLoop(prog, st, op.a, op.b, op.s)
  {
    hide StepJz, StepExitLoop;
  }

  lemma {:induction false} AlwaysMoves(m: Machine, prog: seq<Op>, st: State, op: Op)
    requires op.code == Jmp || op.code == Halt
    ensures Moves(m, st, StepInstr(m, prog, st, Decode(m.pool, op)), op, (0, 0))
  {
    hide StepInstr, Decode;
    AlwaysDispatch(m, prog, st, op);
  }

  lemma {:induction false} AlwaysDispatch(m: Machine, prog: seq<Op>, st: State, op: Op)
    ensures op.code == Halt ==> StepInstr(m, prog, st, Decode(m.pool, op)) == Done(st)
    ensures var o := StepInstr(m, prog, st, Decode(m.pool, op));
            op.code == Jmp ==> o == Run(st.(pc := op.a)) || o.Failed?
  {}

  lemma {:induction false} JzMoves(m: Machine, prog: seq<Op>, st: State, op: Op)
    requires op.code == Jz
    ensures Moves(m, st, StepJz(m, prog, st, op.a), op, (1, 0))
  {}

  lemma {:induction false} ExitMoves(m: Machine, prog: seq<Op>, st: State, op: Op)
    requires op.code == ExitLoop
    ensures Moves(m, st, StepExitLoop(prog, st, op.a, op.b, op.s), op, (0, 0))
  {}

  lemma {:induction false} EffectMoves(m: Machine, prog: seq<Op>, st: State, op: Op, e: (nat, nat))
    requires Effect(op) == Some(e) && !OfLoop(op.code)
    ensures Moves(m, st, StepInstr(m, prog, st, Decode(m.pool, op)), op, e)
  {
    hide StepInstr, Decode, Moves, Pushing, Binary, Cell, Jumping, OfLoop, CallEffect;
    if Pushing(op.code) { PushMoves(m, prog, st, op); }
    else if Binary(op.code) { BinaryMoves(m, prog, st, op); }
    else if Cell(op.code) { CellMoves(m, prog, st, op, e); }
    else if Jumping(op.code) { JumpMoves(m, prog, st, op, e); }
    else if op.code == CallFn {
      CallKinds(op);
      if e == (2, 1) { BinaryMoves(m, prog, st, op); } else { PaintMoves(m, prog, st, op, e); }
    }
  }

  lemma {:induction false} CallKinds(op: Op)
    ensures var e := CallEffect(op); e.Some? ==> e.value == (2, 1) || e.value.1 == 0
  {}

  lemma {:induction false} MovedGoes(
      m: Machine, prog: seq<Op>, ds: seq<nat>, need: nat, h: nat, st: State, e: (nat, nat), o: Outcome)
    requires |prog| == |ds| && 0 <= st.pc < |ds| && Sound(prog, ds, need, st.pc) && AtDepth(ds, h, st) && h + need <= m.limit
    requires Effect(prog[st.pc]) == Some(e) && Moves(m, st, o, prog[st.pc], e)
    ensures Goes(ds, h, o)
  {
    hide Effect, Grounded, FallsThrough, TargetOf, InLoop;
    if o.Run? { GroundedPrefix(ds, st.fors, o.st.fors); }
  }

  lemma {:induction false} InitGoes(m: Machine, prog: seq<Op>, ds: seq<nat>, need: nat, h: nat, st: State)
    requires |prog| == |ds| && 0 <= st.pc < |ds| && Sound(prog, ds, need, st.pc) && AtDepth(ds, h, st)
    requires prog[st.pc].code == ForInit
    ensures Goes(ds, h, StepForInit(m, st, prog[st.pc].a))
  {}

  lemma {:induction false} LoopIsGround(prog: seq<Op>, ds: seq<nat>, need: nat, k: nat)
    requires |prog| == |ds| && k < |ds| && Sound(prog, ds, need, k) && InLoop(prog[k])
    ensures ds[k] == 0 && Stands(ds, k + 1, 0) && (prog[k].code == ForCheck ==> Stands(ds, prog[k].b, 0))
  {}

  lemma {:induction false} CheckGoes(m: Machine, ds: seq<nat>, h: nat, st: State, body: int)
    requires |st.stack| == h && Grounded(ds, st.fors) && Stands(ds, 0, 0)
    requires Stands(ds, body, 0) && Stands(ds, st.pc + 1, 0)
    ensures Goes(ds, h, StepForCheck(m, st, body))
  {
    hide Continues, Grounded;
    var n := |st.fors| - 1;
    if n >= 0 {
      GroundedTop(ds, st.fors, st.fors[n].(body := body));
      GroundedPrefix(ds, st.fors, st.fors[..n]);
    }
  }

  lemma {:induction false} IncrGoes(m: Machine, ds: seq<nat>, h: nat, st: State, slot: int)
    requires |st.stack| == h && Grounded(ds, st.fors) && Stands(ds, 0, 0) && Stands(ds, st.pc + 1, 0)
    ensures Goes(ds, h, StepForIncr(m, st, slot))
  {
    hide Continues, Unwind, Grounded;
    UnwindIsPrefix(st.fors, st.forBase, slot);
    var fors := Unwind(st.fors, st.forBase, slot);
    GroundedPrefix(ds, st.fors, fors);
    if |fors| > st.forBase {
      GroundedPrefix(ds, fors, fors[..|fors| - 1]);
      TopIsGround(ds, fors);
    }
  }

  lemma {:induction false} LoopDispatch(m: Machine, prog: seq<Op>, st: State, op: Op)
    ensures op.code == ForInit ==> StepInstr(m, prog, st, Decode(m.pool, op)) == StepForInit(m, st, op.a)
    ensures op.code == ForCheck ==> StepInstr(m, prog, st, Decode(m.pool, op)) == StepForCheck(m, st, op.b)
    ensures op.code == ForIncr ==> StepInstr(m, prog, st, Decode(m.pool, op)) == StepForIncr(m, st, op.a)
  {
    hide StepForInit, StepForCheck, StepForIncr;
  }

  lemma {:induction false} LoopGoes(m: Machine, prog: seq<Op>, ds: seq<nat>, need: nat, h: nat, st: State)
    requires |prog| == |ds| && 0 <= st.pc < |ds| && Sound(prog, ds, need, st.pc) && AtDepth(ds, h, st)
    requires OfLoop(prog[st.pc].code)
    ensures Goes(ds, h, StepInstr(m, prog, st, Decode(m.pool, prog[st.pc])))
  {
    hide StepInstr, Decode, StepForInit, StepForCheck, StepForIncr, Goes, Sound;
    LoopDispatch(m, prog, st, prog[st.pc]);
    if prog[st.pc].code == ForInit { InitGoes(m, prog, ds, need, h, st); }
    else if prog[st.pc].code == ForCheck { LoopIsGround(prog, ds, need, st.pc); CheckGoes(m, ds, h, st, prog[st.pc].b); }
    else { LoopIsGround(prog, ds, need, st.pc); IncrGoes(m, ds, h, st, prog[st.pc].a); }
  }

  lemma {:induction false} StepGoes(m: Machine, prog: seq<Op>, ds: seq<nat>, need: nat, h: nat, st: State)
    requires |prog| == |ds| && Sounds(prog, ds, need, 0, |ds|) && AtDepth(ds, h, st) && h + need <= m.limit
    ensures Goes(ds, h, Step(m, prog, st))
  {
    hide StepInstr, Decode, Effect, Goes, AtDepth, Moves;
    if 0 <= st.pc < |prog| {
      assert Sound(prog, ds, need, st.pc);
      if OfLoop(prog[st.pc].code) { LoopGoes(m, prog, ds, need, h, st); }
      else {
        var e := Effect(prog[st.pc]).value;
        EffectMoves(m, prog, st, prog[st.pc], e);
        MovedGoes(m, prog, ds, need, h, st, e, StepInstr(m, prog, st, Decode(m.pool, prog[st.pc])));
      }
    } else {
      assert Goes(ds, h, Failed(Leaves(st))) by { FailedGoes(ds, h, Leaves(st)); }
    }
  }

  lemma {:induction false} FailedGoes(ds: seq<nat>, h: nat, left: Left)
    ensures Goes(ds, h, Failed(left))
  {}

  /** Sound depths are the depths of every run, and no run overflows. */
  lemma {:induction false} RunGoes(m: Machine, prog: seq<Op>, ds: seq<nat>, need: nat, h: nat, st: State, n: nat)
    requires |prog| == |ds| && Sounds(prog, ds, need, 0, |ds|) && AtDepth(ds, h, st) && h + need <= m.limit
    ensures Goes(ds, h, RunN(m, prog, Run(st), n))
    decreases n
  {
    hide Step, Sounds, AtDepth;
    if n == 0 {
    } else {
      StepGoes(m, prog, ds, need, h, st);
      var o := Step(m, prog, st);
      if o.Run? { RunGoes(m, prog, ds, need, h, o.st, n - 1); }
    }
  }

  // ---------- the code of every construct is sound ----------

  ghost predicate DepthsAt(ds: seq<nat>, base: int, part: seq<nat>) {
    0 <= base && base + |part| <= |ds| && forall k :: 0 <= k < |part| ==> ds[base + k] == part[k]
  }

  lemma {:induction false} SplitDepths(ds: seq<nat>, base: int, x: seq<nat>, y: seq<nat>)
    requires DepthsAt(ds, base, x + y)
    ensures DepthsAt(ds, base, x) && DepthsAt(ds, base + |x|, y)
  {
    forall k | 0 <= k < |x| ensures ds[base + k] == x[k] { assert (x + y)[k] == x[k]; }
    forall k | 0 <= k < |y| ensures ds[base + |x| + k] == y[k] { assert (x + y)[|x| + k] == y[k]; }
  }

  lemma {:induction false} FirstStands(ds: seq<nat>, base: int, part: seq<nat>)
    requires DepthsAt(ds, base, part) && part != []
    ensures Stands(ds, base, part[0])
  {
    assert ds[base + 0] == part[0];
  }

  /** Where a block begins the stack is as it was, even if the block is empty. */
  lemma {:induction false} BeginsGround(ds: seq<nat>, base: int, part: seq<nat>)
    requires DepthsAt(ds, base, part) && Stands(ds, base + |part|, 0) && (part != [] ==> part[0] == 0)
    ensures Stands(ds, base, 0)
  {
    if part != [] { FirstStands(ds, base, part); }
  }

  lemma {:induction false} Join(prog: seq<Op>, ds: seq<nat>, need: nat, lo: int, mid: int, hi: int)
    requires |prog| == |ds| && Sounds(prog, ds, need, lo, mid) && Sounds(prog, ds, need, mid, hi) && lo <= mid
    ensures Sounds(prog, ds, need, lo, hi)
  {
    hide Sound;
  }

  lemma {:induction false} SlotSound(prog: seq<Op>, ds: seq<nat>, need: nat, pc: int, s: Sym, d: nat, e: (nat, nat))
    requires |prog| == |ds| && CodeAt(prog, pc, [s]) && DepthsAt(ds, pc, [d])
    requires Effect(Lower(s)) == Some(e) && e.0 <= d && (e.1 > e.0 ==> d - e.0 + e.1 <= need)
    requires InLoop(Lower(s)) ==> d - e.0 + e.1 == 0
    requires (FallsThrough(Lower(s)) ==> Stands(ds, pc + 1, d - e.0 + e.1)) && Stands(ds, TargetOf(Lower(s)), d - e.0 + e.1)
    ensures Sounds(prog, ds, need, pc, pc + 1)
  {
    hide Effect;
    OneCode(prog, pc, s);
    assert [d][0] == d && ds[pc + 0] == [d][0];
  }

  lemma {:induction false} JumpSound(prog: seq<Op>, ds: seq<nat>, need: nat, pc: int, t: Target, d: nat)
    requires |prog| == |ds| && CodeAt(prog, pc, [Jump(t)]) && DepthsAt(ds, pc, [d]) && Stands(ds, PcOf(t), d)
    ensures Sounds(prog, ds, need, pc, pc + 1)
  {
    hide CodeAt, DepthsAt, Stands, Sounds;
    SlotSound(prog, ds, need, pc, Jump(t), d, (0, 0));
  }

  lemma {:induction false} UnlessSound(prog: seq<Op>, ds: seq<nat>, need: nat, pc: int, t: Target, d: nat)
    requires |prog| == |ds| && CodeAt(prog, pc, [Unless(t)]) && DepthsAt(ds, pc, [d + 1])
    requires Stands(ds, PcOf(t), d) && Stands(ds, pc + 1, d)
    ensures Sounds(prog, ds, need, pc, pc + 1)
  {
    hide CodeAt, DepthsAt, Stands, Sounds;
    SlotSound(prog, ds, need, pc, Unless(t), d + 1, (1, 0));
  }

  lemma {:induction false} PlainSound(prog: seq<Op>, ds: seq<nat>, need: nat, pc: int, op: Op, d: nat, e: (nat, nat))
    requires |prog| == |ds| && CodeAt(prog, pc, PlainOps([op])) && DepthsAt(ds, pc, [d])
    requires Steady(op, e) && e.0 <= d && (e.1 > e.0 ==> d - e.0 + e.1 <= need) && Stands(ds, pc + 1, d - e.0 + e.1)
    ensures Sounds(prog, ds, need, pc, pc + 1)
  {
    hide CodeAt, DepthsAt, Sounds, Effect;
    assert PlainOps([op]) == [Plain(op)];
    SlotSound(prog, ds, need, pc, Plain(op), d, e);
  }

  /** An operation that only takes and gives cells. */
  predicate Steady(op: Op, e: (nat, nat)) { Effect(op) == Some(e) && !InLoop(op) && TargetOf(op) == -1 }

  lemma {:induction false} LeafEffect(pool: seq<Num>, x: Operand)
    ensures Steady(LoadOf(pool, x), (0, 1))
  {}

  lemma {:induction false} BinEffect(op: BinOp)
    ensures Steady(BinCode(op), (2, 1))
  {
    if op == Min { } else { assert Binary(BinCode(op).code); }
  }

  lemma {:induction false} CellEffect(op: Op)
    requires Cell(op.code)
    ensures Steady(op, if op.code == Dup then (1, 2) else (1, 0))
  {}

  lemma {:induction false} HaltEffect()
    ensures Steady(Simple(Halt), (0, 0))
  {}

  lemma {:induction false} InitEffect(op: Op)
    requires op.code == ForInit
    ensures Steady(op, (2, 0))
  {}

  lemma {:induction false} PaintEffects()
    ensures Steady(Op(CallFn, 0, 0, FN_COLOR, 3), (3, 0)) && Steady(Op(CallFn, 0, 0, FN_PSET, 2), (2, 0))
  {}

  lemma {:induction false} BinParts(m: Machine, prog: seq<Op>, ds: seq<nat>, e: Expr, base: int, d: nat)
    requires e.Bin? && CodeAt(prog, base, PlainOps(Ops(m.pool, e))) && DepthsAt(ds, base, ExprDepths(e, d))
    ensures var mid, end := base + CodeLength(e.l), base + CodeLength(e.l) + CodeLength(e.r);
            CodeAt(prog, base, PlainOps(Ops(m.pool, e.l))) && DepthsAt(ds, base, ExprDepths(e.l, d)) &&
            CodeAt(prog, mid, PlainOps(Ops(m.pool, e.r))) && DepthsAt(ds, mid, ExprDepths(e.r, d + 1)) &&
            CodeAt(prog, end, PlainOps([BinCode(e.op)])) && DepthsAt(ds, end, [d + 2]) &&
            Stands(ds, mid, d + 1) && Stands(ds, end, d + 2)
  {
    hide CodeAt, DepthsAt, Stands, BinCode;
    var mid, end := base + CodeLength(e.l), base + CodeLength(e.l) + CodeLength(e.r);
    PlainSplit(prog, base, Ops(m.pool, e.l) + Ops(m.pool, e.r), [BinCode(e.op)]);
    PlainSplit(prog, base, Ops(m.pool, e.l), Ops(m.pool, e.r));
    SplitDepths(ds, base, ExprDepths(e.l, d), ExprDepths(e.r, d + 1) + [d + 2]);
    SplitDepths(ds, mid, ExprDepths(e.r, d + 1), [d + 2]);
    FirstStands(ds, mid, ExprDepths(e.r, d + 1));
    FirstStands(ds, end, [d + 2]);
  }

  lemma {:induction false} LeafSound(m: Machine, prog: seq<Op>, ds: seq<nat>, need: nat, x: Operand, base: int, d: nat)
    requires |prog| == |ds| && CodeAt(prog, base, PlainOps(Ops(m.pool, Leaf(x)))) && DepthsAt(ds, base, [d])
    requires d + 1 <= need && Stands(ds, base + 1, d + 1)
    ensures Sounds(prog, ds, need, base, base + 1)
  {
    hide CodeAt, DepthsAt, Sounds, Stands, LoadOf, Steady;
    LeafEffect(m.pool, x);
    PlainSound(prog, ds, need, base, LoadOf(m.pool, x), d, (0, 1));
  }

  lemma {:induction false} ExprSound(
      m: Machine, prog: seq<Op>, ds: seq<nat>, need: nat, e: Expr, base: int, d: nat)
    requires |prog| == |ds| && CodeAt(prog, base, PlainOps(Ops(m.pool, e))) && DepthsAt(ds, base, ExprDepths(e, d))
    requires d + Peak(e) <= need && Stands(ds, base + CodeLength(e), d + 1)
    ensures Sounds(prog, ds, need, base, base + CodeLength(e))
    decreases e
  {
    hide CodeAt, DepthsAt, Sounds, Stands, Ops, PlainOps, Steady, BinCode;
    if e.Leaf? { LeafSound(m, prog, ds, need, e.x, base, d); }
    else {
      var mid, end := base + CodeLength(e.l), base + CodeLength(e.l) + CodeLength(e.r);
      BinParts(m, prog, ds, e, base, d);
      ExprSound(m, prog, ds, need, e.l, base, d);
      ExprSound(m, prog, ds, need, e.r, mid, d + 1);
      BinEffect(e.op);
      PlainSound(prog, ds, need, end, BinCode(e.op), d + 2, (2, 1));
      Join(prog, ds, need, base, mid, end);
      Join(prog, ds, need, base, end, end + 1);
    }
  }

  lemma {:induction false} TestSound(
      m: Machine, prog: seq<Op>, ds: seq<nat>, need: nat, e: Expr, base: int, t: Target)
    requires |prog| == |ds| && CodeAt(prog, base, PlainOps(Ops(m.pool, e)) + [Unless(t)]) && DepthsAt(ds, base, TestDepths(e))
    requires Peak(e) <= need && Stands(ds, base + CodeLength(e) + 1, 0) && Stands(ds, PcOf(t), 0)
    ensures Sounds(prog, ds, need, base, base + CodeLength(e) + 1)
  {
    hide CodeAt, DepthsAt, Sounds, Stands, Ops, PlainOps;
    var end := base + CodeLength(e);
    SplitCode(prog, base, PlainOps(Ops(m.pool, e)), [Unless(t)]);
    SplitDepths(ds, base, ExprDepths(e, 0), [1]);
    FirstStands(ds, end, [1]);
    ExprSound(m, prog, ds, need, e, base, 0);
    UnlessSound(prog, ds, need, end, t, 0);
    Join(prog, ds, need, base, end, end + 1);
  }

  // ---------- simple statements ----------

  lemma {:induction false} LetIs(pool: seq<Num>, s: Stmt)
    requires s.Let?
    ensures Size(s) == CodeLength(s.e) + 1 && Need(s) == Peak(s.e) && SimpleDepths(s) == ExprDepths(s.e, 0) + [1]
    ensures SimpleOps(pool, s) == Ops(pool, s.e) + [Op(StoreNum, 0, 0, s.slot, 0)]
  {}

  lemma {:induction false} LetSound(m: Machine, prog: seq<Op>, ds: seq<nat>, need: nat, s: Stmt, base: int)
    requires s.Let? && |prog| == |ds| && Need(s) <= need && Stands(ds, base + Size(s), 0)
    requires CodeAt(prog, base, PlainOps(SimpleOps(m.pool, s))) && DepthsAt(ds, base, SimpleDepths(s))
    ensures Sounds(prog, ds, need, base, base + Size(s))
  {
    hide CodeAt, DepthsAt, Sounds, Stands, Ops, PlainOps, Steady, CodeLength, Size, Need, Peak,
        SimpleOps, SimpleDepths, ExprDepths;
    LetIs(m.pool, s);
    var end := base + CodeLength(s.e);
    PlainSplit(prog, base, Ops(m.pool, s.e), [Op(StoreNum, 0, 0, s.slot, 0)]);
    SplitDepths(ds, base, ExprDepths(s.e, 0), [1]);
    FirstStands(ds, end, [1]);
    ExprSound(m, prog, ds, need, s.e, base, 0);
    CellEffect(Op(StoreNum, 0, 0, s.slot, 0));
    PlainSound(prog, ds, need, end, Op(StoreNum, 0, 0, s.slot, 0), 1, (1, 0));
    Join(prog, ds, need, base, end, end + 1);
  }

  /** Two expressions in a row, the second with the value of the first below it. */
  lemma {:induction false} PairSound(
      m: Machine, prog: seq<Op>, ds: seq<nat>, need: nat, x: Expr, y: Expr, base: int, d: nat)
    requires |prog| == |ds| && d + Peak(x) <= need && d + 1 + Peak(y) <= need
    requires CodeAt(prog, base, PlainOps(Ops(m.pool, x) + Ops(m.pool, y)))
    requires DepthsAt(ds, base, ExprDepths(x, d)) && DepthsAt(ds, base + CodeLength(x), ExprDepths(y, d + 1))
    requires Stands(ds, base + CodeLength(x) + CodeLength(y), d + 2)
    ensures Sounds(prog, ds, need, base, base + CodeLength(x) + CodeLength(y))
  {
    hide CodeAt, DepthsAt, Sounds, Stands, Ops, PlainOps, Steady, CodeLength, Peak, ExprDepths;
    var mid := base + CodeLength(x);
    PlainSplit(prog, base, Ops(m.pool, x), Ops(m.pool, y));
    FirstStands(ds, mid, ExprDepths(y, d + 1));
    ExprSound(m, prog, ds, need, x, base, d);
    ExprSound(m, prog, ds, need, y, mid, d + 1);
    Join(prog, ds, need, base, mid, mid + CodeLength(y));
  }

  lemma {:induction false} PixelIs(pool: seq<Num>, s: Stmt)
    requires s.SetPixel?
    ensures Size(s) == CodeLength(s.x) + CodeLength(s.y) + 1 && Peak(s.x) <= Need(s) && 1 + Peak(s.y) <= Need(s)
    ensures SimpleDepths(s) == ExprDepths(s.x, 0) + (ExprDepths(s.y, 1) + [2])
    ensures SimpleOps(pool, s) == Ops(pool, s.x) + Ops(pool, s.y) + [Op(CallFn, 0, 0, FN_PSET, 2)]
  {
    hide Peak, CodeLength, Ops, ExprDepths;
  }

  lemma {:induction false} ColorIs(pool: seq<Num>, s: Stmt)
    requires s.SetColor?
    ensures Size(s) == CodeLength(s.r) + CodeLength(s.g) + CodeLength(s.b) + 1
    ensures Peak(s.r) <= Need(s) && 1 + Peak(s.g) <= Need(s) && 2 + Peak(s.b) <= Need(s)
    ensures SimpleDepths(s) == ExprDepths(s.r, 0) + (ExprDepths(s.g, 1) + (ExprDepths(s.b, 2) + [3]))
    ensures SimpleOps(pool, s) == Ops(pool, s.r) + Ops(pool, s.g) + Ops(pool, s.b) + [Op(CallFn, 0, 0, FN_COLOR, 3)]
  {
    hide Peak, CodeLength, Ops, ExprDepths;
  }

  lemma {:induction false} PixelSound(m: Machine, prog: seq<Op>, ds: seq<nat>, need: nat, s: Stmt, base: int)
    requires s.SetPixel? && |prog| == |ds| && Need(s) <= need && Stands(ds, base + Size(s), 0)
    requires CodeAt(prog, base, PlainOps(SimpleOps(m.pool, s))) && DepthsAt(ds, base, SimpleDepths(s))
    ensures Sounds(prog, ds, need, base, base + Size(s))
  {
    hide CodeAt, DepthsAt, Sounds, Stands, Ops, PlainOps, Steady, CodeLength, Size, Need, Peak, SimpleOps, SimpleDepths,
        ExprDepths;
    PixelIs(m.pool, s);
    var end := base + CodeLength(s.x) + CodeLength(s.y);
    PlainSplit(prog, base, Ops(m.pool, s.x) + Ops(m.pool, s.y), [Op(CallFn, 0, 0, FN_PSET, 2)]);
    SplitDepths(ds, base, ExprDepths(s.x, 0), ExprDepths(s.y, 1) + [2]);
    SplitDepths(ds, base + CodeLength(s.x), ExprDepths(s.y, 1), [2]);
    FirstStands(ds, end, [2]);
    PairSound(m, prog, ds, need, s.x, s.y, base, 0);
    PaintEffects();
    PlainSound(prog, ds, need, end, Op(CallFn, 0, 0, FN_PSET, 2), 2, (2, 0));
    Join(prog, ds, need, base, end, end + 1);
  }

  lemma {:induction false} ColorDepths(ds: seq<nat>, s: Stmt, base: int)
    requires s.SetColor? && DepthsAt(ds, base, SimpleDepths(s))
    ensures var i := base + CodeLength(s.r);
            DepthsAt(ds, base, ExprDepths(s.r, 0)) && DepthsAt(ds, i, ExprDepths(s.g, 1)) &&
            DepthsAt(ds, i + CodeLength(s.g), ExprDepths(s.b, 2)) &&
            DepthsAt(ds, i + CodeLength(s.g) + CodeLength(s.b), [3])
  {
    hide DepthsAt, CodeLength, ExprDepths;
    var i := base + CodeLength(s.r);
    SplitDepths(ds, base, ExprDepths(s.r, 0), ExprDepths(s.g, 1) + (ExprDepths(s.b, 2) + [3]));
    SplitDepths(ds, i, ExprDepths(s.g, 1), ExprDepths(s.b, 2) + [3]);
    SplitDepths(ds, i + CodeLength(s.g), ExprDepths(s.b, 2), [3]);
  }

  lemma {:induction false} ColorSound(m: Machine, prog: seq<Op>, ds: seq<nat>, need: nat, s: Stmt, base: int)
    requires s.SetColor? && |prog| == |ds| && Need(s) <= need && Stands(ds, base + Size(s), 0)
    requires CodeAt(prog, base, PlainOps(SimpleOps(m.pool, s))) && DepthsAt(ds, base, SimpleDepths(s))
    ensures Sounds(prog, ds, need, base, base + Size(s))
  {
    hide CodeAt, DepthsAt, Sounds, Stands, Ops, PlainOps, Steady, CodeLength, Size, Need, Peak, SimpleOps, SimpleDepths,
        ExprDepths;
    ColorIs(m.pool, s);
    var mid := base + CodeLength(s.r) + CodeLength(s.g);
    var end := mid + CodeLength(s.b);
    var r, g, b := Ops(m.pool, s.r), Ops(m.pool, s.g), Ops(m.pool, s.b);
    PlainSplit(prog, base, r + g + b, [Op(CallFn, 0, 0, FN_COLOR, 3)]);
    PlainSplit(prog, base, r + g, b);
    ColorDepths(ds, s, base);
    FirstStands(ds, mid, ExprDepths(s.b, 2));
    FirstStands(ds, end, [3]);
    PairSound(m, prog, ds, need, s.r, s.g, base, 0);
    ExprSound(m, prog, ds, need, s.b, mid, 2);
    PaintEffects();
    PlainSound(prog, ds, need, end, Op(CallFn, 0, 0, FN_COLOR, 3), 3, (3, 0));
    Join(prog, ds, need, base, mid, end);
    Join(prog, ds, need, base, end, end + 1);
  }

  /** EXIT FOR and EXIT DO lead where nothing is on the stack. */
  predicate ExitsGround(ds: seq<nat>, c: Context) { Stands(ds, PcOf(c.forExit), 0) && Stands(ds, PcOf(c.doExit), 0) }

  lemma {:induction false} EndSound(
      m: Machine, prog: seq<Op>, ds: seq<nat>, need: nat, s: Stmt, base: int)
    requires s.End? && |prog| == |ds| && Stands(ds, base + 1, 0)
    requires CodeAt(prog, base, PlainOps(SimpleOps(m.pool, s))) && DepthsAt(ds, base, SimpleDepths(s))
    ensures Sounds(prog, ds, need, base, base + 1)
  {
    hide CodeAt, DepthsAt, Sounds, Stands, PlainOps, Steady;
    HaltOps(m.pool, s);
    PlainOne(Simple(Halt));
    HaltEffect();
    PlainSound(prog, ds, need, base, Simple(Halt), 0, (0, 0));
  }

  lemma {:induction false} LeaveSound(
      prog: seq<Op>, ds: seq<nat>, need: nat, base: int, t: Target, discard: int, depth: int)
    requires |prog| == |ds| && Stands(ds, PcOf(t), 0)
    requires CodeAt(prog, base, [Leave(t, discard, depth)]) && DepthsAt(ds, base, [0])
    ensures Sounds(prog, ds, need, base, base + 1)
  {
    hide CodeAt, DepthsAt, Sounds, Stands;
    SlotSound(prog, ds, need, base, Leave(t, discard, depth), 0, (0, 0));
  }

  lemma {:induction false} SimpleSound(
      m: Machine, prog: seq<Op>, ds: seq<nat>, need: nat, s: Stmt, base: int, c: Context)
    requires IsSimple(s) && |prog| == |ds| && Need(s) <= need && Stands(ds, base + Size(s), 0) && ExitsGround(ds, c)
    requires CodeAt(prog, base, Body(m.pool, s, base, c)) && DepthsAt(ds, base, Depths(s))
    ensures Sounds(prog, ds, need, base, base + Size(s))
  {
    hide CodeAt, DepthsAt, Sounds, Stands, PlainOps, SimpleOps, Need;
    if s.Let? { LetSound(m, prog, ds, need, s, base); }
    else if s.SetPixel? { PixelSound(m, prog, ds, need, s, base); }
    else if s.SetColor? { ColorSound(m, prog, ds, need, s, base); }
    else if s.End? { EndSound(m, prog, ds, need, s, base); }
    else if s.LeaveFor? { LeaveSound(prog, ds, need, base, c.forExit, 1, c.fors); }
    else { LeaveSound(prog, ds, need, base, c.doExit, c.fors - c.doFors, c.fors); }
  }

  // ---------- CASE tests ----------

  /** A copy of the selector compared with a constant, and the jump on failure. */
  lemma {:induction false} CompareSound(
      m: Machine, prog: seq<Op>, ds: seq<nat>, need: nat, c: OpCode, w: Num, fail: int, pc: int)
    requires |prog| == |ds| && Comparison(c) && need >= 3
    requires CodeAt(prog, pc, CompareCode(m, c, w, fail)) && DepthsAt(ds, pc, [1, 2, 3, 2])
    requires Stands(ds, fail, 1) && Stands(ds, pc + 4, 1)
    ensures Sounds(prog, ds, need, pc, pc + 4)
  {
    hide CodeAt, DepthsAt, Sounds, Stands, Steady, PushOf;
    FourCode(prog, pc, Plain(Simple(Dup)), Plain(PushOf(m.pool, w)), Plain(Simple(c)), Unless(At(fail)));
    FourDepths(ds, pc, 1, 2, 3, 2);
    OneDepth(ds, pc + 1, 2);
    OneDepth(ds, pc + 2, 3);
    OneDepth(ds, pc + 3, 2);
    PlainOne(Simple(Dup));
    PlainOne(PushOf(m.pool, w));
    PlainOne(Simple(c));
    CompareEffects(m.pool, c, w);
    PlainSound(prog, ds, need, pc, Simple(Dup), 1, (1, 2));
    PlainSound(prog, ds, need, pc + 1, PushOf(m.pool, w), 2, (0, 1));
    PlainSound(prog, ds, need, pc + 2, Simple(c), 3, (2, 1));
    UnlessSound(prog, ds, need, pc + 3, At(fail), 1);
    Join(prog, ds, need, pc, pc + 1, pc + 2);
    Join(prog, ds, need, pc, pc + 2, pc + 3);
    Join(prog, ds, need, pc, pc + 3, pc + 4);
  }

  lemma {:induction false} CompareEffects(pool: seq<Num>, c: OpCode, w: Num)
    requires Comparison(c)
    ensures Steady(Simple(Dup), (1, 2)) && Steady(PushOf(pool, w), (0, 1)) && Steady(Simple(c), (2, 1))
  {
    hide Steady, PushOf;
    CellEffect(Simple(Dup));
    assert PushOf(pool, w) == LoadOf(pool, Literal(w));
    LeafEffect(pool, Literal(w));
    assert Simple(c) == BinCode(CompareOp(c));
    BinEffect(CompareOp(c));
  }

  lemma {:induction false} OneDepth(ds: seq<nat>, pc: int, d: nat)
    requires DepthsAt(ds, pc, [d])
    ensures Stands(ds, pc, d)
  {
    FirstStands(ds, pc, [d]);
  }

  lemma {:induction false} FourDepths(ds: seq<nat>, pc: int, a: nat, b: nat, c: nat, d: nat)
    requires DepthsAt(ds, pc, [a, b, c, d])
    ensures DepthsAt(ds, pc, [a]) && DepthsAt(ds, pc + 1, [b]) && DepthsAt(ds, pc + 2, [c]) && DepthsAt(ds, pc + 3, [d])
  {
    hide DepthsAt;
    assert [a, b, c, d] == [a] + [b, c, d] && [b, c, d] == [b] + [c, d] && [c, d] == [c] + [d];
    SplitDepths(ds, pc, [a], [b, c, d]);
    SplitDepths(ds, pc + 1, [b], [c, d]);
    SplitDepths(ds, pc + 2, [c], [d]);
  }

  lemma {:induction false} ItemSound(
      m: Machine, prog: seq<Op>, ds: seq<nat>, need: nat, item: Literals, hit: int, pc: int)
    requires |prog| == |ds| && need >= 3 && Stands(ds, hit, 1)
    requires CodeAt(prog, pc, Test(ItemOf(m.pool, item), pc, At(hit))) && DepthsAt(ds, pc, ItemDepths(item))
    requires Stands(ds, pc + TestLength(ItemOf(m.pool, item)), 1)
    ensures Sounds(prog, ds, need, pc, pc + TestLength(ItemOf(m.pool, item)))
  {
    if item.OneOf? { OneItemSound(m, prog, ds, need, item.v, hit, pc); }
    else { RangeItemSound(m, prog, ds, need, item.low, item.high, hit, pc); }
  }

  lemma {:induction false} OneItemSound(
      m: Machine, prog: seq<Op>, ds: seq<nat>, need: nat, v: Num, hit: int, pc: int)
    requires |prog| == |ds| && need >= 3 && Stands(ds, hit, 1) && Stands(ds, pc + 5, 1)
    requires CodeAt(prog, pc, Test(One(PushOf(m.pool, v)), pc, At(hit))) && DepthsAt(ds, pc, [1, 2, 3, 2, 1])
    ensures Sounds(prog, ds, need, pc, pc + 5)
  {
    hide CodeAt, DepthsAt, Sounds, Stands, PushOf;
    var compare := CompareCode(m, CeqNum, v, pc + 5);
    assert Test(One(PushOf(m.pool, v)), pc, At(hit)) == compare + [Jump(At(hit))];
    assert [1, 2, 3, 2, 1] == [1, 2, 3, 2] + [1];
    SplitCode(prog, pc, compare, [Jump(At(hit))]);
    SplitDepths(ds, pc, [1, 2, 3, 2], [1]);
    OneDepth(ds, pc + 4, 1);
    CompareSound(m, prog, ds, need, CeqNum, v, pc + 5, pc);
    JumpSound(prog, ds, need, pc + 4, At(hit), 1);
    Join(prog, ds, need, pc, pc + 4, pc + 5);
  }

  lemma {:induction false} RangeItemSound(
      m: Machine, prog: seq<Op>, ds: seq<nat>, need: nat, low: Num, high: Num, hit: int, pc: int)
    requires |prog| == |ds| && need >= 3 && Stands(ds, hit, 1) && Stands(ds, pc + 9, 1)
    requires CodeAt(prog, pc, Test(Range(PushOf(m.pool, low), PushOf(m.pool, high)), pc, At(hit)))
    requires DepthsAt(ds, pc, [1, 2, 3, 2] + [1, 2, 3, 2, 1])
    ensures Sounds(prog, ds, need, pc, pc + 9)
  {
    hide CodeAt, DepthsAt, Sounds, Stands, PushOf, Test;
    RangeCode(m, prog, low, high, hit, pc);
    SplitDepths(ds, pc, [1, 2, 3, 2], [1, 2, 3, 2, 1]);
    assert [1, 2, 3, 2, 1] == [1, 2, 3, 2] + [1];
    SplitDepths(ds, pc + 4, [1, 2, 3, 2], [1]);
    FirstStands(ds, pc + 4, [1, 2, 3, 2]);
    OneDepth(ds, pc + 8, 1);
    CompareSound(m, prog, ds, need, CgeNum, low, pc + 9, pc);
    CompareSound(m, prog, ds, need, CleNum, high, pc + 9, pc + 4);
    JumpSound(prog, ds, need, pc + 8, At(hit), 1);
    Join(prog, ds, need, pc, pc + 4, pc + 8);
    Join(prog, ds, need, pc, pc + 8, pc + 9);
  }

  lemma {:induction false} ItemsSound(
      m: Machine, prog: seq<Op>, ds: seq<nat>, need: nat, items: seq<Literals>, hit: int, pc: int)
    requires |prog| == |ds| && need >= 3 && Stands(ds, hit, 1) && 0 <= pc <= |ds|
    requires CodeAt(prog, pc, Tests(ItemsOf(m.pool, items), pc, At(hit))) && DepthsAt(ds, pc, ItemsDepths(items))
    requires Stands(ds, pc + LiteralsSize(items), 1)
    ensures Sounds(prog, ds, need, pc, pc + LiteralsSize(items))
    decreases |items|
  {
    hide CodeAt, DepthsAt, Stands, Tests, Test, ItemsOf, ItemDepths, Sound;
    if items != [] {
      var mid := pc + TestLength(ItemOf(m.pool, items[0]));
      TestsFirst(m, prog, items, hit, pc);
      SplitItems(ds, items, pc, mid);
      if items[1..] != [] { FirstStands(ds, mid, ItemsDepths(items[1..])); }
      ItemSound(m, prog, ds, need, items[0], hit, pc);
      ItemsSound(m, prog, ds, need, items[1..], hit, mid);
      Join(prog, ds, need, pc, mid, pc + LiteralsSize(items));
    }
  }

  lemma {:induction false} SplitItems(ds: seq<nat>, items: seq<Literals>, pc: int, mid: int)
    requires items != [] && DepthsAt(ds, pc, ItemsDepths(items)) && mid == pc + |ItemDepths(items[0])|
    ensures DepthsAt(ds, pc, ItemDepths(items[0])) && DepthsAt(ds, mid, ItemsDepths(items[1..])) && 0 <= mid <= |ds|
    ensures items[1..] != [] ==> ItemsDepths(items[1..]) != []
  {
    hide DepthsAt, ItemDepths;
    SplitDepths(ds, pc, ItemDepths(items[0]), ItemsDepths(items[1..]));
    WithinDepths(ds, mid, ItemsDepths(items[1..]));
    LiteralsGrow(items[1..]);
  }

  lemma {:induction false} LiteralsGrow(items: seq<Literals>)
    ensures items != [] ==> LiteralsSize(items) > 0
  {}

  lemma {:induction false} WithinDepths(ds: seq<nat>, base: int, part: seq<nat>)
    requires DepthsAt(ds, base, part)
    ensures 0 <= base && base + |part| <= |ds|
  {}

  // ---------- statements and blocks ----------

  lemma {:induction false} InnerExits(ds: seq<nat>, c: Context, end: int)
    requires ExitsGround(ds, c) && Stands(ds, end, 0)
    ensures ExitsGround(ds, c.(doExit := At(end), doFors := c.fors))
    ensures ExitsGround(ds, c.(forExit := At(end), fors := c.fors + 1))
  {
    hide Stands;
  }

  lemma {:induction false} StmtSound(
      m: Machine, prog: seq<Op>, ds: seq<nat>, need: nat, s: Stmt, base: int, c: Context)
    requires |prog| == |ds| && Need(s) <= need && Stands(ds, base + Size(s), 0) && ExitsGround(ds, c)
    requires CodeAt(prog, base, Body(m.pool, s, base, c)) && DepthsAt(ds, base, Depths(s))
    ensures Sounds(prog, ds, need, base, base + Size(s))
    decreases s, 1
  {
    hide CodeAt, DepthsAt, Sounds, Stands, Body, Depths, Need, Size, ExitsGround;
    if IsSimple(s) { SimpleSound(m, prog, ds, need, s, base, c); }
    else if s.OneLine? { OneLineSound(m, prog, ds, need, s, base, c); }
    else if s.WhileLoop? { WhileSound(m, prog, ds, need, s, base, c); }
    else if s.DoLoop? { DoSound(m, prog, ds, need, s, base, c); }
    else if s.ForLoop? { ForSound(m, prog, ds, need, s, base, c); }
    else if s.Choose? { ChooseSound(m, prog, ds, need, s, base, c); }
    else { SelectSound(m, prog, ds, need, s, base, c); }
  }

  lemma {:induction false} BlockSound(
      m: Machine, prog: seq<Op>, ds: seq<nat>, need: nat, b: Block, base: int, c: Context)
    requires |prog| == |ds| && BlockNeed(b) <= need && Stands(ds, base + BlockSize(b), 0) && ExitsGround(ds, c)
    requires CodeAt(prog, base, BlockBody(m.pool, b, base, c)) && DepthsAt(ds, base, BlockDepths(b))
    ensures Sounds(prog, ds, need, base, base + BlockSize(b))
    decreases b, 1
  {
    hide CodeAt, DepthsAt, Stands, Body, Depths, Need, Size, ExitsGround, Sound;
    WithinDepths(ds, base, BlockDepths(b));
    if b.Cons? {
      var mid := base + Size(b.head);
      ConsCode(m, prog, b, base, c);
      SplitDepths(ds, base, Depths(b.head), BlockDepths(b.tail));
      BeginsGround(ds, mid, BlockDepths(b.tail));
      StmtSound(m, prog, ds, need, b.head, base, c);
      BlockSound(m, prog, ds, need, b.tail, mid, c);
      Join(prog, ds, need, base, mid, base + BlockSize(b));
    }
  }

  lemma {:induction false} OneLineDepths(ds: seq<nat>, s: Stmt, base: int)
    requires s.OneLine? && DepthsAt(ds, base, Depths(s)) && Stands(ds, base + Size(s), 0)
    ensures var at := base + CodeLength(s.test) + 1;
            var out := at + Size(s.yes) + if s.no.None? then 0 else 1;
            DepthsAt(ds, base, TestDepths(s.test)) && DepthsAt(ds, at, Depths(s.yes)) && Stands(ds, at, 0) &&
            Stands(ds, at + Size(s.yes), 0) && Stands(ds, out, 0) &&
            (s.no.Some? ==> DepthsAt(ds, at + Size(s.yes), [0]) && DepthsAt(ds, out, Depths(s.no.value)))
  {
    hide DepthsAt, Stands, TestDepths, Size, CodeLength;
    OneLineSize(s);
    var at := base + CodeLength(s.test) + 1;
    var last := if s.no.None? then [] else [0] + Depths(s.no.value);
    SplitDepths(ds, base, TestDepths(s.test), Depths(s.yes) + last);
    SplitDepths(ds, at, Depths(s.yes), last);
    BeginsGround(ds, at, Depths(s.yes) + last);
    BeginsGround(ds, at + Size(s.yes), last);
    if s.no.Some? {
      SplitDepths(ds, at + Size(s.yes), [0], Depths(s.no.value));
      BeginsGround(ds, at + Size(s.yes) + 1, Depths(s.no.value));
    }
  }

  lemma {:induction false} OneLineSound(
      m: Machine, prog: seq<Op>, ds: seq<nat>, need: nat, s: Stmt, base: int, c: Context)
    requires s.OneLine? && |prog| == |ds| && Need(s) <= need && Stands(ds, base + Size(s), 0) && ExitsGround(ds, c)
    requires CodeAt(prog, base, Body(m.pool, s, base, c)) && DepthsAt(ds, base, Depths(s))
    ensures Sounds(prog, ds, need, base, base + Size(s))
    decreases s, 0
  {
    hide CodeAt, DepthsAt, Sounds, Stands, Body, Depths, TestDepths, Size, ExitsGround, Ops, PlainOps;
    OneLineSize(s);
    var at := base + CodeLength(s.test) + 1;
    var mid := at + Size(s.yes);
    var out := mid + if s.no.None? then 0 else 1;
    OneLineCode(m, prog, s, base, c);
    OneLineDepths(ds, s, base);
    TestSound(m, prog, ds, need, s.test, base, At(out));
    StmtSound(m, prog, ds, need, s.yes, at, c);
    Join(prog, ds, need, base, at, mid);
    if s.no.Some? {
      JumpSound(prog, ds, need, mid, At(base + Size(s)), 0);
      StmtSound(m, prog, ds, need, s.no.value, out, c);
      Join(prog, ds, need, base, mid, out);
      Join(prog, ds, need, base, out, base + Size(s));
    }
  }

  lemma {:induction false} WhileDepths(ds: seq<nat>, s: Stmt, base: int)
    requires s.WhileLoop? && DepthsAt(ds, base, Depths(s))
    ensures var at := base + CodeLength(s.test) + 1;
            DepthsAt(ds, base, TestDepths(s.test)) && DepthsAt(ds, at, BlockDepths(s.body)) && Stands(ds, base, 0) &&
            Stands(ds, at, 0) && DepthsAt(ds, at + BlockSize(s.body), [0]) && Stands(ds, at + BlockSize(s.body), 0)
  {
    hide DepthsAt, Stands, CodeLength;
    var at := base + CodeLength(s.test) + 1;
    SplitDepths(ds, base, TestDepths(s.test), BlockDepths(s.body) + [0]);
    SplitDepths(ds, at, BlockDepths(s.body), [0]);
    FirstStands(ds, base, TestDepths(s.test));
    FirstStands(ds, at, BlockDepths(s.body) + [0]);
    OneDepth(ds, at + BlockSize(s.body), 0);
  }

  lemma {:induction false} WhileSound(
      m: Machine, prog: seq<Op>, ds: seq<nat>, need: nat, s: Stmt, base: int, c: Context)
    requires s.WhileLoop? && |prog| == |ds| && Need(s) <= need && Stands(ds, base + Size(s), 0) && ExitsGround(ds, c)
    requires CodeAt(prog, base, Body(m.pool, s, base, c)) && DepthsAt(ds, base, Depths(s))
    ensures Sounds(prog, ds, need, base, base + Size(s))
    decreases s, 0
  {
    hide CodeAt, DepthsAt, Sounds, Stands, Body, Depths, TestDepths, BlockDepths, Size, ExitsGround, Ops, PlainOps, BlockBody;
    var at := base + CodeLength(s.test) + 1;
    var end := at + BlockSize(s.body);
    WhileCode(m, prog, s, base, c);
    WhileDepths(ds, s, base);
    TestSound(m, prog, ds, need, s.test, base, At(base + Size(s)));
    BlockSound(m, prog, ds, need, s.body, at, c);
    JumpSound(prog, ds, need, end, At(base), 0);
    Join(prog, ds, need, base, at, end);
    Join(prog, ds, need, base, end, end + 1);
  }

  lemma {:induction false} DoDepths(ds: seq<nat>, s: Stmt, base: int)
    requires s.DoLoop? && DepthsAt(ds, base, Depths(s))
    ensures var at := base + TestSize(s.entry);
            (s.entry.Some? ==> DepthsAt(ds, base, TestDepths(s.entry.value))) && DepthsAt(ds, at, BlockDepths(s.body)) &&
            DepthsAt(ds, at + BlockSize(s.body), if s.until.None? then [0] else TestDepths(s.until.value)) &&
            Stands(ds, base, 0) && Stands(ds, at, 0) && Stands(ds, at + BlockSize(s.body), 0)
  {
    hide DepthsAt, Stands, BlockDepths, TestDepths, CodeLength;
    var at := base + TestSize(s.entry);
    var entry := if s.entry.None? then [] else TestDepths(s.entry.value);
    var until := if s.until.None? then [0] else TestDepths(s.until.value);
    SplitDepths(ds, base, entry, BlockDepths(s.body) + until);
    SplitDepths(ds, at, BlockDepths(s.body), until);
    FirstStands(ds, base, entry + (BlockDepths(s.body) + until));
    FirstStands(ds, at, BlockDepths(s.body) + until);
    FirstStands(ds, at + BlockSize(s.body), until);
  }

  lemma {:induction false} NothingSound(prog: seq<Op>, ds: seq<nat>, need: nat, base: int)
    requires |prog| == |ds| && CodeAt(prog, base, [])
    ensures Sounds(prog, ds, need, base, base)
  {}

  lemma {:induction false} EntrySound(
      m: Machine, prog: seq<Op>, ds: seq<nat>, need: nat, entry: Option<Expr>, base: int, end: int)
    requires |prog| == |ds| && TestNeed(entry) <= need && Stands(ds, end, 0) && Stands(ds, base + TestSize(entry), 0)
    requires CodeAt(prog, base, EntryCode(m.pool, entry, At(end)))
    requires entry.Some? ==> DepthsAt(ds, base, TestDepths(entry.value))
    ensures Sounds(prog, ds, need, base, base + TestSize(entry))
  {
    hide CodeAt, DepthsAt, Sounds, Stands, TestDepths, Ops, PlainOps;
    if entry.Some? { TestSound(m, prog, ds, need, entry.value, base, At(end)); } else { NothingSound(prog, ds, need, base); }
  }

  lemma {:induction false} BackSound(
      m: Machine, prog: seq<Op>, ds: seq<nat>, need: nat, until: Option<Expr>, start: int, base: int, end: int)
    requires |prog| == |ds| && TestNeed(until) <= need && Stands(ds, start, 0) && Stands(ds, end, 0)
    requires end == base + TestSize(until) + (if until.None? then 1 else 0)
    requires CodeAt(prog, base, BackCode(m.pool, until, start))
    requires DepthsAt(ds, base, if until.None? then [0] else TestDepths(until.value))
    ensures Sounds(prog, ds, need, base, end)
  {
    hide CodeAt, DepthsAt, Stands, TestDepths, Ops, PlainOps, Sounds;
    if until.Some? { TestSound(m, prog, ds, need, until.value, base, At(start)); }
    else { JumpSound(prog, ds, need, base, At(start), 0); }
  }

  lemma {:induction false} DoSound(
      m: Machine, prog: seq<Op>, ds: seq<nat>, need: nat, s: Stmt, base: int, c: Context)
    requires s.DoLoop? && |prog| == |ds| && Need(s) <= need && Stands(ds, base + Size(s), 0) && ExitsGround(ds, c)
    requires CodeAt(prog, base, Body(m.pool, s, base, c)) && DepthsAt(ds, base, Depths(s))
    ensures Sounds(prog, ds, need, base, base + Size(s))
    decreases s, 0
  {
    hide CodeAt, DepthsAt, Sounds, Stands, Body, Depths, TestDepths, BlockDepths, Size, EntryCode, BackCode, BlockBody, ExitsGround;
    var end, at := base + Size(s), base + TestSize(s.entry);
    var mid := at + BlockSize(s.body);
    DoCode(m, prog, s, base, c);
    DoDepths(ds, s, base);
    InnerExits(ds, c, end);
    EntrySound(m, prog, ds, need, s.entry, base, end);
    BlockSound(m, prog, ds, need, s.body, at, c.(doExit := At(end), doFors := c.fors));
    BackSound(m, prog, ds, need, s.until, base, mid, end);
    Join(prog, ds, need, base, at, mid);
    Join(prog, ds, need, base, mid, end);
  }

  lemma {:induction false} HeaderParts(ds: seq<nat>, s: Stmt, base: int)
    requires s.ForLoop? && DepthsAt(ds, base, HeaderDepths(s.first, s.limit, s.step))
    ensures var i := base + CodeLength(s.first);
            var j := i + 1 + CodeLength(s.limit) + CodeLength(s.step);
            DepthsAt(ds, base, SimpleDepths(Let(s.slot, s.first))) && DepthsAt(ds, i + 1, ExprDepths(s.limit, 0)) &&
            DepthsAt(ds, i + 1 + CodeLength(s.limit), ExprDepths(s.step, 1)) && DepthsAt(ds, j, [2]) &&
            DepthsAt(ds, j + 1, [0]) && Stands(ds, i + 1, 0) && Stands(ds, j, 2) && Stands(ds, j + 1, 0)
  {
    hide DepthsAt, Stands, ExprDepths, CodeLength;
    assert SimpleDepths(Let(s.slot, s.first)) == ExprDepths(s.first, 0) + [1];
    var i := base + CodeLength(s.first) + 1;
    var pair := ExprDepths(s.limit, 0) + ExprDepths(s.step, 1);
    SplitDepths(ds, base, ExprDepths(s.first, 0) + [1], pair + ([2] + [0]));
    SplitDepths(ds, i, pair, [2] + [0]);
    SplitDepths(ds, i, ExprDepths(s.limit, 0), ExprDepths(s.step, 1));
    SplitDepths(ds, i + |pair|, [2], [0]);
    FirstStands(ds, i, ExprDepths(s.limit, 0));
    OneDepth(ds, i + |pair|, 2);
    OneDepth(ds, i + |pair| + 1, 0);
  }

  lemma {:induction false} HeaderSound(m: Machine, prog: seq<Op>, ds: seq<nat>, need: nat, s: Stmt, base: int)
    requires s.ForLoop? && |prog| == |ds| && Need(s) <= need && DepthsAt(ds, base, HeaderDepths(s.first, s.limit, s.step))
    requires CodeAt(prog, base, PlainOps(ForHeader(base, s.slot, Ops(m.pool, s.first), Ops(m.pool, s.limit),
        Ops(m.pool, s.step))))
    requires var n := CodeLength(s.first) + CodeLength(s.limit) + CodeLength(s.step) + 3;
             Stands(ds, base + n, 0) && Stands(ds, base + n + 1, 0)
    ensures Sounds(prog, ds, need, base, base + CodeLength(s.first) + CodeLength(s.limit) + CodeLength(s.step) + 3)
  {
    hide CodeAt, DepthsAt, Sounds, Stands, HeaderDepths, ForHeader, Ops, PlainOps, SimpleDepths, ExprDepths, Steady;
    var let := Let(s.slot, s.first);
    var i := base + CodeLength(s.first) + 1;
    var j := i + CodeLength(s.limit) + CodeLength(s.step);
    HeaderCode(m, prog, s, base);
    HeaderParts(ds, s, base);
    assert SimpleOps(m.pool, let) == Ops(m.pool, s.first) + [Op(StoreNum, 0, 0, s.slot, 0)];
    LetSound(m, prog, ds, need, let, base);
    PairSound(m, prog, ds, need, s.limit, s.step, i, 0);
    InitEffect(Op(ForInit, 0, 0, s.slot, 0));
    PlainSound(prog, ds, need, j, Op(ForInit, 0, 0, s.slot, 0), 2, (2, 0));
    CheckSound(prog, ds, need, j + 1, s.slot, j + 3);
    Join(prog, ds, need, base, i, j);
    Join(prog, ds, need, base, j, j + 1);
    Join(prog, ds, need, base, j + 1, j + 2);
  }

  lemma {:induction false} CheckSound(prog: seq<Op>, ds: seq<nat>, need: nat, pc: int, slot: int, body: int)
    requires |prog| == |ds| && CodeAt(prog, pc, PlainOps([Op(ForCheck, 0, 0, slot, body)])) && DepthsAt(ds, pc, [0])
    requires Stands(ds, pc + 1, 0) && Stands(ds, body, 0)
    ensures Sounds(prog, ds, need, pc, pc + 1)
  {
    hide CodeAt, DepthsAt, Sounds, Stands;
    PlainOne(Op(ForCheck, 0, 0, slot, body));
    SlotSound(prog, ds, need, pc, Plain(Op(ForCheck, 0, 0, slot, body)), 0, (0, 0));
  }

  lemma {:induction false} NextSound(prog: seq<Op>, ds: seq<nat>, need: nat, pc: int, slot: int)
    requires |prog| == |ds| && CodeAt(prog, pc, [Plain(Op(ForIncr, 0, 0, slot, 0))]) && DepthsAt(ds, pc, [0])
    requires Stands(ds, pc + 1, 0)
    ensures Sounds(prog, ds, need, pc, pc + 1)
  {
    hide CodeAt, DepthsAt, Sounds;
    SlotSound(prog, ds, need, pc, Plain(Op(ForIncr, 0, 0, slot, 0)), 0, (0, 0));
  }

  lemma {:induction false} ForDepths(ds: seq<nat>, s: Stmt, base: int)
    requires s.ForLoop? && DepthsAt(ds, base, Depths(s))
    ensures var at := base + CodeLength(s.first) + CodeLength(s.limit) + CodeLength(s.step) + 4;
            DepthsAt(ds, base, HeaderDepths(s.first, s.limit, s.step)) && DepthsAt(ds, at - 1, [0]) &&
            DepthsAt(ds, at, BlockDepths(s.body)) && DepthsAt(ds, at + BlockSize(s.body), [0]) &&
            Stands(ds, at - 1, 0) && Stands(ds, at, 0) && Stands(ds, at + BlockSize(s.body), 0)
  {
    hide DepthsAt, Stands, HeaderDepths, CodeLength;
    var header := HeaderDepths(s.first, s.limit, s.step);
    var at := base + |header| + 1;
    SplitDepths(ds, base, header, [0] + (BlockDepths(s.body) + [0]));
    SplitDepths(ds, at - 1, [0], BlockDepths(s.body) + [0]);
    SplitDepths(ds, at, BlockDepths(s.body), [0]);
    OneDepth(ds, at - 1, 0);
    FirstStands(ds, at, BlockDepths(s.body) + [0]);
    OneDepth(ds, at + BlockSize(s.body), 0);
  }

  lemma {:induction false} ForNeeds(s: Stmt)
    requires s.ForLoop?
    ensures BlockNeed(s.body) <= Need(s)
  {}

  lemma {:induction false} ForSound(
      m: Machine, prog: seq<Op>, ds: seq<nat>, need: nat, s: Stmt, base: int, c: Context)
    requires s.ForLoop? && |prog| == |ds| && Need(s) <= need && Stands(ds, base + Size(s), 0) && ExitsGround(ds, c)
    requires CodeAt(prog, base, Body(m.pool, s, base, c)) && DepthsAt(ds, base, Depths(s))
    ensures Sounds(prog, ds, need, base, base + Size(s))
    decreases s, 0
  {
    hide CodeAt, CodeLength, BlockSize, Need, BlockNeed, DepthsAt, Sounds, Stands, Body, Depths, HeaderDepths, BlockDepths, Size, ForHeader,
        PlainOps, BlockBody, ExitsGround;
    var at, end := base + CodeLength(s.first) + CodeLength(s.limit) + CodeLength(s.step) + 4, base + Size(s);
    var next := at + BlockSize(s.body);
    ForNeeds(s);
    ForCode(m, prog, s, base, c);
    ForDepths(ds, s, base);
    InnerExits(ds, c, end);
    HeaderSound(m, prog, ds, need, s, base);
    JumpSound(prog, ds, need, at - 1, At(end), 0);
    BlockSound(m, prog, ds, need, s.body, at, c.(forExit := At(end), fors := c.fors + 1));
    NextSound(prog, ds, need, next, if s.named then s.slot else -1);
    Join(prog, ds, need, base, at - 1, at);
    Join(prog, ds, need, base, at, next);
    Join(prog, ds, need, base, next, end);
  }

  lemma {:induction false} ChooseIsArms(pool: seq<Num>, s: Stmt, base: int, c: Context)
    requires s.Choose?
    ensures Body(pool, s, base, c) == ArmsBody(pool, s.arms, base, base + Size(s), c) && Size(s) == ArmsSize(s.arms)
    ensures Depths(s) == ArmsDepths(s.arms) && Need(s) == ArmsNeed(s.arms)
  {}

  lemma {:induction false} ChooseSound(
      m: Machine, prog: seq<Op>, ds: seq<nat>, need: nat, s: Stmt, base: int, c: Context)
    requires s.Choose? && |prog| == |ds| && Need(s) <= need && Stands(ds, base + Size(s), 0) && ExitsGround(ds, c)
    requires CodeAt(prog, base, Body(m.pool, s, base, c)) && DepthsAt(ds, base, Depths(s))
    ensures Sounds(prog, ds, need, base, base + Size(s))
    decreases s, 0
  {
    hide CodeAt, DepthsAt, Sounds, Stands, Body, Depths, Need, Size, ArmsBody, ArmsDepths, ExitsGround;
    ChooseIsArms(m.pool, s, base, c);
    ArmsSound(m, prog, ds, need, s.arms, base, base + ArmsSize(s.arms), c);
  }

  lemma {:induction false} ArmsParts(ds: seq<nat>, a: Arms, base: int)
    requires a.Arm? && DepthsAt(ds, base, ArmsDepths(a)) && Stands(ds, base + ArmsSize(a), 0)
    ensures var at := base + CodeLength(a.test) + 1;
            var next := at + BlockSize(a.body) + if Final(a.rest) then 0 else 1;
            DepthsAt(ds, base, TestDepths(a.test)) && DepthsAt(ds, at, BlockDepths(a.body)) &&
            Stands(ds, at, 0) && Stands(ds, at + BlockSize(a.body), 0) && Stands(ds, next, 0) &&
            (!Final(a.rest) ==> DepthsAt(ds, next - 1, [0]) && DepthsAt(ds, next, ArmsDepths(a.rest)))
  {
    hide DepthsAt, Stands, TestDepths, BlockDepths, CodeLength;
    var at := base + CodeLength(a.test) + 1;
    var last := if Final(a.rest) then [] else [0] + ArmsDepths(a.rest);
    SplitDepths(ds, base, TestDepths(a.test), BlockDepths(a.body) + last);
    SplitDepths(ds, at, BlockDepths(a.body), last);
    BeginsGround(ds, at, BlockDepths(a.body) + last);
    BeginsGround(ds, at + BlockSize(a.body), last);
    if !Final(a.rest) {
      SplitDepths(ds, at + BlockSize(a.body), [0], ArmsDepths(a.rest));
      BeginsGround(ds, at + BlockSize(a.body) + 1, ArmsDepths(a.rest));
    }
  }

  lemma {:induction false} ArmsSound(
      m: Machine, prog: seq<Op>, ds: seq<nat>, need: nat, a: Arms, base: int, end: int, c: Context)
    requires |prog| == |ds| && ArmsNeed(a) <= need && end == base + ArmsSize(a) && Stands(ds, end, 0) && ExitsGround(ds, c)
    requires CodeAt(prog, base, ArmsBody(m.pool, a, base, end, c)) && DepthsAt(ds, base, ArmsDepths(a))
    ensures Sounds(prog, ds, need, base, end)
    decreases a, 1
  {
    hide CodeAt, DepthsAt, Stands, TestDepths, BlockDepths, ArmsDepths, ArmsBody, ExitsGround, BlockBody, Ops, PlainOps, Sounds;
    if a.Arm? {
      var at := base + CodeLength(a.test) + 1;
      var next := at + BlockSize(a.body) + if Final(a.rest) then 0 else 1;
      ArmsCode(m, prog, a, base, end, c);
      ArmsParts(ds, a, base);
      TestSound(m, prog, ds, need, a.test, base, At(next));
      BlockSound(m, prog, ds, need, a.body, at, c);
      Join(prog, ds, need, base, at, at + BlockSize(a.body));
      if !Final(a.rest) {
        JumpSound(prog, ds, need, next - 1, At(end), 0);
        ArmsSound(m, prog, ds, need, a.rest, next, end, c);
        Join(prog, ds, need, base, next - 1, next);
        Join(prog, ds, need, base, next, end);
      }
    } else {
      OtherwiseSound(m, prog, ds, need, a, base, end, c);
    }
  }

  lemma {:induction false} OtherwiseSound(
      m: Machine, prog: seq<Op>, ds: seq<nat>, need: nat, a: Arms, base: int, end: int, c: Context)
    requires a.Otherwise? && |prog| == |ds| && ArmsNeed(a) <= need && end == base + ArmsSize(a) && Stands(ds, end, 0)
    requires ExitsGround(ds, c)
    requires CodeAt(prog, base, ArmsBody(m.pool, a, base, end, c)) && DepthsAt(ds, base, ArmsDepths(a))
    ensures Sounds(prog, ds, need, base, end)
    decreases a, 0
  {
    hide CodeAt, DepthsAt, Stands, ExitsGround, BlockBody, BlockDepths, Sound;
    WithinDepths(ds, base, ArmsDepths(a));
    if a.other.Some? { BlockSound(m, prog, ds, need, a.other.value, base, c); }
  }

  lemma {:induction false} SelectSound(
      m: Machine, prog: seq<Op>, ds: seq<nat>, need: nat, s: Stmt, base: int, c: Context)
    requires s.SelectCase? && |prog| == |ds| && Need(s) <= need && Stands(ds, base + Size(s), 0) && ExitsGround(ds, c)
    requires CodeAt(prog, base, Body(m.pool, s, base, c)) && DepthsAt(ds, base, Depths(s))
    ensures Sounds(prog, ds, need, base, base + Size(s))
    decreases s, 0
  {
    hide CodeAt, DepthsAt, Sounds, Stands, Body, ExprDepths, ClausesDepths, ClausesBody, ExitsGround, Size, Ops, PlainOps;
    var at, end := base + CodeLength(s.e), base + Size(s);
    SelectCode(m, prog, s, base, c);
    assert Depths(s) == ExprDepths(s.e, 0) + ClausesDepths(s.clauses);
    SplitDepths(ds, base, ExprDepths(s.e, 0), ClausesDepths(s.clauses));
    FirstStands(ds, at, ClausesDepths(s.clauses));
    ExprSound(m, prog, ds, need, s.e, base, 0);
    ClausesSound(m, prog, ds, need, s.clauses, at, end, c);
    Join(prog, ds, need, base, at, end);
  }

  lemma {:induction false} WhenDepths(ds: seq<nat>, cs: Clauses, base: int)
    requires cs.When? && DepthsAt(ds, base, ClausesDepths(cs))
    ensures var miss := base + LiteralsSize(cs.items);
            var next := miss + 2 + BlockSize(cs.body) + 1;
            DepthsAt(ds, base, ItemsDepths(cs.items)) && DepthsAt(ds, miss, [1]) && DepthsAt(ds, miss + 1, [1]) &&
            DepthsAt(ds, miss + 2, BlockDepths(cs.body)) && DepthsAt(ds, next - 1, [0]) &&
            DepthsAt(ds, next, ClausesDepths(cs.rest)) && Stands(ds, miss, 1) && Stands(ds, miss + 1, 1) &&
            Stands(ds, miss + 2, 0) && Stands(ds, next - 1, 0) && Stands(ds, next, 1)
  {
    hide DepthsAt, Stands, ItemsDepths, BlockDepths, CodeLength;
    var miss := base + LiteralsSize(cs.items);
    var next := miss + 2 + BlockSize(cs.body) + 1;
    var rest := [0] + ClausesDepths(cs.rest);
    var body := BlockDepths(cs.body) + rest;
    SplitDepths(ds, base, ItemsDepths(cs.items), [1] + ([1] + body));
    SplitDepths(ds, miss, [1], [1] + body);
    SplitDepths(ds, miss + 1, [1], body);
    SplitDepths(ds, miss + 2, BlockDepths(cs.body), rest);
    SplitDepths(ds, next - 1, [0], ClausesDepths(cs.rest));
    OneDepth(ds, miss, 1);
    OneDepth(ds, miss + 1, 1);
    FirstStands(ds, miss + 2, body);
    OneDepth(ds, next - 1, 0);
    FirstStands(ds, next, ClausesDepths(cs.rest));
  }

  lemma {:induction false} DropSound(prog: seq<Op>, ds: seq<nat>, need: nat, pc: int)
    requires |prog| == |ds| && CodeAt(prog, pc, [Plain(Simple(Drop))]) && DepthsAt(ds, pc, [1]) && Stands(ds, pc + 1, 0)
    ensures Sounds(prog, ds, need, pc, pc + 1)
  {
    hide CodeAt, DepthsAt, Sounds, Stands, Steady;
    PlainOne(Simple(Drop));
    CellEffect(Simple(Drop));
    PlainSound(prog, ds, need, pc, Simple(Drop), 1, (1, 0));
  }

  lemma {:induction false} ClausesSound(
      m: Machine, prog: seq<Op>, ds: seq<nat>, need: nat, cs: Clauses, base: int, end: int, c: Context)
    requires |prog| == |ds| && ClausesNeed(cs) <= need && end == base + ClausesSize(cs) && Stands(ds, end, 0)
    requires ExitsGround(ds, c)
    requires CodeAt(prog, base, ClausesBody(m.pool, cs, base, end, c)) && DepthsAt(ds, base, ClausesDepths(cs))
    ensures Sounds(prog, ds, need, base, end)
    decreases cs, 1
  {
    hide CodeAt, DepthsAt, Stands, ItemsDepths, BlockDepths, ClausesDepths, ClausesBody, ExitsGround, BlockBody, Tests,
        ItemsOf, Sounds;
    if cs.When? {
      var miss := base + LiteralsSize(cs.items);
      var next := miss + 2 + BlockSize(cs.body) + 1;
      WhenCode(m, prog, cs, base, end, c);
      WhenDepths(ds, cs, base);
      WithinDepths(ds, base, ItemsDepths(cs.items));
      ItemsSound(m, prog, ds, need, cs.items, miss + 1, base);
      JumpSound(prog, ds, need, miss, At(next), 1);
      DropSound(prog, ds, need, miss + 1);
      BlockSound(m, prog, ds, need, cs.body, miss + 2, c);
      JumpSound(prog, ds, need, next - 1, At(end), 0);
      ClausesSound(m, prog, ds, need, cs.rest, next, end, c);
      Join(prog, ds, need, base, miss, miss + 1);
      Join(prog, ds, need, base, miss + 1, miss + 2);
      Join(prog, ds, need, base, miss + 2, next - 1);
      Join(prog, ds, need, base, next - 1, next);
      Join(prog, ds, need, base, next, end);
    } else {
      RestSound(m, prog, ds, need, cs, base, end, c);
    }
  }

  lemma {:induction false} RestParts(m: Machine, prog: seq<Op>, ds: seq<nat>, cs: Clauses, base: int, end: int, c: Context)
    requires cs.Rest? && CodeAt(prog, base, ClausesBody(m.pool, cs, base, end, c)) && DepthsAt(ds, base, ClausesDepths(cs))
    requires Stands(ds, base + ClausesSize(cs), 0)
    ensures CodeAt(prog, base, [Plain(Simple(Drop))]) && DepthsAt(ds, base, [1]) && Stands(ds, base + 1, 0)
    ensures cs.other.Some? ==> CodeAt(prog, base + 1, BlockBody(m.pool, cs.other.value, base + 1, c))
    ensures cs.other.Some? ==> DepthsAt(ds, base + 1, BlockDepths(cs.other.value))
  {
    hide CodeAt, DepthsAt, Stands, BlockBody, BlockDepths;
    var drop, body := [Plain(Simple(Drop))], if cs.other.None? then [] else BlockBody(m.pool, cs.other.value, base + 1, c);
    var depths := if cs.other.None? then [] else BlockDepths(cs.other.value);
    assert ClausesBody(m.pool, cs, base, end, c) == drop + body && ClausesDepths(cs) == [1] + depths;
    SplitCode(prog, base, drop, body);
    SplitDepths(ds, base, [1], depths);
    BeginsGround(ds, base + 1, depths);
  }

  lemma {:induction false} RestSound(
      m: Machine, prog: seq<Op>, ds: seq<nat>, need: nat, cs: Clauses, base: int, end: int, c: Context)
    requires cs.Rest? && |prog| == |ds| && ClausesNeed(cs) <= need && end == base + ClausesSize(cs) && Stands(ds, end, 0)
    requires ExitsGround(ds, c)
    requires CodeAt(prog, base, ClausesBody(m.pool, cs, base, end, c)) && DepthsAt(ds, base, ClausesDepths(cs))
    ensures Sounds(prog, ds, need, base, end)
    decreases cs, 0
  {
    hide CodeAt, DepthsAt, Stands, ExitsGround, BlockBody, BlockDepths, ClausesBody, ClausesDepths, Sounds;
    RestParts(m, prog, ds, cs, base, end, c);
    DropSound(prog, ds, need, base);
    if cs.other.Some? {
      BlockSound(m, prog, ds, need, cs.other.value, base + 1, c);
      Join(prog, ds, need, base, base + 1, end);
    }
  }

  // ---------- the theorem ----------

  /** A machine at the start of a program, with no loop running. */
  predicate Begins(st: State) { st.pc == 0 && st.fors == [] }

  /** Room for `BlockNeed` more cells is room enough: the code of a block, alone or with a HALT
      after it, never overflows the stack, and wherever control is the stack is as deep as `ds` says. */
  lemma {:induction false} NeedIsEnough(m: Machine, prog: seq<Op>, b: Block, c: Context, st: State, n: nat)
    returns (ds: seq<nat>)
    requires Begins(st) && |st.stack| + BlockNeed(b) <= m.limit && c.forExit == At(-1) && c.doExit == At(-1)
    requires CodeAt(prog, 0, BlockBody(m.pool, b, 0, c)) && BlockSize(b) <= |prog| <= BlockSize(b) + 1
    requires |prog| == BlockSize(b) + 1 ==> prog[BlockSize(b)] == Simple(Halt)
    ensures |ds| == |prog| && BlockDepths(b) <= ds
    ensures Goes(ds, |st.stack|, RunN(m, prog, Run(st), n))
  {
    hide CodeAt, BlockBody, RunN, BlockDepths, Sound, Effect, Goes;
    ds := BlockDepths(b) + if |prog| == BlockSize(b) then [] else [0];
    assert DepthsAt(ds, 0, BlockDepths(b));
    assert Stands(ds, BlockSize(b), 0) && Stands(ds, 0, 0);
    BlockSound(m, prog, ds, BlockNeed(b), b, 0, c);
    if |prog| == BlockSize(b) + 1 {
      AddedHaltSound(prog, ds, BlockNeed(b));
      Join(prog, ds, BlockNeed(b), 0, BlockSize(b), |prog|);
    }
    RunGoes(m, prog, ds, BlockNeed(b), |st.stack|, st, n);
  }

  lemma {:induction false} AddedHaltSound(prog: seq<Op>, ds: seq<nat>, need: nat)
    requires |prog| == |ds| > 0 && prog[|prog| - 1] == Simple(Halt)
    ensures Sounds(prog, ds, need, |prog| - 1, |prog|)
  {
    hide Effect;
    HaltEffect();
  }
}
