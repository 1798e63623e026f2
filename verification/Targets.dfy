/** Over every stream of statements: each hole belongs to an open block, and each bound target lies
    in the program and in the function of the operation that jumps there. */
module Targets {
  import opened Wrappers
  import opened Il
  import opened Statements
  import opened Labels

  // ---------- which function a slot belongs to ----------

  /** The last function span holding `pc` among the first `n`; -1 outside all of them. */
  function SpanOf(functions: seq<Span>, pc: int, n: nat): int
    requires n <= |functions|
  {
    if n == 0 then -1
    else if functions[n - 1].entry <= pc < functions[n - 1].end then n - 1
    else SpanOf(functions, pc, n - 1)
  }

  /** The function `pc` belongs to, counting the one being compiled. */
  function Region(d: Draft, pc: int): int {
    if d.entry.Some? && pc >= d.entry.value then |d.functions| else SpanOf(d.functions, pc, |d.functions|)
  }

  function Now(d: Draft): int { if d.entry.Some? then |d.functions| else -1 }

  ghost predicate Regions(d: Draft) {
    (forall f :: 0 <= f < |d.functions| ==> 0 < d.functions[f].entry < d.functions[f].end <= |d.code|) &&
    (forall f, g :: 0 <= f < g < |d.functions| ==> d.functions[f].end < d.functions[g].entry) &&
    (d.entry.Some? ==> 0 < d.entry.value <= |d.code| && forall f :: 0 <= f < |d.functions| ==> d.functions[f].end < d.entry.value)
  }

  lemma {:induction false} PastAll(functions: seq<Span>, pc: int, n: nat)
    requires n <= |functions| && forall f :: 0 <= f < n ==> functions[f].end <= pc
    ensures SpanOf(functions, pc, n) == -1
  {
    if n > 0 { PastAll(functions, pc, n - 1); }
  }

  /** What is emitted next belongs to the function being compiled. */
  lemma {:induction false} NextRegion(d: Draft, pc: int)
    requires Regions(d) && pc >= |d.code|
    ensures Region(d, pc) == Now(d)
  {
    if d.entry.None? { PastAll(d.functions, pc, |d.functions|); }
  }

  // ---------- the invariant ----------

  /** `S` holds the labels of the one-line IFs under way. */
  predicate Open(d: Draft, S: set<Label>, l: Label) {
    match l
    case ForEnd(k) => k < |d.fors|
    case WhileEnd(k) => k < |d.whiles|
    case DoEnd(k) => k < |d.dos|
    case IfNext(k) => k < |d.ifs| && d.ifs[k].pending
    case IfEnd(k) => k < |d.ifs|
    case CaseNext(k) => k < |d.selects| && d.selects[k].pending
    case SelectEnd(k) => k < |d.selects|
    case InlineNo(_) => l in S
    case InlineEnd(_) => l in S
    case FunctionEnd => d.entry.Some?
    case _ => false
  }

  predicate TargetOk(d: Draft, S: set<Label>, i: int, t: Target) {
    match t
    case At(pc) => 0 <= pc <= |d.code| && Region(d, i) == Region(d, pc)
    case Hole(l) => Open(d, S, l) && (l == FunctionEnd || Region(d, i) == Now(d)) && (l == FunctionEnd ==> Region(d, i) == -1)
  }

  predicate SymOk(d: Draft, S: set<Label>, i: int, s: Sym) {
    match s
    case Jump(t) => TargetOk(d, S, i, t)
    case Unless(t) => TargetOk(d, S, i, t)
    case Leave(t, _, _) => TargetOk(d, S, i, t)
    case Plain(op) =>
      Branchless(op) || (op.code == ForCheck && 0 <= op.b <= |d.code| && Region(d, i) == Region(d, op.b)) ||
      ((op.code == Jmp || op.code == OpCode.Gosub) && op.b == 1)
  }

  predicate StartOk(d: Draft, pc: int) { 0 <= pc <= |d.code| && Region(d, pc) == Now(d) }

  ghost predicate Starts(d: Draft) {
    (forall k :: 0 <= k < |d.whiles| ==> StartOk(d, d.whiles[k].start)) &&
    (forall k :: 0 <= k < |d.dos| ==> StartOk(d, d.dos[k].start))
  }

  ghost predicate SymsOk(d: Draft, S: set<Label>) { forall i :: 0 <= i < |d.code| ==> SymOk(d, S, i, d.code[i]) }

  /** An IF waits for its next branch until ELSE; a SELECT for its next clause after each CASE. */
  ghost predicate Waiting(d: Draft) {
    (forall k :: 0 <= k < |d.ifs| ==> d.ifs[k].pending == !d.ifs[k].seenElse) &&
    (forall k :: 0 <= k < |d.selects| ==> d.selects[k].pending == (d.selects[k].seenCase && !d.selects[k].seenElse))
  }

  ghost predicate Inv(d: Draft, S: set<Label>) { Regions(d) && Starts(d) && SymsOk(d, S) && Waiting(d) }

  // ---------- emitting ----------

  /** What may be appended to `d`, `n` slots in all. */
  predicate Fresh(d: Draft, S: set<Label>, n: nat, s: Sym) {
    match s
    case Jump(t) => FreshTarget(d, S, n, t)
    case Unless(t) => FreshTarget(d, S, n, t)
    case Leave(t, _, _) => FreshTarget(d, S, n, t)
    case Plain(op) =>
      Branchless(op) || (op.code == ForCheck && |d.code| <= op.b <= |d.code| + n) ||
      ((op.code == Jmp || op.code == OpCode.Gosub) && op.b == 1)
  }

  predicate FreshTarget(d: Draft, S: set<Label>, n: nat, t: Target) {
    match t
    case At(pc) => |d.code| <= pc <= |d.code| + n || StartOk(d, pc)
    case Hole(l) => l != FunctionEnd && Open(d, S, l)
  }

  ghost predicate AllFresh(d: Draft, S: set<Label>, syms: seq<Sym>) {
    forall k :: 0 <= k < |syms| ==> Fresh(d, S, |syms|, syms[k])
  }

  lemma {:induction false} GrowRegion(d: Draft, syms: seq<Sym>, pc: int)
    ensures Region(d.(code := d.code + syms), pc) == Region(d, pc) && Now(d.(code := d.code + syms)) == Now(d)
  {}

  lemma {:induction false} NewSymOk(d: Draft, S: set<Label>, syms: seq<Sym>, k: nat)
    requires Regions(d) && AllFresh(d, S, syms) && k < |syms|
    ensures SymOk(d.(code := d.code + syms), S, |d.code| + k, syms[k])
  {
    hide Region;
    NextRegion(d, |d.code| + k);
    GrowRegion(d, syms, |d.code| + k);
    assert Fresh(d, S, |syms|, syms[k]);
    var pc := match syms[k]
      case Plain(op) => op.b
      case Jump(t) => if t.At? then t.pc else 0
      case Unless(t) => if t.At? then t.pc else 0
      case Leave(t, _, _) => if t.At? then t.pc else 0;
    GrowRegion(d, syms, pc);
    if pc >= |d.code| { NextRegion(d, pc); }
  }

  lemma {:induction false} PutKeeps(d: Draft, S: set<Label>, syms: seq<Sym>)
    requires Inv(d, S) && AllFresh(d, S, syms)
    ensures Inv(d.(code := d.code + syms), S)
  {
    hide Fresh, Region;
    var e := d.(code := d.code + syms);
    forall i | 0 <= i < |e.code| ensures SymOk(e, S, i, e.code[i]) {
      if i < |d.code| {
        assert SymOk(d, S, i, d.code[i]);
        OldSymOk(d, S, syms, i, d.code[i]);
      } else {
        NewSymOk(d, S, syms, i - |d.code|);
      }
    }
    forall pc | StartOk(d, pc) ensures StartOk(e, pc) { GrowRegion(d, syms, pc); }
  }

  lemma {:induction false} OldSymOk(d: Draft, S: set<Label>, syms: seq<Sym>, i: int, s: Sym)
    requires SymOk(d, S, i, s)
    ensures SymOk(d.(code := d.code + syms), S, i, s)
  {
    hide SpanOf;
  }

  // ---------- binding ----------

  /** No operation waits for `l`. */
  ghost predicate Absent(code: seq<Sym>, l: Label) { forall i :: 0 <= i < |code| ==> !Waits(code[i], l) }

  lemma {:induction false} HereKeeps(d: Draft, S: set<Label>, l: Label)
    requires Inv(d, S) && l != FunctionEnd
    ensures Inv(Here(d, l), S) && Absent(Here(d, l).code, l)
    ensures forall m :: Absent(d.code, m) ==> Absent(Here(d, l).code, m)
  {
    hide SymOk, Region, BindSym;
    var e := Here(d, l);
    NextRegion(d, |d.code|);
    forall i | 0 <= i < |e.code| ensures SymOk(e, S, i, e.code[i]) && !Waits(e.code[i], l) {
      assert SymOk(d, S, i, d.code[i]);
      BoundSymOk(d, S, l, i, d.code[i]);
    }
    forall pc | StartOk(d, pc) ensures StartOk(e, pc) { BindRegion(d, l, pc); }
    forall m | Absent(d.code, m) ensures Absent(e.code, m) {
      forall i | 0 <= i < |e.code| ensures !Waits(e.code[i], m) {
        assert !Waits(d.code[i], m);
        BoundWaits(d.code[i], l, |d.code|, m);
      }
    }
  }

  lemma {:induction false} BoundWaits(s: Sym, l: Label, pc: int, m: Label)
    requires !Waits(s, m)
    ensures !Waits(BindSym(s, l, pc), m)
  {}

  lemma {:induction false} BindRegion(d: Draft, l: Label, pc: int)
    ensures Region(Here(d, l), pc) == Region(d, pc) && Now(Here(d, l)) == Now(d)
  {}

  lemma {:induction false} BoundTargetOk(d: Draft, S: set<Label>, l: Label, i: int, t: Target)
    requires TargetOk(d, S, i, t) && l != FunctionEnd && Region(d, |d.code|) == Now(d)
    ensures TargetOk(Here(d, l), S, i, BindTarget(t, l, |d.code|)) && BindTarget(t, l, |d.code|) != Hole(l)
  {
    hide SpanOf;
  }

  lemma {:induction false} BoundSymOk(d: Draft, S: set<Label>, l: Label, i: int, s: Sym)
    requires SymOk(d, S, i, s) && l != FunctionEnd && Region(d, |d.code|) == Now(d)
    ensures SymOk(Here(d, l), S, i, BindSym(s, l, |d.code|)) && !Waits(BindSym(s, l, |d.code|), l)
  {
    hide TargetOk, SpanOf, Bind;
    match s
    case Jump(t) => BoundTargetOk(d, S, l, i, t);
    case Unless(t) => BoundTargetOk(d, S, l, i, t);
    case Leave(t, _, _) => BoundTargetOk(d, S, l, i, t);
    case Plain(_) =>
  }

  // ---------- opening and closing blocks ----------

  /** Blocks may open and close as long as no operation still waits for a closed one. */
  lemma {:induction false} Reblock(d: Draft, e: Draft, S: set<Label>)
    requires Inv(d, S) && e.code == d.code && e.functions == d.functions && e.entry == d.entry
    requires Starts(e) && Waiting(e)
    requires forall l :: Open(d, S, l) ==> Open(e, S, l) || Absent(d.code, l)
    ensures Inv(e, S)
  {
    hide Region, Open;
    SameRegions(d, e);
    forall i | 0 <= i < |e.code| ensures SymOk(e, S, i, e.code[i]) {
      assert SymOk(d, S, i, d.code[i]);
      SameRegion(d, e, i);
      match e.code[i]
      case Plain(op) => SameRegion(d, e, op.b);
      case Jump(t) => ReblockTarget(d, e, S, i, t);
      case Unless(t) => ReblockTarget(d, e, S, i, t);
      case Leave(t, _, _) => ReblockTarget(d, e, S, i, t);
    }
  }

  lemma {:induction false} SameRegion(d: Draft, e: Draft, pc: int)
    requires e.functions == d.functions && e.entry == d.entry
    ensures Region(d, pc) == Region(e, pc) && Now(d) == Now(e)
  {}

  lemma {:induction false} SameRegions(d: Draft, e: Draft)
    requires Regions(d) && e.code == d.code && e.functions == d.functions && e.entry == d.entry
    ensures Regions(e)
  {}

  lemma {:induction false} ReblockTarget(d: Draft, e: Draft, S: set<Label>, i: int, t: Target)
    requires TargetOk(d, S, i, t) && e.code == d.code && e.functions == d.functions && e.entry == d.entry
    requires t.Hole? ==> Open(e, S, t.name)
    ensures TargetOk(e, S, i, t)
  {
    hide Open;
    SameRegion(d, e, i);
    if t.At? { SameRegion(d, e, t.pc); }
  }

  /** Code that does not branch may always be appended, with one jump after it. */
  lemma {:induction false} PlainFresh(d: Draft, S: set<Label>, ops: seq<Op>, syms: seq<Sym>)
    requires NoBranches(ops) && forall k :: 0 <= k < |syms| ==> Fresh(d, S, |ops| + |syms|, syms[k])
    ensures AllFresh(d, S, PlainOps(ops) + syms)
  {
    hide FreshTarget;
    var all := PlainOps(ops) + syms;
    forall k | 0 <= k < |all| ensures Fresh(d, S, |all|, all[k]) {
      if k < |ops| {
        assert Branchless(ops[k]);
        assert all[k] == Plain(ops[k]);
      } else {
        assert all[k] == syms[k - |ops|];
      }
    }
  }

  lemma {:induction false} NoFresh(d: Draft, S: set<Label>, ops: seq<Op>)
    requires NoBranches(ops)
    ensures AllFresh(d, S, PlainOps(ops))
  {
    PlainFresh(d, S, ops, []);
    assert PlainOps(ops) + [] == PlainOps(ops);
  }

  lemma {:induction false} PutSome(d: Draft, S: set<Label>, syms: seq<Sym>)
    requires Inv(d, S) && AllFresh(d, S, syms) && Put(d, syms).Some?
    ensures Inv(Put(d, syms).value, S) && Put(d, syms).value == d.(code := d.code + syms)
  {
    hide Inv, AllFresh;
    PutKeeps(d, S, syms);
  }

  // ---------- every statement keeps the invariant ----------

  lemma {:induction false} IfKeeps(d: Draft, S: set<Label>, cond: seq<Op>)
    requires Inv(d, S) && NoBranches(cond) && CompileIf(d, cond).Some?
    ensures Inv(CompileIf(d, cond).value, S)
  {
    hide Fresh, SymsOk, Starts, Regions;
    var k := |d.ifs|;
    var open := d.(ifs := d.ifs + [IfBlock(true, false, DepthsOf(d))]);
    IfOpens(d, S);
    assert Fresh(open, S, |cond| + 1, Unless(Hole(IfNext(k)))) by { HoleFresh(open, S, |cond| + 1, IfNext(k)); }
    PlainFresh(open, S, cond, [Unless(Hole(IfNext(k)))]);
    PutKeeps(open, S, PlainOps(cond) + [Unless(Hole(IfNext(k)))]);
  }

  lemma {:induction false} HoleFresh(d: Draft, S: set<Label>, n: nat, l: Label)
    requires l != FunctionEnd && Open(d, S, l)
    ensures Fresh(d, S, n, Jump(Hole(l))) && Fresh(d, S, n, Unless(Hole(l)))
    ensures forall discard, depth :: Fresh(d, S, n, Leave(Hole(l), discard, depth))
  {}

  lemma {:induction false} IfOpens(d: Draft, S: set<Label>)
    requires Inv(d, S)
    ensures var e := d.(ifs := d.ifs + [IfBlock(true, false, DepthsOf(d))]); Inv(e, S)
  {
    hide SymsOk, Regions, StartOk;
    var e := d.(ifs := d.ifs + [IfBlock(true, false, DepthsOf(d))]);
    SameStarts(d, e);
    Reblock(d, e, S);
  }

  lemma {:induction false} SameStarts(d: Draft, e: Draft)
    requires Starts(d) && e.code == d.code && e.functions == d.functions && e.entry == d.entry
    requires e.whiles <= d.whiles && e.dos <= d.dos
    ensures Starts(e)
  {
    hide Region;
    forall pc | StartOk(d, pc) ensures StartOk(e, pc) { SameRegion(d, e, pc); }
    forall k | 0 <= k < |e.whiles| ensures StartOk(e, e.whiles[k].start) { assert e.whiles[k] == d.whiles[k]; }
    forall k | 0 <= k < |e.dos| ensures StartOk(e, e.dos[k].start) { assert e.dos[k] == d.dos[k]; }
  }

  /** One jump that waits for an open block may always be appended. */
  lemma {:induction false} OneFresh(d: Draft, S: set<Label>, s: Sym)
    requires Fresh(d, S, 1, s)
    ensures AllFresh(d, S, [s])
  {
    hide Fresh;
  }

  lemma {:induction false} ElseJump(d: Draft, S: set<Label>)
    requires Inv(d, S) && |d.ifs| > 0 && Put(d, [Jump(Hole(IfEnd(|d.ifs| - 1)))]).Some?
    ensures var q := Here(Put(d, [Jump(Hole(IfEnd(|d.ifs| - 1)))]).value, IfNext(|d.ifs| - 1));
            Inv(q, S) && Absent(q.code, IfNext(|d.ifs| - 1)) && q == d.(code := q.code)
  {
    hide Inv, AllFresh, Absent, Fresh;
    var k := |d.ifs| - 1;
    assert Fresh(d, S, 1, Jump(Hole(IfEnd(k)))) by { HoleFresh(d, S, 1, IfEnd(k)); }
    OneFresh(d, S, Jump(Hole(IfEnd(k))));
    PutSome(d, S, [Jump(Hole(IfEnd(k)))]);
    HereKeeps(Put(d, [Jump(Hole(IfEnd(k)))]).value, S, IfNext(k));
  }

  lemma {:induction false} ElseKeeps(d: Draft, S: set<Label>, cond: Option<seq<Op>>)
    requires Inv(d, S) && (cond.Some? ==> NoBranches(cond.value)) && CompileElse(d, cond).Some?
    ensures Inv(CompileElse(d, cond).value, S)
  {
    hide SymsOk, Regions, StartOk, Absent, AllFresh, Fresh;
    var k := |d.ifs| - 1;
    ElseJump(d, S);
    var q := Here(Put(d, [Jump(Hole(IfEnd(k)))]).value, IfNext(k));
    if cond.Some? {
      assert d.ifs[k].pending;
      HoleFresh(q, S, |cond.value| + 1, IfNext(k));
      PlainFresh(q, S, cond.value, [Unless(Hole(IfNext(k)))]);
      PutSome(q, S, PlainOps(cond.value) + [Unless(Hole(IfNext(k)))]);
    } else {
      var e := CompileElse(d, cond).value;
      SameStarts(q, e);
      Reblock(q, e, S);
    }
  }

  lemma {:induction false} EndIfKeeps(d: Draft, S: set<Label>)
    requires Inv(d, S) && CompileEndIf(d).Some?
    ensures Inv(CompileEndIf(d).value, S)
  {
    hide SymsOk, Regions, StartOk, Absent, SymOk;
    var k := |d.ifs| - 1;
    var q := if Last(d.ifs).pending then Here(d, IfNext(k)) else d;
    if Last(d.ifs).pending { HereKeeps(d, S, IfNext(k)); }
    HereKeeps(q, S, IfEnd(k));
    var r := Here(q, IfEnd(k));
    var e := CompileEndIf(d).value;
    SameStarts(r, e);
    Reblock(r, e, S);
  }

  lemma {:induction false} NextKeeps(structured: bool, d: Draft, S: set<Label>, slot: int)
    requires Inv(d, S) && CompileNext(structured, d, slot).Some?
    ensures Inv(CompileNext(structured, d, slot).value, S)
  {
    hide SymsOk, Regions, StartOk, Absent, AllFresh;
    var op := Plain(Op(ForIncr, 0, 0, slot, 0));
    OneFresh(d, S, op);
    PutSome(d, S, [op]);
    HereKeeps(Put(d, [op]).value, S, ForEnd(|d.fors| - 1));
    var q := Here(Put(d, [op]).value, ForEnd(|d.fors| - 1));
    var e := CompileNext(structured, d, slot).value;
    SameStarts(q, e);
    Reblock(q, e, S);
  }

  lemma {:induction false} WendKeeps(structured: bool, d: Draft, S: set<Label>)
    requires Inv(d, S) && CompileWend(structured, d).Some?
    ensures Inv(CompileWend(structured, d).value, S)
  {
    hide SymsOk, Regions, StartOk, Absent, AllFresh;
    var jump := Jump(At(Last(d.whiles).start));
    OneFresh(d, S, jump);
    PutSome(d, S, [jump]);
    HereKeeps(Put(d, [jump]).value, S, WhileEnd(|d.whiles| - 1));
    var q := Here(Put(d, [jump]).value, WhileEnd(|d.whiles| - 1));
    var e := CompileWend(structured, d).value;
    SameStarts(q, e);
    Reblock(q, e, S);
  }

  lemma {:induction false} LoopKeeps(structured: bool, d: Draft, S: set<Label>, test: Option<seq<Op>>)
    requires Inv(d, S) && (test.Some? ==> NoBranches(test.value)) && CompileLoop(structured, d, test).Some?
    ensures Inv(CompileLoop(structured, d, test).value, S)
  {
    hide SymsOk, Regions, StartOk, Absent, AllFresh;
    var start := Last(d.dos).start;
    var syms := if test.Some? then PlainOps(test.value) + [Unless(At(start))] else [Jump(At(start))];
    if test.Some? { PlainFresh(d, S, test.value, [Unless(At(start))]); } else { OneFresh(d, S, Jump(At(start))); }
    PutSome(d, S, syms);
    HereKeeps(Put(d, syms).value, S, DoEnd(|d.dos| - 1));
    var q := Here(Put(d, syms).value, DoEnd(|d.dos| - 1));
    var e := CompileLoop(structured, d, test).value;
    SameStarts(q, e);
    Reblock(q, e, S);
  }

  /** A loop's start is the slot it was opened at. */
  lemma {:induction false} NewStarts(d: Draft, e: Draft)
    requires Regions(d) && Starts(d) && e.code == d.code && e.functions == d.functions && e.entry == d.entry
    requires forall k :: 0 <= k < |e.whiles| ==> e.whiles[k].start == |d.code| || (k < |d.whiles| && e.whiles[k] == d.whiles[k])
    requires forall k :: 0 <= k < |e.dos| ==> e.dos[k].start == |d.code| || (k < |d.dos| && e.dos[k] == d.dos[k])
    ensures Starts(e)
  {
    hide Region;
    NextRegion(d, |d.code|);
    forall pc | StartOk(d, pc) ensures StartOk(e, pc) { SameRegion(d, e, pc); }
    SameRegion(d, e, |d.code|);
  }

  lemma {:induction false} ForKeeps(d: Draft, S: set<Label>, slot: int, start: seq<Op>, limit: seq<Op>, step: seq<Op>)
    requires Inv(d, S) && NoBranches(start) && NoBranches(limit) && NoBranches(step) &&
        CompileFor(d, slot, start, limit, step).Some?
    ensures Inv(CompileFor(d, slot, start, limit, step).value, S)
  {
    hide SymsOk, Regions, StartOk, FreshTarget;
    var e := d.(fors := d.fors + [ForBlock(slot, DepthsOf(d))]);
    SameStarts(d, e);
    Reblock(d, e, S);
    var syms := PlainOps(ForHeader(|d.code|, slot, start, limit, step)) + [Jump(Hole(ForEnd(|d.fors|)))];
    HoleFresh(e, S, |syms|, ForEnd(|d.fors|));
    HeaderFresh(e, S, slot, start, limit, step);
    PutKeeps(e, S, syms);
  }

  lemma {:induction false} HeaderFresh(
      d: Draft, S: set<Label>, slot: int, start: seq<Op>, limit: seq<Op>, step: seq<Op>)
    requires NoBranches(start) && NoBranches(limit) && NoBranches(step) && |d.fors| > 0
    ensures AllFresh(d, S, PlainOps(ForHeader(|d.code|, slot, start, limit, step)) + [Jump(Hole(ForEnd(|d.fors| - 1)))])
  {
    hide FreshTarget;
    var init := start + [Op(StoreNum, 0, 0, slot, 0)] + limit + step + [Op(ForInit, 0, 0, slot, 0)];
    InitIsStraight(slot, start, limit, step);
    var check := Plain(Op(ForCheck, 0, 0, slot, |d.code| + |init| + 2));
    var jump := Jump(Hole(ForEnd(|d.fors| - 1)));
    HoleFresh(d, S, |init| + 2, ForEnd(|d.fors| - 1));
    PlainFresh(d, S, init, [check, jump]);
    var header := ForHeader(|d.code|, slot, start, limit, step);
    assert header == init + [check.op];
    assert PlainOps(header) + [jump] == PlainOps(init) + [check, jump];
  }

  lemma {:induction false} InitIsStraight(slot: int, start: seq<Op>, limit: seq<Op>, step: seq<Op>)
    requires NoBranches(start) && NoBranches(limit) && NoBranches(step)
    ensures NoBranches(start + [Op(StoreNum, 0, 0, slot, 0)] + limit + step + [Op(ForInit, 0, 0, slot, 0)])
  {}

  lemma {:induction false} WhileKeeps(d: Draft, S: set<Label>, cond: seq<Op>)
    requires Inv(d, S) && NoBranches(cond) && CompileWhile(d, cond).Some?
    ensures Inv(CompileWhile(d, cond).value, S)
  {
    hide SymsOk, Regions, StartOk, Fresh;
    var k := |d.whiles|;
    var e := d.(whiles := d.whiles + [WhileBlock(|d.code|, DepthsOf(d))]);
    NewStarts(d, e);
    Reblock(d, e, S);
    HoleFresh(e, S, |cond| + 1, WhileEnd(k));
    PlainFresh(e, S, cond, [Unless(Hole(WhileEnd(k)))]);
    PutKeeps(e, S, PlainOps(cond) + [Unless(Hole(WhileEnd(k)))]);
  }

  lemma {:induction false} DoKeeps(d: Draft, S: set<Label>, test: Option<seq<Op>>)
    requires Inv(d, S) && (test.Some? ==> NoBranches(test.value)) && CompileDo(d, test).Some?
    ensures Inv(CompileDo(d, test).value, S)
  {
    hide SymsOk, Regions, StartOk, Fresh;
    var k := |d.dos|;
    var e := d.(dos := d.dos + [DoBlock(|d.code|, DepthsOf(d))]);
    NewStarts(d, e);
    Reblock(d, e, S);
    if test.Some? {
      HoleFresh(e, S, |test.value| + 1, DoEnd(k));
      PlainFresh(e, S, test.value, [Unless(Hole(DoEnd(k)))]);
      PutKeeps(e, S, PlainOps(test.value) + [Unless(Hole(DoEnd(k)))]);
    }
  }

  lemma {:induction false} ExitKeeps(structured: bool, d: Draft, S: set<Label>, loop: bool)
    requires Inv(d, S) && CompileExit(structured, d, loop).Some?
    ensures Inv(CompileExit(structured, d, loop).value, S)
  {
    hide Inv;
    if loop {
      OneFresh(d, S, Leave(Hole(DoEnd(|d.dos| - 1)), |d.fors| - Last(d.dos).opening.f, |d.fors|));
      PutSome(d, S, [Leave(Hole(DoEnd(|d.dos| - 1)), |d.fors| - Last(d.dos).opening.f, |d.fors|)]);
    } else {
      OneFresh(d, S, Leave(Hole(ForEnd(|d.fors| - 1)), 1, |d.fors|));
      PutSome(d, S, [Leave(Hole(ForEnd(|d.fors| - 1)), 1, |d.fors|)]);
    }
  }

  lemma {:induction false} SelectKeeps(d: Draft, S: set<Label>, cond: seq<Op>)
    requires Inv(d, S) && NoBranches(cond) && CompileSelect(d, cond).Some?
    ensures Inv(CompileSelect(d, cond).value, S)
  {
    hide SymsOk, Regions, StartOk, AllFresh;
    NoFresh(d, S, cond);
    PutSome(d, S, PlainOps(cond));
    var p := Put(d, PlainOps(cond)).value;
    var e := CompileSelect(d, cond).value;
    SameStarts(p, e);
    Reblock(p, e, S);
  }

  lemma {:induction false} NextClauseKeeps(d: Draft, S: set<Label>)
    requires Inv(d, S) && |d.selects| > 0 && NextClause(d).Some?
    ensures var q := NextClause(d).value;
            Inv(q, S) && Absent(q.code, CaseNext(|d.selects| - 1)) && q == d.(code := q.code)
  {
    hide Inv, AllFresh, Absent, Fresh;
    var k := |d.selects| - 1;
    assert Fresh(d, S, 1, Jump(Hole(SelectEnd(k)))) by { HoleFresh(d, S, 1, SelectEnd(k)); }
    OneFresh(d, S, Jump(Hole(SelectEnd(k))));
    PutSome(d, S, [Jump(Hole(SelectEnd(k)))]);
    HereKeeps(Put(d, [Jump(Hole(SelectEnd(k)))]).value, S, CaseNext(k));
  }

  /** Every target of the tests lies within the clause being emitted. */
  lemma {:induction false} TestsFresh(d: Draft, S: set<Label>, items: seq<Item>, base: int, hit: int, n: nat)
    requires forall k :: 0 <= k < |items| ==> ItemSound(items[k])
    requires |d.code| <= base && base + TestsLength(items) <= |d.code| + n && |d.code| <= hit <= |d.code| + n
    ensures forall k :: 0 <= k < |Tests(items, base, At(hit))| ==> Fresh(d, S, n, Tests(items, base, At(hit))[k])
    decreases |items|
  {
    if items != [] {
      var rest := Tests(items[1..], base + TestLength(items[0]), At(hit));
      TestsFresh(d, S, items[1..], base + TestLength(items[0]), hit, n);
      TestFresh(d, S, items[0], base, hit, n);
      var first := Test(items[0], base, At(hit));
      forall k | 0 <= k < |first + rest| ensures Fresh(d, S, n, (first + rest)[k]) {
        hide Fresh, Test, Tests;
        if k >= |first| { assert (first + rest)[k] == rest[k - |first|]; }
      }
    }
  }

  lemma {:induction false} TestFresh(d: Draft, S: set<Label>, item: Item, base: int, hit: int, n: nat)
    requires ItemSound(item) && |d.code| <= base && base + TestLength(item) <= |d.code| + n &&
        |d.code| <= hit <= |d.code| + n
    ensures forall k :: 0 <= k < |Test(item, base, At(hit))| ==> Fresh(d, S, n, Test(item, base, At(hit))[k])
  {
    hide Open, StartOk, Branchless;
    TestBranchless();
    match item
    case One(_) =>
    case Range(_, _) =>
  }

  lemma {:induction false} TestBranchless()
    ensures Branchless(Simple(Dup)) && Branchless(Simple(CeqNum)) && Branchless(Simple(CgeNum)) &&
        Branchless(Simple(CleNum))
  {}

  lemma {:induction false} ClauseFresh(d: Draft, S: set<Label>, items: seq<Item>, miss: Label)
    requires (forall k :: 0 <= k < |items| ==> ItemSound(items[k])) && miss != FunctionEnd && Open(d, S, miss)
    ensures AllFresh(d, S, Clause(items, |d.code|, Hole(miss)))
  {
    hide Tests, Open, Branchless;
    var n := TestsLength(items);
    TestsFresh(d, S, items, |d.code|, |d.code| + n + 1, n + 2);
    HoleFresh(d, S, n + 2, miss);
    assert Branchless(Simple(Drop)) by { DropStraight(); }
    var tests := Tests(items, |d.code|, At(|d.code| + n + 1));
    var all := Clause(items, |d.code|, Hole(miss));
    forall k | 0 <= k < |all| ensures Fresh(d, S, |all|, all[k]) {
      hide Fresh;
      if k < n { assert all[k] == tests[k]; }
    }
  }

  lemma {:induction false} DropStraight()
    ensures Branchless(Simple(Drop)) && Branchless(Simple(Halt)) && Branchless(Simple(FunctionFallthrough))
    ensures Branchless(Simple(ReturnUser)) && Branchless(Simple(RetSub))
  {}

  lemma {:induction false} CaseOpens(p: Draft, S: set<Label>, top: SelectBlock)
    requires Inv(p, S) && |p.selects| > 0 && top == Last(p.selects) && !top.seenElse
    requires top.seenCase ==> Absent(p.code, CaseNext(|p.selects| - 1))
    ensures Inv(p.(selects := Front(p.selects) + [top.(pending := true, seenCase := true)]), S)
  {
    hide SymsOk, Regions, StartOk, Absent;
    var e := p.(selects := Front(p.selects) + [top.(pending := true, seenCase := true)]);
    SameStarts(p, e);
    Reblock(p, e, S);
  }

  lemma {:induction false} CaseKeeps(d: Draft, S: set<Label>, items: seq<Item>)
    requires Inv(d, S) && (forall k :: 0 <= k < |items| ==> ItemSound(items[k])) && CompileCase(d, items).Some?
    ensures Inv(CompileCase(d, items).value, S)
  {
    hide Inv, AllFresh, Absent, Clause, ItemSound;
    var top, k := Last(d.selects), |d.selects| - 1;
    if top.seenCase { NextClauseKeeps(d, S); }
    var p := if top.seenCase then NextClause(d).value else d;
    CaseOpens(p, S, top);
    var e := p.(selects := Front(d.selects) + [top.(pending := true, seenCase := true)]);
    ClauseFresh(e, S, items, CaseNext(k));
    PutKeeps(e, S, Clause(items, |e.code|, Hole(CaseNext(k))));
  }

  lemma {:induction false} CaseElseKeeps(d: Draft, S: set<Label>)
    requires Inv(d, S) && CompileCaseElse(d).Some?
    ensures Inv(CompileCaseElse(d).value, S)
  {
    hide SymsOk, Regions, StartOk, AllFresh, Absent;
    var top, k := Last(d.selects), |d.selects| - 1;
    assert d.selects[k].pending == (top.seenCase && !top.seenElse);
    if top.seenCase { NextClauseKeeps(d, S); }
    var p := if top.seenCase then NextClause(d).value else d;
    var e := p.(selects := Front(d.selects) + [top.(pending := false, seenCase := true, seenElse := true)]);
    SameStarts(p, e);
    Reblock(p, e, S);
    DropStraight();
    OneFresh(e, S, Plain(Simple(Drop)));
    PutKeeps(e, S, [Plain(Simple(Drop))]);
  }

  /** Without CASE ELSE the selector is dropped past the last clause. */
  lemma {:induction false} LastDropKeeps(d: Draft, S: set<Label>)
    requires Inv(d, S) && |d.selects| > 0 && NextClause(d).Some? &&
        Put(NextClause(d).value, [Plain(Simple(Drop))]).Some?
    ensures var p := Put(NextClause(d).value, [Plain(Simple(Drop))]).value;
            Inv(p, S) && Absent(p.code, CaseNext(|d.selects| - 1)) && p == d.(code := p.code)
  {
    hide Inv, AllFresh, Absent, NextClause;
    NextClauseKeeps(d, S);
    DropStraight();
    var p := NextClause(d).value;
    OneFresh(p, S, Plain(Simple(Drop)));
    PutSome(p, S, [Plain(Simple(Drop))]);
    StillAbsent(p.code, CaseNext(|d.selects| - 1));
  }

  lemma {:induction false} SelectCloses(p: Draft, S: set<Label>)
    requires Inv(p, S) && |p.selects| > 0 && (Last(p.selects).pending ==> Absent(p.code, CaseNext(|p.selects| - 1)))
    ensures Inv(Here(p, SelectEnd(|p.selects| - 1)).(selects := Front(p.selects)), S)
  {
    hide SymsOk, Regions, StartOk, Absent;
    HereKeeps(p, S, SelectEnd(|p.selects| - 1));
    var q := Here(p, SelectEnd(|p.selects| - 1));
    var e := q.(selects := Front(p.selects));
    SameStarts(q, e);
    Reblock(q, e, S);
  }

  lemma {:induction false} EndSelectKeeps(d: Draft, S: set<Label>)
    requires Inv(d, S) && CompileEndSelect(d).Some?
    ensures Inv(CompileEndSelect(d).value, S)
  {
    hide SymsOk, Regions, Starts, Absent, NextClause, Here;
    var k := |d.selects| - 1;
    assert d.selects[k].pending == (d.selects[k].seenCase && !d.selects[k].seenElse);
    if Last(d.selects).seenElse {
      SelectCloses(d, S);
    } else {
      LastDropKeeps(d, S);
      SelectCloses(Put(NextClause(d).value, [Plain(Simple(Drop))]).value, S);
    }
  }

  lemma {:induction false} StillAbsent(code: seq<Sym>, l: Label)
    requires Absent(code, l)
    ensures Absent(code + [Plain(Simple(Drop))], l)
  {}

  // ---------- statements, rows, programs ----------

  lemma {:induction false} WiderScope(d: Draft, S: set<Label>, l: Label)
    requires Inv(d, S)
    ensures Inv(d, S + {l})
  {
    hide Region;
    forall i | 0 <= i < |d.code| ensures SymOk(d, S + {l}, i, d.code[i]) {
      assert SymOk(d, S, i, d.code[i]);
    }
  }

  lemma {:induction false} NarrowerScope(d: Draft, S: set<Label>, l: Label)
    requires Inv(d, S + {l}) && Absent(d.code, l)
    ensures Inv(d, S)
  {
    hide Region;
    forall i | 0 <= i < |d.code| ensures SymOk(d, S, i, d.code[i]) {
      assert SymOk(d, S + {l}, i, d.code[i]) && !Waits(d.code[i], l);
    }
  }

  lemma {:induction false} LineJumpKeeps(d: Draft, S: set<Label>, op: Op)
    requires Inv(d, S) && (op.code == Jmp || op.code == OpCode.Gosub) && op.b == 1 && Put(d, [Plain(op)]).Some?
    ensures Inv(Put(d, [Plain(op)]).value, S)
  {
    hide Inv;
    OneFresh(d, S, Plain(op));
    PutSome(d, S, [Plain(op)]);
  }

  lemma {:induction false} StraightKeeps(d: Draft, S: set<Label>, ops: seq<Op>)
    requires Inv(d, S) && NoBranches(ops) && Put(d, PlainOps(ops)).Some?
    ensures Inv(Put(d, PlainOps(ops)).value, S)
  {
    hide Inv;
    NoFresh(d, S, ops);
    PutSome(d, S, PlainOps(ops));
  }

  lemma {:induction false} InlineOpens(d: Draft, S: set<Label>, cond: seq<Op>, l: Label)
    requires Inv(d, S) && NoBranches(cond) && l.InlineNo? && Put(d, PlainOps(cond) + [Unless(Hole(l))]).Some?
    ensures Inv(Put(d, PlainOps(cond) + [Unless(Hole(l))]).value, S + {l})
  {
    hide Inv, Fresh;
    WiderScope(d, S, l);
    HoleFresh(d, S + {l}, |cond| + 1, l);
    PlainFresh(d, S + {l}, cond, [Unless(Hole(l))]);
    PutSome(d, S + {l}, PlainOps(cond) + [Unless(Hole(l))]);
  }

  lemma {:induction false} InlineElses(d: Draft, S: set<Label>, no: Label, end: Label)
    requires Inv(d, S + {no}) && no.InlineNo? && end.InlineEnd? && Put(d, [Jump(Hole(end))]).Some?
    ensures Inv(Here(Put(d, [Jump(Hole(end))]).value, no), S + {end})
  {
    hide Inv, Fresh, AllFresh, Absent;
    WiderScope(d, S + {no}, end);
    HoleFresh(d, S + {no} + {end}, 1, end);
    OneFresh(d, S + {no} + {end}, Jump(Hole(end)));
    PutSome(d, S + {no} + {end}, [Jump(Hole(end))]);
    HereKeeps(Put(d, [Jump(Hole(end))]).value, S + {no} + {end}, no);
    assert S + {no} + {end} == S + {end} + {no};
    NarrowerScope(Here(Put(d, [Jump(Hole(end))]).value, no), S + {end}, no);
  }

  lemma {:induction false} InlineCloses(d: Draft, S: set<Label>, l: Label)
    requires Inv(d, S + {l}) && l != FunctionEnd
    ensures Inv(Here(d, l), S)
  {
    hide Inv, Absent;
    HereKeeps(d, S + {l}, l);
    NarrowerScope(Here(d, l), S, l);
  }

  lemma {:induction false} ReturnKeeps(structured: bool, d: Draft, S: set<Label>, t: Statement, level: nat)
    requires t.Return? && Sound(t) && Inv(d, S) && Compile(structured, d, t, level).Some?
    ensures Inv(Compile(structured, d, t, level).value, S)
  {
    hide SymsOk, Regions, StartOk;
    DropStraight();
    var ops := if structured then t.cond + [Simple(ReturnUser)] else [Simple(RetSub)];
    assert NoBranches(ops) by { hide Branchless; }
    assert PlainOps([Simple(RetSub)]) == [Plain(Simple(RetSub))];
    StraightKeeps(d, S, ops);
    var p := Put(d, PlainOps(ops)).value;
    var e := p.(returned := true);
    SameStarts(p, e);
    Reblock(p, e, S);
  }

  lemma {:induction false} CompileKeeps(structured: bool, d: Draft, t: Statement, level: nat, S: set<Label>)
    requires Inv(d, S) && Sound(t) && Compile(structured, d, t, level).Some?
    ensures Inv(Compile(structured, d, t, level).value, S)
    decreases t
  {
    hide Inv, NoBranches, CompileIf, CompileElse, CompileEndIf, CompileFor, CompileNext, CompileWhile, CompileWend,
        CompileDo, CompileLoop, CompileExit, CompileSelect,
      CompileCase, CompileCaseElse, CompileEndSelect, ItemSound, Put, SelectNeedsCase;
    match t
    case Straight(ops) => StraightKeeps(d, S, ops);
    case Goto(line) => LineJumpKeeps(d, S, Op(Jmp, 0, 0, line, 1));
    case Gosub(line) => LineJumpKeeps(d, S, Op(OpCode.Gosub, 0, 0, line, 1));
    case InlineIf(cond, yes, no) => InlineKeeps(structured, d, t, level, S);
    case If(cond) => IfKeeps(d, S, cond);
    case ElseIf(cond) => ElseKeeps(d, S, Some(cond));
    case Else => ElseKeeps(d, S, None);
    case EndIf => EndIfKeeps(d, S);
    case For(slot, start, limit, step) => ForKeeps(d, S, slot, start, limit, step);
    case Next(slot) => NextKeeps(structured, d, S, slot);
    case While(cond) => WhileKeeps(d, S, cond);
    case Wend => WendKeeps(structured, d, S);
    case Do(test) => DoKeeps(d, S, test);
    case Loop(test) => LoopKeeps(structured, d, S, test);
    case ExitFor => ExitKeeps(structured, d, S, false);
    case ExitDo => ExitKeeps(structured, d, S, true);
    case Select(cond) => SelectKeeps(d, S, cond);
    case Case(items) => CaseKeeps(d, S, items);
    case CaseElse => CaseElseKeeps(d, S);
    case EndSelect => EndSelectKeeps(d, S);
    case Return(cond) => ReturnKeeps(structured, d, S, t, level);
  }

  lemma {:induction false} InlineKeeps(structured: bool, d: Draft, t: Statement, level: nat, S: set<Label>)
    requires t.InlineIf? && Inv(d, S) && Sound(t) && Compile(structured, d, t, level).Some?
    ensures Inv(Compile(structured, d, t, level).value, S)
    decreases t, 0
  {
    hide Inv, NoBranches, SelectNeedsCase;
    var no, end := InlineNo(level), InlineEnd(level);
    InlineOpens(d, S, t.cond, no);
    var p := Put(d, PlainOps(t.cond) + [Unless(Hole(no))]).value;
    CompileKeeps(structured, p, t.yes, level + 1, S + {no});
    var q := Compile(structured, p, t.yes, level + 1).value;
    if t.no.None? {
      InlineCloses(q, S, no);
    } else {
      InlineElses(q, S, no, end);
      var r := Here(Put(q, [Jump(Hole(end))]).value, no);
      CompileKeeps(structured, r, t.no.value, level + 1, S + {end});
      InlineCloses(Compile(structured, r, t.no.value, level + 1).value, S, end);
    }
  }

  lemma {:induction false} FunctionKeeps(structured: bool, d: Draft)
    requires Inv(d, {}) && CompileRow(structured, d, Function).Some?
    ensures Inv(CompileRow(structured, d, Function).value, {})
  {
    hide Region, Branchless;
    var e := CompileRow(structured, d, Function).value;
    forall pc | 0 <= pc <= |d.code| ensures Region(e, pc) == Region(d, pc) { BeforeEntry(d, e, pc); }
    NextRegion(d, |d.code|);
    forall i | 0 <= i < |e.code| ensures SymOk(e, {}, i, e.code[i]) {
      if i < |d.code| { assert SymOk(d, {}, i, d.code[i]); }
    }
  }

  lemma {:induction false} BeforeEntry(d: Draft, e: Draft, pc: int)
    requires d.entry.None? && e.functions == d.functions && e.entry.Some? && pc < e.entry.value
    ensures Region(e, pc) == Region(d, pc)
  {}

  /** Closing a function names the region its slots already had; the slot after it is outside. */
  lemma {:induction false} FunctionCloses(d: Draft, e: Draft, pc: int)
    requires Regions(d) && d.entry.Some? && e.entry.None? &&
        e.functions == d.functions + [Labels.Span(d.entry.value, |d.code| + 1)]
    ensures pc <= |d.code| ==> Region(e, pc) == Region(d, pc)
    ensures pc > |d.code| ==> Region(e, pc) == -1
  {
    if pc < d.entry.value {
      SamePrefix(d.functions, e.functions, pc, |d.functions|);
    } else if pc > |d.code| {
      PastAll(e.functions, pc, |e.functions|);
    }
  }

  lemma {:induction false} SamePrefix(a: seq<Labels.Span>, b: seq<Labels.Span>, pc: int, n: nat)
    requires n <= |a| && a <= b
    ensures SpanOf(a, pc, n) == SpanOf(b, pc, n)
  {
    if n > 0 { SamePrefix(a, b, pc, n - 1); }
  }

  lemma {:induction false} EndFunctionKeeps(structured: bool, d: Draft)
    requires Inv(d, {}) && CompileRow(structured, d, EndFunction).Some?
    ensures Inv(CompileRow(structured, d, EndFunction).value, {})
  {
    hide Region, Branchless, BindSym;
    var e := CompileRow(structured, d, EndFunction).value;
    var n := |d.code|;
    assert Branchless(Simple(FunctionFallthrough)) by { DropStraight(); }
    forall pc ensures pc <= n ==> Region(e, pc) == Region(d, pc)
              ensures pc > n ==> Region(e, pc) == -1
    { FunctionCloses(d, e, pc); }
    forall i | 0 <= i < |e.code| ensures SymOk(e, {}, i, e.code[i]) {
      if i < n {
        assert SymOk(d, {}, i, d.code[i]);
        ClosedSymOk(d, e, i, d.code[i]);
      } else {
        assert e.code[i] == Plain(Simple(FunctionFallthrough)) by { PlainUnbound(Simple(FunctionFallthrough), n + 1); }
      }
    }
  }

  lemma {:induction false} PlainUnbound(op: Op, pc: int)
    ensures BindSym(Plain(op), FunctionEnd, pc) == Plain(op)
  {}

  lemma {:induction false} ClosedSymOk(d: Draft, e: Draft, i: int, s: Sym)
    requires SymOk(d, {}, i, s) && AllClosed(d) && e.entry.None? && |e.code| == |d.code| + 1 && 0 <= i < |d.code|
    requires forall pc :: (pc <= |d.code| ==> Region(e, pc) == Region(d, pc)) && (pc > |d.code| ==> Region(e, pc) == -1)
    ensures SymOk(e, {}, i, BindSym(s, FunctionEnd, |d.code| + 1))
  {
    hide Region;
  }

  lemma {:induction false} RowKeeps(structured: bool, d: Draft, row: Row)
    requires Inv(d, {}) && RowSound(row) && CompileRow(structured, d, row).Some?
    ensures Inv(CompileRow(structured, d, row).value, {})
  {
    hide Compile;
    match row
    case Numbered(line) => NumberedKeeps(d, line);
    case Of(t) => CompileKeeps(structured, d, t, 0, {});
    case Function => FunctionKeeps(structured, d);
    case EndFunction => EndFunctionKeeps(structured, d);
  }

  lemma {:induction false} NumberedKeeps(d: Draft, line: int)
    requires Inv(d, {})
    ensures Inv(d.(lines := d.lines + [(line, |d.code|)]), {})
  {
    hide SymsOk, Regions, StartOk;
    var e := d.(lines := d.lines + [(line, |d.code|)]);
    SameStarts(d, e);
    Reblock(d, e, {});
  }

  lemma {:induction false} RowsKeep(structured: bool, d: Draft, rows: seq<Row>)
    requires Inv(d, {}) && (forall k :: 0 <= k < |rows| ==> RowSound(rows[k])) && CompileRows(structured, d, rows).Some?
    ensures Inv(CompileRows(structured, d, rows).value, {})
    decreases |rows|
  {
    hide Inv, CompileRow, RowSound;
    if rows != [] {
      RowKeeps(structured, d, rows[0]);
      RowsKeep(structured, CompileRow(structured, d, rows[0]).value, rows[1..]);
    }
  }

  // ---------- the finished program ----------

  function TargetOf(s: Sym): Option<Target> {
    match s case Plain(_) => None case Jump(t) => Some(t) case Unless(t) => Some(t) case Leave(t, _, _) => Some(t)
  }

  /** Control may go from `i` to `pc`: within a program of `n` slots, and within one function. */
  predicate Lands(functions: seq<Span>, n: int, i: int, pc: int) {
    0 <= pc <= n && SpanOf(functions, i, |functions|) == SpanOf(functions, pc, |functions|)
  }

  /** A bound jump, or a FOR test, that stays in the program and in its own function. */
  predicate Resolved(functions: seq<Span>, n: int, i: int, s: Sym) {
    var t := TargetOf(s);
    (t.Some? ==> t.value.At? && Lands(functions, n, i, t.value.pc)) &&
    (s.Plain? && s.op.code == ForCheck ==> Lands(functions, n, i, s.op.b))
  }

  /** When compilation succeeds no hole is left, and every jump and every FOR test stays in
      0..code_count and in its own function. */
  lemma {:induction false} EveryJumpIsResolved(structured: bool, rows: seq<Row>)
    requires forall k :: 0 <= k < |rows| ==> RowSound(rows[k])
    requires var d := CompileRows(structured, EMPTY, rows); d.Some? && Finish(d.value).Some?
    ensures var d := CompileRows(structured, EMPTY, rows).value;
            var code := Finish(d).value;
            d.code <= code && forall i :: 0 <= i < |code| ==> Resolved(d.functions, |d.code|, i, code[i])
  {
    hide CompileRow, SymOk;
    var d := CompileRows(structured, EMPTY, rows).value;
    RowsKeep(structured, EMPTY, rows);
    forall i | 0 <= i < |d.code| ensures Resolved(d.functions, |d.code|, i, d.code[i]) {
      assert SymOk(d, {}, i, d.code[i]);
      ClosedResolved(d, i, d.code[i]);
    }
  }

  lemma {:induction false} ClosedResolved(d: Draft, i: int, s: Sym)
    requires SymOk(d, {}, i, s) && AllClosed(d) && d.entry.None?
    ensures Resolved(d.functions, |d.code|, i, s)
  {}

  // ---------- line numbers ----------

  /** Numbered lines start in the program; they and functions do not mix. */
  ghost predicate LinesIn(structured: bool, d: Draft) {
    (forall k :: 0 <= k < |d.lines| ==> 0 <= d.lines[k].1 <= |d.code|) &&
    if structured then d.lines == [] else d.functions == [] && d.entry.None?
  }

  /** Statements only append code, and leave lines and functions alone. */
  lemma {:induction false} CompileGrows(structured: bool, d: Draft, t: Statement, level: nat)
    requires Compile(structured, d, t, level).Some?
    ensures var e := Compile(structured, d, t, level).value;
            |e.code| >= |d.code| && e.lines == d.lines && e.functions == d.functions && e.entry == d.entry
    decreases t
  {
    hide Bind, PlainOps, Clause, ForHeader, SelectNeedsCase;
    if t.InlineIf? {
      var p := Put(d, PlainOps(t.cond) + [Unless(Hole(InlineNo(level)))]).value;
      CompileGrows(structured, p, t.yes, level + 1);
      if t.no.Some? {
        var q := Compile(structured, p, t.yes, level + 1).value;
        var r := Here(Put(q, [Jump(Hole(InlineEnd(level)))]).value, InlineNo(level));
        CompileGrows(structured, r, t.no.value, level + 1);
      }
    }
  }

  lemma {:induction false} RowLines(structured: bool, d: Draft, row: Row)
    requires LinesIn(structured, d) && CompileRow(structured, d, row).Some?
    ensures LinesIn(structured, CompileRow(structured, d, row).value)
  {
    hide Compile, Bind;
    if row.Of? { CompileGrows(structured, d, row.statement, 0); }
  }

  lemma {:induction false} RowsLines(structured: bool, d: Draft, rows: seq<Row>)
    requires LinesIn(structured, d) && CompileRows(structured, d, rows).Some?
    ensures LinesIn(structured, CompileRows(structured, d, rows).value)
    decreases |rows|
  {
    hide CompileRow, LinesIn;
    if rows != [] {
      RowLines(structured, d, rows[0]);
      RowsLines(structured, CompileRow(structured, d, rows[0]).value, rows[1..]);
    }
  }

  predicate InRange(s: Sym, n: int) { var t := TargetOf(s); t.Some? ==> t.value.At? && 0 <= t.value.pc < n }

  /** The jumps of the program all land on an operation, except when a trailing HALT kept the
      compiler from adding one and some jump leads past it. */
  lemma {:induction false} LandsExactlyUnlessHaltIsShared(structured: bool, rows: seq<Row>)
    requires forall k :: 0 <= k < |rows| ==> RowSound(rows[k])
    requires var d := CompileRows(structured, EMPTY, rows); d.Some? && Finish(d.value).Some?
    ensures var d := CompileRows(structured, EMPTY, rows).value;
            var code := Finish(d).value;
            (forall i :: 0 <= i < |code| ==> InRange(code[i], |code|)) <==>
            !(EndsInHalt(d.code) && exists i :: 0 <= i < |d.code| && TargetOf(d.code[i]) == Some(At(|d.code|)))
  {
    hide CompileRow;
    EveryJumpIsResolved(structured, rows);
    var d := CompileRows(structured, EMPTY, rows).value;
    var code := Finish(d).value;
    forall i | 0 <= i < |code| ensures InRange(code[i], |code|) <==> !(EndsInHalt(d.code) && TargetOf(code[i]) == Some(At(|d.code|))) {
      assert Resolved(d.functions, |d.code|, i, code[i]);
    }
    forall i | 0 <= i < |d.code| ensures code[i] == d.code[i] {}
  }

  /** A concrete program where it happens: IF A THEN END. */
  lemma {:induction false} IfThenEndCompiles()
    ensures var t := InlineIf([Op(LoadNum, 0, 0, 0, 0)], Statement.Straight([Simple(Halt)]), None);
            var code := [Plain(Op(LoadNum, 0, 0, 0, 0)), Unless(At(3)), Plain(Simple(Halt))];
            Compile(true, EMPTY, t, 0) == Some(EMPTY.(code := code))
  {
    var p := EMPTY.(code := [Plain(Op(LoadNum, 0, 0, 0, 0)), Unless(Hole(InlineNo(0)))]);
    assert EMPTY.code + (PlainOps([Op(LoadNum, 0, 0, 0, 0)]) + [Unless(Hole(InlineNo(0)))]) == p.code;
    assert Put(EMPTY, PlainOps([Op(LoadNum, 0, 0, 0, 0)]) + [Unless(Hole(InlineNo(0)))]) == Some(p);
    var q := p.(code := [Plain(Op(LoadNum, 0, 0, 0, 0)), Unless(Hole(InlineNo(0))), Plain(Simple(Halt))]);
    assert PlainOps([Simple(Halt)]) == [Plain(Simple(Halt))];
    assert p.code + [Plain(Simple(Halt))] == q.code;
    assert Compile(true, p, Statement.Straight([Simple(Halt)]), 1) == Some(q);
    assert Bind(q.code, InlineNo(0), 3) == [Plain(Op(LoadNum, 0, 0, 0, 0)), Unless(At(3)), Plain(Simple(Halt))];
  }

  lemma {:induction false} IfThenEndFails()
    ensures var rows := [Of(InlineIf([Op(LoadNum, 0, 0, 0, 0)], Statement.Straight([Simple(Halt)]), None))];
            var d := CompileRows(true, EMPTY, rows);
            d.Some? && Finish(d.value) == Some(d.value.code) && |d.value.code| == 3 && d.value.code[1] == Unless(At(3))
  {
    hide Compile;
    var rows := [Of(InlineIf([Op(LoadNum, 0, 0, 0, 0)], Statement.Straight([Simple(Halt)]), None))];
    IfThenEndCompiles();
    var r := EMPTY.(code := [Plain(Op(LoadNum, 0, 0, 0, 0)), Unless(At(3)), Plain(Simple(Halt))]);
    assert CompileRows(true, r, rows[1..]) == Some(r);
  }
}
