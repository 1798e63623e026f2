/** The one-pass compiler as it runs: operations appended to a fixed array, control stacks whose
    entries head chains threaded through operand fields, and walks that fill the chains in.
    Every method is proved to do to the array what the symbolic compiler does to its draft. */
module Backpatch {
  import opened Wrappers
  import opened Il
  import opened Statements
  import opened Labels
  import opened Threading
  import Targets

  // ---------- what the stacks say about the draft ----------

  function ForBlocks(s: seq<ForEntry>): (r: seq<ForBlock>)
    ensures |r| == |s| && forall k :: 0 <= k < |s| ==> r[k] == ForBlock(s[k].slot, s[k].opening)
  {
    seq(|s|, k requires 0 <= k < |s| => ForBlock(s[k].slot, s[k].opening))
  }

  function WhileBlocks(s: seq<WhileEntry>): (r: seq<WhileBlock>)
    ensures |r| == |s| && forall k :: 0 <= k < |s| ==> r[k] == WhileBlock(s[k].start, s[k].opening)
  {
    seq(|s|, k requires 0 <= k < |s| => WhileBlock(s[k].start, s[k].opening))
  }

  function DoBlocks(s: seq<DoEntry>): (r: seq<DoBlock>)
    ensures |r| == |s| && forall k :: 0 <= k < |s| ==> r[k] == DoBlock(s[k].start, s[k].opening)
  {
    seq(|s|, k requires 0 <= k < |s| => DoBlock(s[k].start, s[k].opening))
  }

  function IfBlocks(s: seq<IfEntry>): (r: seq<IfBlock>)
    ensures |r| == |s| && forall k :: 0 <= k < |s| ==> r[k] == IfBlock(s[k].pending >= 0, s[k].seenElse, s[k].opening)
  {
    seq(|s|, k requires 0 <= k < |s| => IfBlock(s[k].pending >= 0, s[k].seenElse, s[k].opening))
  }

  function SelectOf(e: SelectEntry): SelectBlock { SelectBlock(e.pending >= 0, e.seenCase, e.seenElse, e.opening) }

  function SelectBlocks(s: seq<SelectEntry>): (r: seq<SelectBlock>)
    ensures |r| == |s| && forall k :: 0 <= k < |s| ==> r[k] == SelectOf(s[k])
  {
    seq(|s|, k requires 0 <= k < |s| => SelectOf(s[k]))
  }

  /** FOR and WHILE wait at a jump of their own, an IF for its next branch until ELSE, a SELECT for
      its next clause after each CASE. */
  predicate Waiting(fors: seq<ForEntry>, whiles: seq<WhileEntry>, ifs: seq<IfEntry>, selects: seq<SelectEntry>) {
    (forall k :: 0 <= k < |fors| ==> fors[k].skip >= 0) && (forall k :: 0 <= k < |whiles| ==> whiles[k].jz >= 0) &&
    (forall k :: 0 <= k < |ifs| ==> (ifs[k].pending >= 0 <==> !ifs[k].seenElse)) &&
    (forall k :: 0 <= k < |selects| ==> (selects[k].pending >= 0 <==> selects[k].seenCase && !selects[k].seenElse))
  }

  // ---------- chain heads ----------

  /** The stacks with the head of `l`'s chain moved to `h`. */
  function WithHead(c: Control, l: Label, h: int): Control {
    match l
    case ForEnd(k) => if k < |c.fors| then c.(fors := c.fors[k := c.fors[k].(exits := h)]) else c
    case DoEnd(k) => if k < |c.dos| then c.(dos := c.dos[k := c.dos[k].(exits := h)]) else c
    case IfEnd(k) => if k < |c.ifs| then c.(ifs := c.ifs[k := c.ifs[k].(end := h)]) else c
    case SelectEnd(k) => if k < |c.selects| then c.(selects := c.selects[k := c.selects[k].(end := h)]) else c
    case Match => c.(inline := c.inline[l := h])
    case _ => c
  }

  predicate HasChain(c: Control, l: Label) {
    match l
    case ForEnd(k) => k < |c.fors|
    case DoEnd(k) => k < |c.dos|
    case IfEnd(k) => k < |c.ifs|
    case SelectEnd(k) => k < |c.selects|
    case Match => true
    case _ => false
  }

  lemma {:induction false} WithHeadSingles(c: Control, l: Label, h: int, m: Label)
    requires HasChain(c, l)
    ensures SingleOf(WithHead(c, l, h), m) == SingleOf(c, m)
  {
    hide HeadOf;
  }

  lemma {:induction false} WithHeadHeads(c: Control, l: Label, h: int, m: Label)
    requires HasChain(c, l)
    ensures HeadOf(WithHead(c, l, h), m) == if m == l then h else HeadOf(c, m)
  {
    hide SingleOf;
  }

  lemma {:induction false} WithHeadHolds(c: Control, l: Label, h: int)
    requires HasChain(c, l)
    ensures HeadOf(WithHead(c, l, h), l) == h && SingleOf(WithHead(c, l, h), l) == SingleOf(c, l) &&
        HasChain(WithHead(c, l, h), l)
    ensures forall m :: m != l ==> Holds(c, WithHead(c, l, h), m)
  {
    WithHeadHeads(c, l, h, l);
    WithHeadSingles(c, l, h, l);
    forall m | m != l ensures Holds(c, WithHead(c, l, h), m) {
      hide HeadOf, SingleOf, WithHead;
      WithHeadHeads(c, l, h, m);
      WithHeadSingles(c, l, h, m);
    }
  }

  lemma {:induction false} WithOwnHead(c: Control, l: Label)
    requires HasChain(c, l) && l != Match
    ensures WithHead(c, l, HeadOf(c, l)) == c
  {}

  lemma {:induction false} PutTwice(d: Draft, a: seq<Sym>, b: seq<Sym>)
    ensures Put(d, a + b) == (var p := Put(d, a); if p.None? then None else Put(p.value, b))
  {
    assert d.code + a + b == d.code + (a + b);
  }

  /** Outside a `b` chain a waiting operation has no link in `b` to clear. */
  lemma {:induction false} PatchedTarget(op: Op, s: Sym, l: Label, pc: int)
    requires Same(op, s) && Waits(s, l) && !ThroughB(l)
    ensures Patched(op, pc) == op.(a := pc)
  {}

  class Compiler {
    const structured: bool
    const code: array<Op>
    var count: nat
    var fors: seq<ForEntry>
    var whiles: seq<WhileEntry>
    var dos: seq<DoEntry>
    var ifs: seq<IfEntry>
    var selects: seq<SelectEntry>
    var lines: seq<(int, int)>
    var functions: seq<Span>
    var entry: Option<int>
    var returned: bool
    ghost var syms: seq<Sym>
    ghost var inline: map<Label, int>

    ghost function Controls(): Control
      reads this
    {
      Control(fors, whiles, dos, ifs, selects, entry, inline)
    }

    ghost function Sketch(): Draft
      reads this
    {
      Draft(syms, ForBlocks(fors), WhileBlocks(whiles), DoBlocks(dos), IfBlocks(ifs), SelectBlocks(selects), lines,
          functions,
            entry, returned)
    }

    ghost predicate Fits()
      reads this
    {
      code.Length == MAX_OPS && count == |syms| <= MAX_OPS
    }

    ghost predicate Valid()
      reads this, code
    {
      Fits() && Waiting(fors, whiles, ifs, selects) && Woven(code[..count], syms, Controls()) &&
      Match !in inline && LowFail !in inline && HighFail !in inline && (entry.Some? ==> entry.value > 0)
    }

    constructor (structured: bool)
      ensures Valid() && Sketch() == EMPTY && inline == map[] && fresh(code) && this.structured == structured
    {
      this.structured := structured;
      code := new Op[MAX_OPS](_ => Simple(Halt));
      count := 0;
      fors, whiles, dos, ifs, selects := [], [], [], [], [];
      lines, functions, entry, returned := [], [], None, false;
      syms, inline := [], map[];
      new;
      assert code[..count] == [];
      forall l ensures Threads([], [], Controls(), l) {}
    }

    function Opening(): Depths
      reads this
    {
      Depths(|fors|, |whiles|, |dos|, |ifs|, |selects|)
    }

    // ---------- emitting ----------

    method Emit(op: Op, ghost s: Sym) returns (ok: bool)
      requires Fits()
      modifies this`count, this`syms, code
      ensures Fits() && ok == (old(count) < MAX_OPS)
      ensures count == if ok then old(count) + 1 else old(count)
      ensures code[..count] == if ok then old(code[..count]) + [op] else old(code[..count])
      ensures syms == if ok then old(syms) + [s] else old(syms)
    {
      ok := count < MAX_OPS;
      if ok {
        code[count] := op;
        count := count + 1;
        syms := syms + [s];
      }
    }

    method EmitBound(op: Op, ghost s: Sym, ghost c: Control) returns (ok: bool)
      requires Fits() && Woven(code[..count], syms, c) && Same(op, s) && forall l :: !Waits(s, l)
      modifies this`count, this`syms, code
      ensures Fits() && ok == (old(count) < MAX_OPS)
      ensures ok ==> count == old(count) + 1 && Woven(code[..count], syms, c) && syms == old(syms) + [s]
    {
      AppendBound(code[..count], syms, c, op, s);
      ok := Emit(op, s);
    }

    /** Code that does not wait for anything, as expressions and simple statements emit it. */
    method EmitAll(ops: seq<Op>, ghost c: Control) returns (ok: bool)
      requires Fits() && Woven(code[..count], syms, c)
      modifies this`count, this`syms, code
      ensures Fits() && ok == (old(count) + |ops| <= MAX_OPS)
      ensures ok ==> count == old(count) + |ops| && Woven(code[..count], syms, c) && syms == old(syms) + PlainOps(ops)
    {
      assert old(syms) + PlainOps(ops[..0]) == old(syms);
      for i := 0 to |ops|
        invariant Fits() && count == old(count) + i && Woven(code[..count], syms, c)
        invariant syms == old(syms) + PlainOps(ops[..i])
      {
        assert PlainOps(ops[..i + 1]) == PlainOps(ops[..i]) + [Plain(ops[i])];
        ok := EmitBound(ops[i], Plain(ops[i]), c);
        if !ok { return; }
      }
      assert ops[..|ops|] == ops;
      ok := true;
    }

    method EmitSingle(op: Op, ghost s: Sym, ghost l: Label, ghost c: Control, ghost e: Control) returns (ok: bool)
      requires Fits() && Woven(code[..count], syms, c) && Same(op, s) && Waits(s, l) && !Chained(s, l)
      requires SingleOf(c, l) == -1 && SingleOf(e, l) == count && HeadOf(c, l) == HeadOf(e, l)
      requires forall m :: m != l ==> Holds(c, e, m)
      modifies this`count, this`syms, code
      ensures Fits() && ok == (old(count) < MAX_OPS)
      ensures ok ==> count == old(count) + 1 && Woven(code[..count], syms, e) && syms == old(syms) + [s]
    {
      AppendSingle(code[..count], syms, c, e, op, s, l);
      ok := Emit(op, s);
    }

    method EmitLink(op: Op, ghost s: Sym, ghost l: Label, ghost c: Control) returns (ok: bool)
      requires Fits() && Woven(code[..count], syms, c) && Same(op, s) && Chained(s, l) &&
          Link(l, op) == HeadOf(c, l) && HasChain(c, l)
      modifies this`count, this`syms, code
      ensures Fits() && ok == (old(count) < MAX_OPS)
      ensures ok ==> count == old(count) + 1 && Woven(code[..count], syms, WithHead(c, l, old(count))) && syms == old(syms) + [s]
    {
      WithHeadHolds(c, l, count);
      AppendLink(code[..count], syms, c, WithHead(c, l, count), op, s, l);
      ok := Emit(op, s);
    }

    // ---------- filling in ----------

    method PatchSlot(i: nat, pc: int, ghost l: Label, ghost c: Control, ghost e: Control)
      requires Fits() && Woven(code[..count], syms, c) && SingleOf(c, l) == i && !ThroughB(l)
      requires SingleOf(e, l) == -1 && HeadOf(e, l) == HeadOf(c, l) && forall m :: m != l ==> Holds(c, e, m)
      modifies this`syms, code
      ensures Fits() && Woven(code[..count], syms, e) && PartlyBound(old(syms), syms, l, pc)
    {
      ghost var was := code[..count];
      PatchSingle(was, syms, c, e, l, pc);
      assert Same(was[i], syms[i]);
      PatchedTarget(was[i], syms[i], l, pc);
      code[i] := code[i].(a := pc);
      assert code[..count] == was[i := Patched(was[i], pc)];
      syms := syms[i := BindSym(syms[i], l, pc)];
    }

    /** Walk an EXIT chain through `a`. */
    method PatchExits(first: int, ghost l: Label, ghost c: Control)
      requires Fits() && Woven(code[..count], syms, c) && HasChain(c, l) && HeadOf(c, l) == first && (l.ForEnd? ||
          l.DoEnd?)
      modifies this`syms, code
      ensures Fits() && Woven(code[..count], syms, WithHead(c, l, -1)) && PartlyBound(old(syms), syms, l, count)
    {
      hide Woven, PartlyBound, WithHead;
      var head := first;
      WithOwnHead(c, l);
      assert PartlyBound(syms, syms, l, count) by { SelfBound(syms, l, count); }
      WovenFrom(code[..count], syms, c, l);
      while head >= 0
        invariant Fits() && -1 <= head < count && Woven(code[..count], syms, WithHead(c, l, head))
        invariant PartlyBound(old(syms), syms, l, count)
        decreases head
      {
        ghost var was := code[..count];
        var next := code[head].a;
        WalkStep(was, syms, c, l, head, next, count, old(syms));
        PatchedTarget(was[head], syms[head], l, count);
        code[head] := code[head].(a := count);
        assert code[..count] == was[head := Patched(was[head], count)];
        syms := syms[head := BindSym(syms[head], l, count)];
        head := next;
      }
    }

    /** Walk a chain of end-of-block jumps through `b`, clearing the links. */
    method PatchJumps(first: int, target: int, ghost l: Label, ghost c: Control)
      requires Fits() && Woven(code[..count], syms, c) && HasChain(c, l) && HeadOf(c, l) == first && ThroughB(l)
      modifies this`syms, code
      ensures Fits() && Woven(code[..count], syms, WithHead(c, l, -1)) && PartlyBound(old(syms), syms, l, target)
    {
      hide Woven, PartlyBound, WithHead;
      var head := first;
      WovenWithOwnHead(code[..count], syms, c, l);
      assert PartlyBound(syms, syms, l, target) by { SelfBound(syms, l, target); }
      WovenFrom(code[..count], syms, c, l);
      while head >= 0
        invariant Fits() && -1 <= head < count && Woven(code[..count], syms, WithHead(c, l, head))
        invariant PartlyBound(old(syms), syms, l, target)
        decreases head
      {
        ghost var was := code[..count];
        var next := code[head].b;
        WalkStep(was, syms, c, l, head, next, target, old(syms));
        PatchedLink(was[head], syms[head], l, target);
        code[head] := code[head].(a := target, b := 0);
        assert code[..count] == was[head := Patched(was[head], target)];
        syms := syms[head := BindSym(syms[head], l, target)];
        head := next;
      }
    }

    // ---------- IF ----------

    method CompileIf(cond: seq<Op>) returns (ok: bool)
      requires Valid()
      modifies this, code
      ensures ok ==> Valid() && Labels.CompileIf(old(Sketch()), cond) == Some(Sketch()) && inline == old(inline)
      ensures !ok ==> Labels.CompileIf(old(Sketch()), cond).None?
    {
      hide Woven, SingleOf, HeadOf, Waits, Chained;
      var opening := Opening();
      ok := EmitAll(cond, Controls());
      if !ok { return; }
      ghost var e := Controls().(ifs := ifs + [IfEntry(count, -1, false, opening)]);
      ghost var s := Unless(Hole(IfNext(|ifs|)));
      NewIf(Controls(), count, opening);
      var jz := count;
      ok := EmitSingle(Op(Jz, 0, 0, -1, 0), s, IfNext(|ifs|), Controls(), e);
      if !ok { return; }
      if |ifs| >= MAX_DEPTH { return false; }
      ifs := ifs + [IfEntry(jz, -1, false, opening)];
      assert IfBlocks(ifs) == old(Sketch()).ifs + [IfBlock(true, false, opening)];
      assert syms == old(syms) + (PlainOps(cond) + [s]);
    }

    /** Jump from the end of a branch to the end of the IF, and let the failed test land here. */
    method EndBranch() returns (ok: bool)
      requires Valid() && |ifs| > 0 && ifs[|ifs| - 1].pending >= 0
      modifies this`count, this`syms, this`ifs, code
      ensures var k := |old(ifs)| - 1;
              var p := Put(old(Sketch()), [Jump(Hole(IfEnd(k)))]);
              if !ok then p.None?
              else p.Some? && syms == Here(p.value, IfNext(k)).code && Fits() &&
                   ifs == old(ifs)[k := old(ifs)[k].(pending := -1, end := old(count))] &&
                       Woven(code[..count], syms, Controls())
    {
      hide Woven, SingleOf, HeadOf, Waits, Chained, PartlyBound, Bind;
      var k := |ifs| - 1;
      var block := ifs[k];
      ghost var c := Controls();
      var jump := count;
      IfLabels(c, k);
      ok := EmitLink(Op(Jmp, 0, 0, -1, block.end), Jump(Hole(IfEnd(k))), IfEnd(k), c);
      if !ok { return; }
      ifs := ifs[k := block.(end := jump)];
      ghost var c1 := Controls();
      assert c1 == WithHead(c, IfEnd(k), jump);
      ghost var before := syms;
      ghost var c2 := c1.(ifs := ifs[k := ifs[k].(pending := -1)]);
      PendingIf(c1, k);
      PatchSlot(block.pending, count, IfNext(k), c1, c2);
      AllBound(code[..count], before, syms, c2, IfNext(k), count);
      ifs := ifs[k := ifs[k].(pending := -1)];
    }

    /** The test of an ELSEIF, which waits for the branch after it. */
    method TestBranch(cond: seq<Op>) returns (ok: bool)
      requires Fits() && |ifs| > 0 && ifs[|ifs| - 1].pending == -1 && Woven(code[..count], syms, Controls())
      modifies this`count, this`syms, this`ifs, code
      ensures ok == (old(count) + |cond| + 1 <= MAX_OPS)
      ensures ok ==> Fits() && Woven(code[..count], syms, Controls()) &&
                     syms == old(syms) + (PlainOps(cond) + [Unless(Hole(IfNext(|old(ifs)| - 1)))]) &&
                     ifs == old(ifs)[|old(ifs)| - 1 := old(ifs)[|old(ifs)| - 1].(pending := old(count) + |cond|)]
    {
      hide Woven, SingleOf, HeadOf, Waits, Chained;
      var k := |ifs| - 1;
      ghost var c := Controls();
      ok := EmitAll(cond, c);
      if !ok { return; }
      var pending := count;
      PendingAgain(c, k, count);
      ok := EmitSingle(Op(Jz, 0, 0, -1, 0), Unless(Hole(IfNext(k))), IfNext(k), c, c.(ifs := c.ifs[k :=
          c.ifs[k].(pending := count)]));
      if !ok { return; }
      ifs := ifs[k := ifs[k].(pending := pending)];
      assert syms == old(syms) + (PlainOps(cond) + [Unless(Hole(IfNext(k)))]);
    }

    method CompileElseIf(cond: seq<Op>) returns (ok: bool)
      requires Valid()
      modifies this, code
      ensures ok ==> Valid() && Labels.CompileElse(old(Sketch()), Some(cond)) == Some(Sketch()) && inline == old(inline)
      ensures !ok ==> Labels.CompileElse(old(Sketch()), Some(cond)).None?
    {
      hide Woven, SingleOf, HeadOf, Waits, Chained, Bind;
      if |ifs| == 0 { return false; }
      var block := ifs[|ifs| - 1];
      if Opening() != block.opening.(i := block.opening.i + 1) || block.seenElse { return false; }
      ok := EndBranch();
      if !ok { return; }
      ok := TestBranch(cond);
      if !ok { return; }
      assert IfBlocks(ifs) == old(Sketch()).ifs;
    }

    method CompileElse() returns (ok: bool)
      requires Valid()
      modifies this, code
      ensures ok ==> Valid() && Labels.CompileElse(old(Sketch()), None) == Some(Sketch()) && inline == old(inline)
      ensures !ok ==> Labels.CompileElse(old(Sketch()), None).None?
    {
      hide Woven, SingleOf, HeadOf, Waits, Chained, Bind;
      if |ifs| == 0 { return false; }
      var k := |ifs| - 1;
      var block := ifs[k];
      if Opening() != block.opening.(i := block.opening.i + 1) || block.seenElse { return false; }
      ok := EndBranch();
      if !ok { return; }
      ghost var c := Controls();
      ifs := ifs[k := ifs[k].(seenElse := true)];
      SameIfs(c, Controls(), k);
      SameHolders(code[..count], syms, c, Controls());
      assert IfBlocks(ifs) == Front(old(Sketch()).ifs) + [Last(old(Sketch()).ifs).(pending := false, seenElse := true)];
    }

    method CompileEndIf() returns (ok: bool)
      requires Valid()
      modifies this, code
      ensures ok ==> Valid() && Labels.CompileEndIf(old(Sketch())) == Some(Sketch()) && inline == old(inline)
      ensures !ok ==> Labels.CompileEndIf(old(Sketch())).None?
    {
      hide Woven, SingleOf, HeadOf, Waits, Chained, PartlyBound, Bind;
      if |ifs| == 0 { return false; }
      var k := |ifs| - 1;
      var block := ifs[k];
      if Opening() != block.opening.(i := block.opening.i + 1) { return false; }
      ghost var c := Controls();
      ghost var c1 := c.(ifs := ifs[k := block.(pending := -1)]);
      ghost var before := syms;
      if block.pending >= 0 {
        PendingIf(c, k);
        PatchSlot(block.pending, count, IfNext(k), c, c1);
        AllBound(code[..count], before, syms, c1, IfNext(k), count);
      } else {
        WovenFrom(code[..count], syms, c, IfNext(k));
        NoPending(code[..count], syms, c, k);
        SameIfs(c, c1, k);
        SameHolders(code[..count], syms, c, c1);
      }
      ghost var mid := syms;
      IfLabels(c1, k);
      PatchJumps(block.end, count, IfEnd(k), c1);
      ghost var c2 := WithHead(c1, IfEnd(k), -1);
      IfClosed(c1, k);
      AllBound(code[..count], mid, syms, c2, IfEnd(k), count);
      ifs := ifs[..k];
      assert Controls() == c1.(ifs := c1.ifs[..k]);
      SameHolders(code[..count], syms, c2, Controls());
      assert IfBlocks(ifs) == Front(old(Sketch()).ifs);
      ok := true;
    }

    // ---------- FOR, WHILE, DO, EXIT ----------

    method CompileFor(slot: int, start: seq<Op>, limit: seq<Op>, step: seq<Op>) returns (ok: bool)
      requires Valid()
      modifies this, code
      ensures ok ==> Valid() && Labels.CompileFor(old(Sketch()), slot, start, limit, step) == Some(Sketch()) && inline == old(inline)
      ensures !ok ==> Labels.CompileFor(old(Sketch()), slot, start, limit, step).None?
    {
      hide Woven, SingleOf, HeadOf, Waits, Chained;
      if |fors| >= MAX_DEPTH { return false; }
      ok := EmitHeader(slot, start, limit, step);
      if !ok { return; }
      ghost var mid := syms;
      var skip := count;
      var opening := Opening();
      NewFor(Controls(), slot, count, opening);
      ghost var s := Jump(Hole(ForEnd(|fors|)));
      ok := EmitSingle(Op(Jmp, 0, 0, -1, 0), s, ForEnd(|fors|), Controls(),
                       Controls().(fors := fors + [ForEntry(slot, count, -1, opening)]));
      if !ok { return; }
      fors := fors + [ForEntry(slot, skip, -1, opening)];
      assert ForBlocks(fors) == old(Sketch()).fors + [ForBlock(slot, opening)];
      assert syms == old(syms) + (PlainOps(ForHeader(old(count), slot, start, limit, step)) + [s]);
    }

    /** Initial value, limit, step and the loop's first test, whose body starts after the skip jump. */
    method EmitHeader(slot: int, start: seq<Op>, limit: seq<Op>, step: seq<Op>) returns (ok: bool)
      requires Valid()
      modifies this`count, this`syms, code
      ensures Fits() && ok == (old(count) + |ForHeader(old(count), slot, start, limit, step)| <= MAX_OPS)
      ensures ok ==> count == old(count) + |ForHeader(old(count), slot, start, limit, step)| && Valid()
      ensures ok ==> syms == old(syms) + PlainOps(ForHeader(old(count), slot, start, limit, step))
    {
      hide Woven;
      var header := start + [Op(StoreNum, 0, 0, slot, 0)] + limit + step + [Op(ForInit, 0, 0, slot, 0)];
      ok := EmitAll(header, Controls());
      if !ok { return; }
      ok := EmitAll([Op(ForCheck, 0, 0, slot, count + 2)], Controls());
      assert ForHeader(old(count), slot, start, limit, step) == header + [Op(ForCheck, 0, 0, slot, old(count)
          + |header| + 2)];
      if !ok { return; }
      assert PlainOps(ForHeader(old(count), slot, start, limit, step))
          == PlainOps(header) + PlainOps([Op(ForCheck, 0, 0, slot, old(count) + |header| + 2)]);
    }

    method CompileNext(slot: int) returns (ok: bool)
      requires Valid()
      modifies this, code
      ensures ok ==> Valid() && Labels.CompileNext(structured, old(Sketch()), slot) == Some(Sketch()) && inline == old(inline)
      ensures !ok ==> Labels.CompileNext(structured, old(Sketch()), slot).None?
    {
      hide Valid, Bind;
      if |fors| == 0 { return false; }
      var k := |fors| - 1;
      var top := fors[k];
      if structured && Opening() != top.opening.(f := top.opening.f + 1) { return false; }
      if slot >= 0 && slot != top.slot { return false; }
      var op := Op(ForIncr, 0, 0, slot, 0);
      assert PlainOps([op]) == [Plain(op)];
      ok := CompileStraight([op]);
      if !ok { return; }
      CloseFor(k);
      assert ForBlocks(fors) == Front(old(Sketch()).fors);
    }

    /** Fill in every way out of the innermost FOR loop and leave it. */
    method CloseFor(k: nat)
      requires Valid() && |fors| == k + 1
      modifies this`syms, this`fors, code
      ensures Valid() && syms == Bind(old(syms), ForEnd(k), count) && fors == old(fors)[..k]
    {
      hide Woven, SingleOf, HeadOf, Waits, Chained, PartlyBound, Bind;
      ghost var c := Controls();
      var top := fors[k];
      ghost var before := syms;
      ghost var c1 := c.(fors := fors[k := top.(skip := -1)]);
      SkipFilled(code[..count], syms, c, k);
      PatchSlot(top.skip, count, ForEnd(k), c, c1);
      ghost var mid := syms;
      PatchExits(top.exits, ForEnd(k), c1);
      PartlyBoundTwice(before, mid, syms, ForEnd(k), count);
      ForClosed(c1, k);
      AllBound(code[..count], before, syms, WithHead(c1, ForEnd(k), -1), ForEnd(k), count);
      fors := fors[..k];
      assert Controls() == c1.(fors := c1.fors[..k]);
      SameHolders(code[..count], syms, WithHead(c1, ForEnd(k), -1), Controls());
    }

    method CompileWhile(cond: seq<Op>) returns (ok: bool)
      requires Valid()
      modifies this, code
      ensures ok ==> Valid() && Labels.CompileWhile(old(Sketch()), cond) == Some(Sketch()) && inline == old(inline)
      ensures !ok ==> Labels.CompileWhile(old(Sketch()), cond).None?
    {
      hide Woven, SingleOf, HeadOf, Waits, Chained;
      if |whiles| >= MAX_DEPTH { return false; }
      var start := count;
      ok := EmitAll(cond, Controls());
      if !ok { return; }
      var jz, opening := count, Opening();
      ghost var s := Unless(Hole(WhileEnd(|whiles|)));
      NewWhile(Controls(), start, count, opening);
      ok := EmitSingle(Op(Jz, 0, 0, -1, 0), s, WhileEnd(|whiles|), Controls(),
                       Controls().(whiles := whiles + [WhileEntry(start, count, opening)]));
      if !ok { return; }
      whiles := whiles + [WhileEntry(start, jz, opening)];
      assert WhileBlocks(whiles) == old(Sketch()).whiles + [WhileBlock(start, opening)];
      assert syms == old(syms) + (PlainOps(cond) + [s]);
    }

    method CompileWend() returns (ok: bool)
      requires Valid()
      modifies this, code
      ensures ok ==> Valid() && Labels.CompileWend(structured, old(Sketch())) == Some(Sketch()) && inline == old(inline)
      ensures !ok ==> Labels.CompileWend(structured, old(Sketch())).None?
    {
      hide Woven, Waits, Bind;
      if |whiles| == 0 { return false; }
      var k := |whiles| - 1;
      var top := whiles[k];
      if structured && Opening() != top.opening.(w := top.opening.w + 1) { return false; }
      BoundWaits(top.start);
      ok := EmitBound(Op(Jmp, 0, 0, top.start, 0), Jump(At(top.start)), Controls());
      if !ok { return; }
      CloseWhile(k);
      assert WhileBlocks(whiles) == Front(old(Sketch()).whiles);
    }

    /** Fill in the test of the innermost WHILE loop and leave it. */
    method CloseWhile(k: nat)
      requires Valid() && |whiles| == k + 1
      modifies this`syms, this`whiles, code
      ensures Valid() && syms == Bind(old(syms), WhileEnd(k), count) && whiles == old(whiles)[..k]
    {
      hide Woven, SingleOf, HeadOf, Waits, Chained, PartlyBound, Bind;
      ghost var c := Controls();
      var top := whiles[k];
      ghost var before := syms;
      ghost var c1 := c.(whiles := whiles[k := top.(jz := -1)]);
      TestFilled(code[..count], syms, c, k);
      PatchSlot(top.jz, count, WhileEnd(k), c, c1);
      AllBound(code[..count], before, syms, c1, WhileEnd(k), count);
      WhileClosed(c1, k);
      whiles := whiles[..k];
      assert Controls() == c1.(whiles := c1.whiles[..k]);
      SameHolders(code[..count], syms, c1, Controls());
    }

    method CompileDo(test: Option<seq<Op>>) returns (ok: bool)
      requires Valid()
      modifies this, code
      ensures ok ==> Valid() && Labels.CompileDo(old(Sketch()), test) == Some(Sketch()) && inline == old(inline)
      ensures !ok ==> Labels.CompileDo(old(Sketch()), test).None?
    {
      hide Woven, SingleOf, HeadOf, Waits, Chained;
      if |dos| >= MAX_DEPTH { return false; }
      var start, exit: int, opening := count, -1, Opening();
      NewDo(Controls(), start, -1, opening);
      if test.Some? {
        ok := EmitAll(test.value, Controls());
        if !ok { return; }
        exit := count;
        ghost var s := Unless(Hole(DoEnd(|dos|)));
        NewDo(Controls(), start, count, opening);
        ok := EmitSingle(Op(Jz, 0, 0, -1, 0), s, DoEnd(|dos|), Controls(),
                         Controls().(dos := dos + [DoEntry(start, count, -1, opening)]));
        if !ok { return; }
        assert syms == old(syms) + (PlainOps(test.value) + [s]);
      } else {
        SameHolders(code[..count], syms, Controls(), Controls().(dos := dos + [DoEntry(start, -1, -1, opening)]));
      }
      dos := dos + [DoEntry(start, exit, -1, opening)];
      assert DoBlocks(dos) == old(Sketch()).dos + [DoBlock(start, opening)];
      ok := true;
    }

    method CompileLoop(test: Option<seq<Op>>) returns (ok: bool)
      requires Valid()
      modifies this, code
      ensures ok ==> Valid() && Labels.CompileLoop(structured, old(Sketch()), test) == Some(Sketch()) && inline == old(inline)
      ensures !ok ==> Labels.CompileLoop(structured, old(Sketch()), test).None?
    {
      hide Woven, SingleOf, HeadOf, Waits, Chained, PartlyBound, Bind;
      if |dos| == 0 { return false; }
      var k := |dos| - 1;
      var top := dos[k];
      if structured && Opening() != top.opening.(d := top.opening.d + 1) { return false; }
      ok := EmitBack(top.start, test);
      if !ok { return; }
      CloseDo(k);
      assert DoBlocks(dos) == Front(old(Sketch()).dos);
    }

    /** The jump back to the start of a DO loop. */
    method EmitBack(start: int, test: Option<seq<Op>>) returns (ok: bool)
      requires Valid()
      modifies this`count, this`syms, code
      ensures var back := if test.Some? then PlainOps(test.value) + [Unless(At(start))] else [Jump(At(start))];
              if ok then Valid() && count == old(count) + |back| &&
                  syms == old(syms) + back else old(count) + |back| > MAX_OPS
    {
      hide Woven, Waits;
      BoundWaits(start);
      if test.Some? {
        ok := EmitAll(test.value, Controls());
        if !ok { return; }
        ok := EmitBound(Op(Jz, 0, 0, start, 0), Unless(At(start)), Controls());
        assert ok ==> syms == old(syms) + (PlainOps(test.value) + [Unless(At(start))]);
      } else {
        ok := EmitBound(Op(Jmp, 0, 0, start, 0), Jump(At(start)), Controls());
      }
    }

    /** Fill in every way out of the innermost DO loop and leave it. */
    method CloseDo(k: nat)
      requires Valid() && |dos| == k + 1
      modifies this`syms, this`dos, code
      ensures Valid() && syms == Bind(old(syms), DoEnd(k), count) && dos == old(dos)[..k]
    {
      hide Woven, SingleOf, HeadOf, Waits, Chained, PartlyBound, Bind;
      ghost var c := Controls();
      var top := dos[k];
      ghost var before := syms;
      ghost var c1 := c.(dos := dos[k := top.(exit := -1)]);
      ExitFilled(code[..count], syms, c, k);
      if top.exit >= 0 {
        PatchSlot(top.exit, count, DoEnd(k), c, c1);
      } else {
        SelfBound(syms, DoEnd(k), count);
      }
      ghost var mid := syms;
      PatchExits(top.exits, DoEnd(k), c1);
      PartlyBoundTwice(before, mid, syms, DoEnd(k), count);
      DoClosed(c1, k);
      AllBound(code[..count], before, syms, WithHead(c1, DoEnd(k), -1), DoEnd(k), count);
      dos := dos[..k];
      assert Controls() == c1.(dos := c1.dos[..k]);
      SameHolders(code[..count], syms, WithHead(c1, DoEnd(k), -1), Controls());
    }

    method CompileExit(loop: bool) returns (ok: bool)
      requires Valid()
      modifies this, code
      ensures ok ==> Valid() && Labels.CompileExit(structured, old(Sketch()), loop) == Some(Sketch()) && inline == old(inline)
      ensures !ok ==> Labels.CompileExit(structured, old(Sketch()), loop).None?
    {
      hide Woven, SingleOf, HeadOf, Waits, Chained;
      if !structured { return false; }
      ghost var c := Controls();
      var pc := count;
      if loop {
        if |dos| == 0 { return false; }
        var k := |dos| - 1;
        var discard := |fors| - dos[k].opening.f;
        ExitLabels(c, DoEnd(k), discard, |fors|);
        ok := EmitLink(Op(ExitLoop, 0, |fors|, dos[k].exits, discard), Leave(Hole(DoEnd(k)), discard, |fors|),
            DoEnd(k), c);
        if !ok { return; }
        dos := dos[k := dos[k].(exits := pc)];
        assert Controls() == WithHead(c, DoEnd(k), pc);
        assert DoBlocks(dos) == old(Sketch()).dos;
      } else {
        if |fors| == 0 { return false; }
        var k := |fors| - 1;
        ExitLabels(c, ForEnd(k), 1, |fors|);
        ok := EmitLink(Op(ExitLoop, 0, |fors|, fors[k].exits, 1), Leave(Hole(ForEnd(k)), 1, |fors|), ForEnd(k), c);
        if !ok { return; }
        fors := fors[k := fors[k].(exits := pc)];
        assert Controls() == WithHead(c, ForEnd(k), pc);
        assert ForBlocks(fors) == old(Sketch()).fors;
      }
    }

    // ---------- SELECT ----------

    method CompileSelect(cond: seq<Op>) returns (ok: bool)
      requires Valid()
      modifies this, code
      ensures ok ==> Valid() && Labels.CompileSelect(old(Sketch()), cond) == Some(Sketch()) && inline == old(inline)
      ensures !ok ==> Labels.CompileSelect(old(Sketch()), cond).None?
    {
      hide Woven, SingleOf, HeadOf;
      if |selects| >= MAX_DEPTH { return false; }
      var opening := Opening();
      ok := EmitAll(cond, Controls());
      if !ok { return; }
      NewSelect(Controls(), opening);
      ghost var c := Controls();
      selects := selects + [SelectEntry(-1, -1, false, false, opening)];
      SameHolders(code[..count], syms, c, Controls());
      assert SelectBlocks(selects) == old(Sketch()).selects + [SelectBlock(false, false, false, opening)];
    }

    /** Jump from the end of a clause to the end of the SELECT, and let the failed tests land here. */
    method EndClause() returns (ok: bool)
      requires Valid() && |selects| > 0 && selects[|selects| - 1].pending >= 0
      modifies this`count, this`syms, this`selects, code
      ensures var k := |old(selects)| - 1;
              var p := Labels.NextClause(old(Sketch()));
              if !ok then p.None?
              else p.Some? && syms == p.value.code && Fits() && Woven(code[..count], syms, Controls()) &&
                   selects == old(selects)[k := old(selects)[k].(pending := -1, end := old(count))]
    {
      hide Woven, SingleOf, HeadOf, Waits, Chained, PartlyBound, Bind;
      var k := |selects| - 1;
      var block := selects[k];
      ghost var c := Controls();
      var end := count;
      SelectLabels(c, k);
      ok := EmitLink(Op(Jmp, 0, 0, -1, block.end), Jump(Hole(SelectEnd(k))), SelectEnd(k), c);
      if !ok { return; }
      selects := selects[k := block.(end := end)];
      ghost var c1 := Controls();
      assert c1 == WithHead(c, SelectEnd(k), end);
      ghost var before := syms;
      ghost var c2 := c1.(selects := selects[k := selects[k].(pending := -1)]);
      PendingClause(c1, k);
      PatchSlot(block.pending, count, CaseNext(k), c1, c2);
      AllBound(code[..count], before, syms, c2, CaseNext(k), count);
      selects := selects[k := selects[k].(pending := -1)];
    }

    /** Leave the clause before a new one, if there is one. */
    method TurnClause() returns (ok: bool)
      requires Valid() && |selects| > 0 && !selects[|selects| - 1].seenElse
      modifies this`count, this`syms, this`selects, code
      ensures var k := |old(selects)| - 1;
              var p := if old(selects)[k].seenCase then Labels.NextClause(old(Sketch())) else Some(old(Sketch()));
              if !ok then p.None?
              else p == Some(old(Sketch()).(code := syms)) && Fits() && Woven(code[..count], syms, Controls()) &&
                   |selects| == k + 1 &&
                   selects == old(selects)[k := old(selects)[k].(pending := -1, end := selects[k].end)]
    {
      hide Woven, Bind;
      ok := true;
      var k := |selects| - 1;
      if selects[k].seenCase { ok := EndClause(); } else { NoClausePending(code[..count], syms, Controls(), k); }
    }

    /** DUP, a literal, a comparison, and the jump taken when it fails. */
    method EmitCompare(
        value: Op, compare: OpCode, ghost l: Label, ghost c: Control, ghost e: Control) returns (ok: bool)
      requires Fits() && Woven(code[..count], syms, c) && (l == LowFail || l == HighFail)
      requires SingleOf(c, l) == -1 && SingleOf(e, l) == count + 3 && HeadOf(c, l) == HeadOf(e, l)
      requires forall m :: m != l ==> Holds(c, e, m)
      modifies this`count, this`syms, code
      ensures Fits() && ok == (old(count) + 4 <= MAX_OPS)
      ensures ok ==> count == old(count) + 4 && Woven(code[..count], syms, e) &&
                     syms == old(syms) + [Plain(Simple(Dup)), Plain(value), Plain(Simple(compare)), Unless(Hole(l))]
    {
      hide Woven, SingleOf, HeadOf;
      ghost var plain := PlainOps([Simple(Dup), value, Simple(compare)]);
      assert plain == [Plain(Simple(Dup)), Plain(value), Plain(Simple(compare))];
      ok := EmitAll([Simple(Dup), value, Simple(compare)], c);
      if !ok { return; }
      ok := EmitSingle(Op(Jz, 0, 0, -1, 0), Unless(Hole(l)), l, c, e);
      assert ok ==> syms == old(syms) + (plain + [Unless(Hole(l))]);
    }

    /** One list item. Its failures and its match are still open. */
    method EmitTest(item: Item, matches: int, ghost c: Control) returns (ok: bool, low: int, high: int, hit: int)
      requires Fits() && Woven(code[..count], syms, InCase(c, -1, -1, matches))
      modifies this`count, this`syms, code
      ensures ok == (old(count) + TestLength(item) <= MAX_OPS)
      ensures ok ==> Fits() && syms == old(syms) + OpenTest(item) && low >= 0 && (high >= 0 <==> item.Range?) &&
                     Woven(code[..count], syms, InCase(c, low, high, hit))
    {
      hide Woven, SingleOf, HeadOf, Waits, Chained, InCase;
      low, high, hit := count + 3, -1, -1;
      LowOpens(c, matches, low);
      ok := EmitCompare(if item.One? then item.value else item.low, if item.One? then CeqNum else CgeNum,
                        LowFail, InCase(c, -1, -1, matches), InCase(c, low, -1, matches));
      if !ok { return; }
      if item.Range? {
        high := count + 3;
        HighOpens(c, low, matches, high);
        ok := EmitCompare(item.high, CleNum, HighFail, InCase(c, low, -1, matches), InCase(c, low, high, matches));
        if !ok { return; }
      }
      MatchLinks(c, low, high, matches, count);
      hit := count;
      ok := EmitLink(Op(Jmp, 0, 0, -1, matches), Jump(Hole(Match)), Match, InCase(c, low, high, matches));
      assert ok ==> syms == old(syms) + OpenTest(item);
    }

    /** The list items in turn; a failure of any but the last goes on to the next. */
    method EmitTests(
        items: seq<Item>, ghost k: nat, ghost c: Control) returns (ok: bool, low: int, high: int, matches: int)
      requires items != [] && Fits() && Woven(code[..count], syms, InCase(c, -1, -1, -1))
      modifies this`count, this`syms, code
      ensures ok == (old(count) + TestsLength(items) <= MAX_OPS)
      ensures ok ==> Fits() && low >= 0 && count == old(count) + TestsLength(items) &&
                     Woven(code[..count], syms, InCase(c, low, high, matches)) &&
                     Bind(Bind(syms + [Jump(Hole(CaseNext(k)))], LowFail, count), HighFail, count)
                     == old(syms) + Tests(items, old(count), Hole(Match)) + [Jump(Hole(CaseNext(k)))]
    {
      hide Woven, InCase, Bind, Tests, TestsLength, OpenTest, Test;
      matches := -1;
      var i := 0;
      assert old(syms) + Tests(items[..0], old(count), Hole(Match)) == old(syms) &&
          TestsLength(items[..0]) == 0 by { NoTests(items, old(count)); }
      while true
        invariant 0 <= i < |items| && Fits() && Woven(code[..count], syms, InCase(c, -1, -1, matches))
        invariant syms == old(syms) + Tests(items[..i], old(count), Hole(Match))
        invariant count == old(count) + TestsLength(items[..i])
        decreases |items| - i
      {
        ghost var before := syms;
        NoFails(code[..count], syms, c, matches);
        ghost var base := count;
        TestsSnoc(items, old(count), Hole(Match), i);
        ok, low, high, matches := EmitTest(items[i], matches, c);
        if !ok { ShorterTests(items, i + 1); return; }
        Regroup(old(syms), Tests(items[..i], old(count), Hole(Match)), Test(items[i], base, Hole(Match)));
        if i + 1 == |items| {
          assert items[..|items|] == items;
          MissWaits(k);
          BindFails(before, items[i], base, [Jump(Hole(CaseNext(k)))]);
          return;
        }
        PatchFails(low, high, count, c, matches);
        BindFails(before, items[i], base, []);
        assert before + OpenTest(items[i]) + [] == before + OpenTest(items[i]);
        assert before + Test(items[i], base, Hole(Match)) + [] == before + Test(items[i], base, Hole(Match));
        i := i + 1;
      }
    }

    /** Send the failures of a list item to `pc`. */
    method PatchFails(low: int, high: int, pc: int, ghost c: Control, ghost matches: int)
      requires Fits() && Woven(code[..count], syms, InCase(c, low, high, matches)) && low >= 0
      modifies this`syms, code
      ensures Fits() && Woven(code[..count], syms, InCase(c, -1, -1, matches))
      ensures syms == Bind(Bind(old(syms), LowFail, pc), HighFail, pc)
    {
      hide Woven, SingleOf, HeadOf, Waits, Chained, InCase, PartlyBound, Bind;
      ghost var before := syms;
      FailsClose(c, low, high, matches);
      PatchSlot(low, pc, LowFail, InCase(c, low, high, matches), InCase(c, -1, high, matches));
      AllBound(code[..count], before, syms, InCase(c, -1, high, matches), LowFail, pc);
      ghost var mid := syms;
      HighHolds(code[..count], syms, c, high, matches);
      if high >= 0 {
        PatchSlot(high, pc, HighFail, InCase(c, -1, high, matches), InCase(c, -1, -1, matches));
      } else {
        SelfBound(syms, HighFail, pc);
      }
      AllBound(code[..count], mid, syms, InCase(c, -1, -1, matches), HighFail, pc);
    }

    method CompileCase(items: seq<Item>) returns (ok: bool)
      requires Valid()
      modifies this, code
      ensures ok ==> Valid() && Labels.CompileCase(old(Sketch()), items) == Some(Sketch()) && inline == old(inline)
      ensures !ok ==> Labels.CompileCase(old(Sketch()), items).None?
    {
      hide Woven, Bind, Tests, TestsLength, Labels.NextClause;
      if |selects| == 0 { return false; }
      var k := |selects| - 1;
      var block := selects[k];
      if Opening() != block.opening.(s := block.opening.s + 1) || block.seenElse || items == [] { return false; }
      ok := TurnClause();
      if !ok { return; }
      ok := EmitClause(k, items);
      if !ok { return; }
      assert SelectBlocks(selects)
          == Front(old(Sketch()).selects) + [Last(old(Sketch()).selects).(pending := true, seenCase := true)];
    }

    /** The tests, the jump past the clause, and the DROP every match lands on. */
    method EmitClause(k: nat, items: seq<Item>) returns (ok: bool)
      requires Fits() && |selects| == k + 1 && selects[k].pending == -1 && items != [] &&
          Woven(code[..count], syms, Controls())
      requires Match !in inline && LowFail !in inline && HighFail !in inline
      modifies this`count, this`syms, this`selects, code
      ensures ok == (old(count) + |Clause(items, old(count), Hole(CaseNext(k)))| <= MAX_OPS)
      ensures ok ==> Fits() && Woven(code[..count], syms, Controls()) && syms == old(syms) + Clause(items, old(count), Hole(CaseNext(k)))
      ensures ok ==> exists pc :: pc >= 0 && selects == old(selects)[k := old(selects)[k].(pending :=
          pc, seenCase := true)]
    {
      hide Woven, SingleOf, HeadOf, InCase, Bind, Tests, TestsLength, Clause, NoneWait;
      ghost var c, before := Controls(), syms;
      ClauseLength(items, count, Hole(CaseNext(k)));
      var miss, matches;
      ok, miss, matches := EmitChoice(items, k, c);
      if !ok { return; }
      ghost var e := c.(selects := selects[k := selects[k].(pending := miss)]);
      LandMatches(matches, e);
      MissWaits(k);
      MatchesBound(before, items, [Jump(Hole(CaseNext(k)))], miss + 1);
      ClauseRegroups(before, items, Hole(CaseNext(k)));
      PlainWaits(Simple(Drop));
      ok := EmitBound(Simple(Drop), Plain(Simple(Drop)), e);
      if !ok { return; }
      selects := selects[k := selects[k].(pending := miss, seenCase := true)];
      SameSelects(e, Controls());
      SameHolders(code[..count], syms, e, Controls());
    }

    /** The tests and the jump past the clause; every failure of the last test lands on that jump. */
    method EmitChoice(items: seq<Item>, ghost k: nat, ghost c: Control) returns (ok: bool, miss: int, matches: int)
      requires Fits() && k < |c.selects| && c.selects[k].pending == -1 && items != [] && Woven(code[..count], syms, c)
      requires Match !in c.inline && LowFail !in c.inline && HighFail !in c.inline
      modifies this`count, this`syms, code
      ensures ok == (old(count) + TestsLength(items) + 1 <= MAX_OPS)
      ensures ok ==> Fits() && miss == old(count) + TestsLength(items) && count == miss + 1 && NoneWait(old(syms), Match) &&
                     Woven(code[..count], syms, InCase(c.(selects := c.selects[k := c.selects[k].(pending :=
                         miss)]), -1, -1, matches)) &&
                     syms == old(syms) + Tests(items, old(count), Hole(Match)) + [Jump(Hole(CaseNext(k)))]
    {
      hide Woven, SingleOf, HeadOf, Waits, Chained, InCase, Bind, Tests, TestsLength, NoneWait;
      EnterCase(code[..count], syms, c);
      NoMatches(code[..count], syms, c);
      var low, high;
      miss := -1;
      ok, low, high, matches := EmitTests(items, k, c);
      if !ok { return; }
      miss := count;
      ghost var e := c.(selects := c.selects[k := c.selects[k].(pending := miss)]);
      MissOpens(c, k, low, high, matches, miss);
      ok := EmitSingle(Op(Jmp, 0, 0, -1, 0), Jump(Hole(CaseNext(k))), CaseNext(k), InCase(c, low, high, matches),
          InCase(e, low, high, matches));
      if !ok { return; }
      PatchFails(low, high, miss, e, matches);
    }

    /** Send every match of a CASE to the next slot. */
    method LandMatches(matches: int, ghost e: Control)
      requires Fits() && Woven(code[..count], syms, InCase(e, -1, -1, matches))
      requires Match !in e.inline && LowFail !in e.inline && HighFail !in e.inline
      modifies this`syms, code
      ensures Fits() && Woven(code[..count], syms, e) && syms == Bind(old(syms), Match, count)
    {
      hide Woven, SingleOf, HeadOf, InCase, PartlyBound, Bind;
      ghost var before := syms;
      MatchChain(e, matches);
      PatchJumps(matches, count, Match, InCase(e, -1, -1, matches));
      AllBound(code[..count], before, syms, WithHead(InCase(e, -1, -1, matches), Match, -1), Match, count);
      LeaveCase(code[..count], syms, e, matches);
    }

    method CompileCaseElse() returns (ok: bool)
      requires Valid()
      modifies this, code
      ensures ok ==> Valid() && Labels.CompileCaseElse(old(Sketch())) == Some(Sketch()) && inline == old(inline)
      ensures !ok ==> Labels.CompileCaseElse(old(Sketch())).None?
    {
      hide Woven, Waits, Bind, Labels.NextClause;
      if |selects| == 0 { return false; }
      var k := |selects| - 1;
      var block := selects[k];
      if Opening() != block.opening.(s := block.opening.s + 1) || block.seenElse { return false; }
      ok := TurnClause();
      if !ok { return; }
      ok := EmitElse(k);
      if !ok { return; }
      assert SelectBlocks(selects)
          == Front(old(Sketch()).selects) + [Last(old(Sketch()).selects).(pending := false, seenCase :=
              true, seenElse := true)];
    }

    /** The DROP that starts a CASE ELSE. */
    method EmitElse(k: nat) returns (ok: bool)
      requires Fits() && |selects| == k + 1 && Woven(code[..count], syms, Controls())
      modifies this`count, this`syms, this`selects, code
      ensures ok == (old(count) < MAX_OPS)
      ensures ok ==> Fits() && Woven(code[..count], syms, Controls()) && syms == old(syms) + [Plain(Simple(Drop))] &&
                     selects == old(selects)[k := old(selects)[k].(seenCase := true, seenElse := true)]
    {
      hide Woven, SingleOf, HeadOf, Waits;
      ghost var c := Controls();
      PlainWaits(Simple(Drop));
      ok := EmitBound(Simple(Drop), Plain(Simple(Drop)), c);
      if !ok { return; }
      selects := selects[k := selects[k].(seenCase := true, seenElse := true)];
      SameSelects(c, Controls());
      SameHolders(code[..count], syms, c, Controls());
    }

    method CompileEndSelect() returns (ok: bool)
      requires Valid()
      modifies this, code
      ensures ok ==> Valid() && Labels.CompileEndSelect(old(Sketch())) == Some(Sketch()) && inline == old(inline)
      ensures !ok ==> Labels.CompileEndSelect(old(Sketch())).None?
    {
      hide Woven, Bind, Labels.NextClause, Put;
      if |selects| == 0 { return false; }
      var k := |selects| - 1;
      var block := selects[k];
      if Opening() != block.opening.(s := block.opening.s + 1) || !block.seenCase { return false; }
      ok := DropSelector();
      if !ok { return; }
      CloseSelect(k);
      assert SelectBlocks(selects) == Front(old(Sketch()).selects);
    }

    /** Without a CASE ELSE, a selector no clause matched is dropped before END SELECT. */
    method DropSelector() returns (ok: bool)
      requires Valid() && |selects| > 0 && selects[|selects| - 1].seenCase
      modifies this`count, this`syms, this`selects, code
      ensures var k, d := |old(selects)| - 1, old(Sketch());
              var n := Labels.NextClause(d);
              var p := if old(selects)[k].seenElse then Some(d) else if n.None? then None
                  else Put(n.value, [Plain(Simple(Drop))]);
              if !ok then p.None?
              else p == Some(d.(code := syms)) && Fits() && Woven(code[..count], syms, Controls()) &&
                   |selects| == k + 1 &&
                   selects == old(selects)[k := old(selects)[k].(pending := -1, end := selects[k].end)]
    {
      hide Woven, Bind, Waits;
      ok := true;
      var k := |selects| - 1;
      if selects[k].seenElse {
        NoClausePending(code[..count], syms, Controls(), k);
      } else {
        ok := EndClause();
        if !ok { return; }
        PlainWaits(Simple(Drop));
        ok := EmitBound(Simple(Drop), Plain(Simple(Drop)), Controls());
      }
    }

    /** Fill in every jump to the end of the innermost SELECT and leave it. */
    method CloseSelect(k: nat)
      requires Fits() && |selects| == k + 1 && selects[k].pending == -1 && Woven(code[..count], syms, Controls())
      modifies this`syms, this`selects, code
      ensures Fits() && Woven(code[..count], syms, Controls()) && syms == Bind(old(syms), SelectEnd(k), count) &&
          selects == old(selects)[..k]
    {
      hide Woven, SingleOf, HeadOf, Waits, Chained, PartlyBound, Bind;
      ghost var c := Controls();
      ghost var before := syms;
      SelectLabels(c, k);
      PatchJumps(selects[k].end, count, SelectEnd(k), c);
      SelectClosed(c, k);
      AllBound(code[..count], before, syms, WithHead(c, SelectEnd(k), -1), SelectEnd(k), count);
      selects := selects[..k];
      assert Controls() == c.(selects := c.selects[..k]);
      SameHolders(code[..count], syms, WithHead(c, SelectEnd(k), -1), Controls());
    }

    // ---------- one-line IF ----------

    /** A slot remembered in a local variable while the rest of a one-line IF is compiled. */
    method EmitLocal(op: Op, ghost s: Sym, ghost l: Label) returns (ok: bool)
      requires Valid() && (l.InlineNo? || l.InlineEnd?) && l !in inline && Same(op, s) && (s == Jump(Hole(l)) ||
          s == Unless(Hole(l)))
      modifies this`count, this`syms, this`inline, code
      ensures ok == (old(count) < MAX_OPS)
      ensures ok ==> Valid() && count == old(count) + 1 && syms == old(syms) + [s] && inline == old(inline)[l := old(count)]
      ensures if ok then Put(old(Sketch()), [s]) == Some(Sketch()) else Put(old(Sketch()), [s]).None?
    {
      hide Woven, SingleOf, HeadOf, Waits, Chained, Same;
      InlineOpens(Controls(), l, count);
      ghost var pc := count;
      ok := EmitSingle(op, s, l, Controls(), Controls().(inline := inline[l := count]));
      if !ok { return; }
      inline := inline[l := pc];
    }

    /** Fill the remembered slot in with the next one. */
    method PatchLocal(i: int, ghost l: Label, ghost without: map<Label, int>)
      requires Valid() && (l.InlineNo? || l.InlineEnd?) && l !in without && inline == without[l := i] && i >= 0
      modifies this`syms, this`inline, code
      ensures Valid() && inline == without && Sketch() == Here(old(Sketch()), l)
    {
      hide Woven, SingleOf, HeadOf, Bind, PartlyBound;
      ghost var c := Controls();
      ghost var before := syms;
      InlineCloses(c, l, i, without);
      PatchSlot(i, count, l, c, c.(inline := without));
      AllBound(code[..count], before, syms, c.(inline := without), l, count);
      inline := without;
    }

    method CompileInline(cond: seq<Op>, yes: Statement, no: Option<Statement>, level: nat) returns (ok: bool)
      requires Valid() && forall m :: m >= level ==> InlineNo(m) !in inline && InlineEnd(m) !in inline
      requires !SelectNeedsCase(structured, Sketch(), InlineIf(cond, yes, no))
      modifies this, code
      ensures ok ==> Valid() && Labels.Compile(structured, old(Sketch()), InlineIf(cond, yes, no), level) == Some(Sketch()) && inline == old(inline)
      ensures !ok ==> Labels.Compile(structured, old(Sketch()), InlineIf(cond, yes, no), level).None?
      decreases InlineIf(cond, yes, no), 0
    {
      hide Valid, Put, Bind, Sketch, SelectNeedsCase;
      ghost var was := inline;
      var jz;
      ok, jz := EmitInlineTest(cond, level);
      if !ok { return; }
      ok := Compile(yes, level + 1);
      if !ok { return; }
      if no.None? {
        PatchLocal(jz, InlineNo(level), was);
      } else {
        ok := CompileInlineElse(jz, no.value, level, was);
      }
    }

    /** The test of a one-line IF. */
    method EmitInlineTest(cond: seq<Op>, level: nat) returns (ok: bool, jz: int)
      requires Valid() && InlineNo(level) !in inline
      modifies this, code
      ensures var p := Put(old(Sketch()), PlainOps(cond) + [Unless(Hole(InlineNo(level)))]);
              if ok then p == Some(Sketch()) && Valid() && inline == old(inline)[InlineNo(level) := jz] &&
                  jz >= 0 else p.None?
    {
      hide Valid, Sketch, Put;
      jz := -1;
      PutTwice(Sketch(), PlainOps(cond), [Unless(Hole(InlineNo(level)))]);
      ok := CompileStraight(cond);
      if !ok { return; }
      jz := count;
      ok := EmitLocal(Op(Jz, 0, 0, -1, 0), Unless(Hole(InlineNo(level))), InlineNo(level));
    }

    /** Jump over the ELSE part of a one-line IF, and let its failed test land there. */
    method InlineElseJump(jz: int, level: nat, ghost was: map<Label, int>) returns (ok: bool, end: int)
      requires Valid() && inline == was[InlineNo(level) := jz] && jz >= 0
      requires InlineNo(level) !in was && InlineEnd(level) !in was
      modifies this`count, this`syms, this`inline, code
      ensures var r := Put(old(Sketch()), [Jump(Hole(InlineEnd(level)))]);
              if ok then r.Some? && Valid() && Sketch() == Here(r.value, InlineNo(level)) && end >= 0 &&
                  inline == was[InlineEnd(level) := end]
              else r.None?
    {
      hide Valid, Put, Bind, Sketch, SingleOf, HeadOf;
      end := count;
      ok := EmitLocal(Op(Jmp, 0, 0, -1, 0), Jump(Hole(InlineEnd(level))), InlineEnd(level));
      if !ok { return; }
      assert inline == was[InlineEnd(level) := end][InlineNo(level) := jz];
      PatchLocal(jz, InlineNo(level), was[InlineEnd(level) := end]);
    }

    /** The ELSE part of a one-line IF whose test waits at `jz`. */
    method CompileInlineElse(jz: int, no: Statement, level: nat, ghost was: map<Label, int>) returns (ok: bool)
      requires Valid() && inline == was[InlineNo(level) := jz] && jz >= 0
      requires forall m :: m >= level ==> InlineNo(m) !in was && InlineEnd(m) !in was
      modifies this, code
      ensures var r := Put(old(Sketch()), [Jump(Hole(InlineEnd(level)))]);
              var s := if r.None? then None else Labels.Compile(structured, Here(r.value, InlineNo(level)), no,
                  level + 1);
              if ok then s.Some? && Valid() && Sketch() == Here(s.value, InlineEnd(level)) && inline == was else s.None?
      decreases no, 2
    {
      hide Valid, Put, Bind, Labels.Compile;
      var end;
      ok, end := InlineElseJump(jz, level, was);
      if !ok { return; }
      ok := Compile(no, level + 1);
      if !ok { return; }
      PatchLocal(end, InlineEnd(level), was);
    }

    // ---------- statements and rows ----------

    method CompileReturn(cond: seq<Op>) returns (ok: bool)
      requires Valid() && !SelectNeedsCase(structured, Sketch(), Return(cond))
      modifies this, code
      ensures ok ==> Valid() && Labels.Compile(structured, old(Sketch()), Return(cond), 0) == Some(Sketch()) && inline == old(inline)
      ensures !ok ==> Labels.Compile(structured, old(Sketch()), Return(cond), 0).None?
    {
      hide Woven;
      if structured && entry.None? { return false; }
      var ops := if structured then cond + [Simple(ReturnUser)] else [Simple(RetSub)];
      assert PlainOps([Simple(RetSub)]) == [Plain(Simple(RetSub))];
      ok := EmitAll(ops, Controls());
      if !ok { return; }
      returned := true;
    }

    method CompileStraight(ops: seq<Op>) returns (ok: bool)
      requires Valid()
      modifies this, code
      ensures ok ==> Valid() && Put(old(Sketch()), PlainOps(ops)) == Some(Sketch()) && inline == old(inline) && count == |syms|
      ensures !ok ==> Put(old(Sketch()), PlainOps(ops)).None?
    {
      hide Woven;
      ok := EmitAll(ops, Controls());
    }

    method Compile(t: Statement, level: nat) returns (ok: bool)
      requires Valid() && forall m :: m >= level ==> InlineNo(m) !in inline && InlineEnd(m) !in inline
      modifies this, code
      ensures ok ==> Valid() && Labels.Compile(structured, old(Sketch()), t, level) == Some(Sketch()) && inline == old(inline)
      ensures !ok ==> Labels.Compile(structured, old(Sketch()), t, level).None?
      decreases t, 1
    {
      hide Valid, Sketch, Put, Labels.CompileIf, Labels.CompileElse, Labels.CompileEndIf, Labels.CompileFor,
          Labels.CompileNext,
        Labels.CompileWhile, Labels.CompileWend, Labels.CompileDo, Labels.CompileLoop, Labels.CompileExit,
            Labels.CompileSelect,
        Labels.CompileCase, Labels.CompileCaseElse, Labels.CompileEndSelect, SelectNeedsCase;
      if NeedsCase(t) { return false; }
      match t {
        case Straight(ops) => ok := CompileStraight(ops);
        case Goto(line) => ok := CompileLineJump(Op(Jmp, 0, 0, line, 1));
        case Gosub(line) => ok := CompileLineJump(Op(OpCode.Gosub, 0, 0, line, 1));
        case InlineIf(cond, yes, no) => ok := CompileInline(cond, yes, no, level);
        case If(cond) => if structured { ok := CompileIf(cond); } else { ok := false; }
        case ElseIf(cond) => if structured { ok := CompileElseIf(cond); } else { ok := false; }
        case Else => if structured { ok := CompileElse(); } else { ok := false; }
        case EndIf => if structured { ok := CompileEndIf(); } else { ok := false; }
        case For(slot, start, limit, step) => ok := CompileFor(slot, start, limit, step);
        case Next(slot) => ok := CompileNext(slot);
        case While(cond) => ok := CompileWhile(cond);
        case Wend => ok := CompileWend();
        case Do(test) => ok := CompileDo(test);
        case Loop(test) => ok := CompileLoop(test);
        case ExitFor => ok := CompileExit(false);
        case ExitDo => ok := CompileExit(true);
        case Select(cond) => if structured { ok := CompileSelect(cond); } else { ok := false; }
        case Case(items) => if structured { ok := CompileCase(items); } else { ok := false; }
        case CaseElse => if structured { ok := CompileCaseElse(); } else { ok := false; }
        case EndSelect => if structured { ok := CompileEndSelect(); } else { ok := false; }
        case Return(cond) => ok := CompileReturn(cond);
      }
    }

    /** Nothing but CASE or END SELECT may follow SELECT CASE. */
    function NeedsCase(t: Statement): (needs: bool)
      reads this
      ensures needs == SelectNeedsCase(structured, Sketch(), t)
    {
      structured && |selects| > 0 && !selects[|selects| - 1].seenCase && !t.Case? && !t.CaseElse? && !t.EndSelect?
    }

    method CompileLineJump(op: Op) returns (ok: bool)
      requires Valid()
      modifies this, code
      ensures var p := if structured then None else Put(old(Sketch()), [Plain(op)]);
              if ok then p == Some(Sketch()) && Valid() && inline == old(inline) else p.None?
    {
      hide Woven;
      if structured { return false; }
      PlainWaits(op);
      ok := EmitBound(op, Plain(op), Controls());
    }

    method OpenFunction() returns (ok: bool)
      requires Valid() && inline == map[]
      modifies this, code
      ensures ok ==> Valid() && Labels.CompileRow(structured, old(Sketch()), Function) == Some(Sketch()) && inline == map[]
      ensures !ok ==> Labels.CompileRow(structured, old(Sketch()), Function).None?
    {
      hide Woven, SingleOf, HeadOf;
      if !structured || entry.Some? || Opening() != Depths(0, 0, 0, 0, 0) { return false; }
      FunctionOpens(Controls(), count);
      ok := EmitSingle(Op(Jmp, 0, 0, -1, 0), Jump(Hole(FunctionEnd)), FunctionEnd, Controls(),
          Controls().(entry := Some(count + 1)));
      if !ok { return; }
      entry, returned := Some(count), false;
    }

    method CloseFunction() returns (ok: bool)
      requires Valid() && inline == map[]
      modifies this, code
      ensures ok ==> Valid() && Labels.CompileRow(structured, old(Sketch()), EndFunction) == Some(Sketch()) && inline == map[]
      ensures !ok ==> Labels.CompileRow(structured, old(Sketch()), EndFunction).None?
    {
      hide Woven, SingleOf, HeadOf, PartlyBound, Bind;
      if entry.None? || Opening() != Depths(0, 0, 0, 0, 0) || !returned { return false; }
      PlainWaits(Simple(FunctionFallthrough));
      ok := EmitBound(Simple(FunctionFallthrough), Plain(Simple(FunctionFallthrough)), Controls());
      if !ok { return; }
      ghost var c, before := Controls(), syms;
      EntryKnown(code[..count], syms, c);
      PatchSlot(entry.value - 1, count, FunctionEnd, c, c.(entry := None));
      AllBound(code[..count], before, syms, c.(entry := None), FunctionEnd, count);
      functions := functions + [Span(entry.value, count)];
      entry := None;
    }

    method CompileRow(row: Row) returns (ok: bool)
      requires Valid() && inline == map[]
      modifies this, code
      ensures ok ==> Valid() && Labels.CompileRow(structured, old(Sketch()), row) == Some(Sketch()) && inline == map[]
      ensures !ok ==> Labels.CompileRow(structured, old(Sketch()), row).None?
    {
      hide Woven, Labels.Compile;
      match row {
        case Numbered(line) =>
          if structured { return false; }
          lines := lines + [(line, count)];
          ok := true;
        case Of(t) => ok := Compile(t, 0);
        case Function => ok := OpenFunction();
        case EndFunction => ok := CloseFunction();
      }
    }

    method CompileRows(rows: seq<Row>) returns (ok: bool)
      requires Valid() && Sketch() == EMPTY && inline == map[]
      modifies this, code
      ensures ok ==> Valid() && Labels.CompileRows(structured, EMPTY, rows) == Some(Sketch())
      ensures !ok ==> Labels.CompileRows(structured, EMPTY, rows).None?
    {
      hide Valid, Sketch, Labels.CompileRow;
      var i := 0;
      assert rows[0..] == rows;
      while i < |rows|
        invariant 0 <= i <= |rows| && Valid() && inline == map[]
        invariant Labels.CompileRows(structured, Sketch(), rows[i..]) == Labels.CompileRows(structured, EMPTY, rows)
      {
        assert rows[i..][0] == rows[i] && rows[i..][1..] == rows[i + 1..];
        ok := CompileRow(rows[i]);
        if !ok { return; }
        i := i + 1;
      }
      assert rows[i..] == [];
      ok := true;
    }

    /** Every block must be closed; a HALT is added unless one is already last. */
    method Close() returns (ok: bool)
      requires Valid()
      modifies this`count, this`syms, code
      ensures ok ==> Valid() && Finish(old(Sketch())) == Some(syms)
      ensures !ok ==> Finish(old(Sketch())).None?
    {
      hide Woven, Same;
      if Opening() != Depths(0, 0, 0, 0, 0) || entry.Some? { return false; }
      if count > 0 {
        LastOp(code[..count], syms, Controls());
        assert code[count - 1] == code[..count][count - 1];
      }
      if count == 0 || code[count - 1].code != Halt {
        PlainWaits(Simple(Halt));
        ok := EmitBound(Simple(Halt), Plain(Simple(Halt)), Controls());
      } else {
        ok := true;
      }
    }

    /** Replace line numbers by the slots their lines start at. */
    method ResolveLines() returns (ok: bool)
      requires Fits()
      modifies code
      ensures ok ==> code[..count] == Linked(lines, old(code[..count]))
      ensures ok <==> forall i :: 0 <= i < count ==> IsLineRef(old(code[..count])[i]) ==>
          LinePc(lines, old(code[..count])[i].a) >= 0
    {
      ghost var was := code[..count];
      for i := 0 to count
        invariant count <= code.Length && forall j :: 0 <= j < i ==> code[j] == LinkedOp(lines, was[j])
        invariant forall j :: i <= j < count ==> code[j] == was[j]
        invariant forall j :: 0 <= j < i ==> IsLineRef(was[j]) ==> LinePc(lines, was[j].a) >= 0
      {
        if IsLineRef(code[i]) {
          var pc := FindLine(code[i].a);
          if pc < 0 { return false; }
          code[i] := code[i].(a := pc, b := 0);
        }
      }
      ok := true;
    }

    method FindLine(line: int) returns (pc: int)
      ensures pc == LinePc(lines, line)
    {
      for i := 0 to |lines|
        invariant LinePc(lines[i..], line) == LinePc(lines, line)
      {
        assert lines[i..][0] == lines[i] && lines[i..][1..] == lines[i + 1..];
        if lines[i].0 == line { return lines[i].1; }
      }
      return -1;
    }

    /** The whole compilation: success leaves exactly the linked symbolic program in the array, with
        no link of any chain left over or taken for a line number. */
    method CompileSource(rows: seq<Row>) returns (ok: bool)
      requires Valid() && Sketch() == EMPTY && inline == map[] && forall k :: 0 <= k < |rows| ==> RowSound(rows[k])
      modifies this, code
      ensures var d := Labels.CompileRows(structured, EMPTY, rows);
              var p := if d.None? then None else Finish(d.value);
              ok <==> p.Some? && LinesKnown(d.value.lines, p.value)
      ensures ok ==> var d := Labels.CompileRows(structured, EMPTY, rows).value;
                     count <= code.Length && code[..count] == LinkedProgram(d.lines, Finish(d).value) &&
                     forall i :: 0 <= i < count ==> LandsAt(d.functions, |d.code|, i, code[..count][i])
    {
      hide Woven, Labels.CompileRow, Labels.CompileRows, Finish, Same, LandsAt, LinePc, Targets.TargetOf;
      ok := CompileRows(rows);
      if !ok { return; }
      ghost var d := Sketch();
      ok := Close();
      if !ok { return; }
      Targets.EveryJumpIsResolved(structured, rows);
      ghost var was := code[..count];
      NoHoles(was, syms, Controls(), d.lines);
      ok := ResolveLines();
      if ok { EveryTargetLands(structured, rows); }
    }
  }

  // ---------- linking ----------

  predicate IsLineRef(op: Op) { (op.code == Jmp || op.code == OpCode.Gosub) && op.b == 1 }

  /** Where the first line with this number starts; -1 when there is none. */
  function LinePc(lines: seq<(int, int)>, line: int): int {
    if lines == [] then -1 else if lines[0].0 == line then lines[0].1 else LinePc(lines[1..], line)
  }

  function LinkedOp(lines: seq<(int, int)>, op: Op): Op {
    if IsLineRef(op) then op.(a := LinePc(lines, op.a), b := 0) else op
  }

  function Linked(lines: seq<(int, int)>, ops: seq<Op>): (r: seq<Op>)
    ensures |r| == |ops| && forall i :: 0 <= i < |ops| ==> r[i] == LinkedOp(lines, ops[i])
  {
    seq(|ops|, i requires 0 <= i < |ops| => LinkedOp(lines, ops[i]))
  }

  /** The operation a symbol with a bound target stands for; only a plain one can name a line. */
  function LinkedSym(lines: seq<(int, int)>, s: Sym): Op { LinkedOp(lines, Lower(s)) }

  function LinkedProgram(lines: seq<(int, int)>, code: seq<Sym>): (r: seq<Op>)
    ensures |r| == |code| && forall i :: 0 <= i < |code| ==> r[i] == LinkedSym(lines, code[i])
  {
    seq(|code|, i requires 0 <= i < |code| => LinkedSym(lines, code[i]))
  }

  predicate LineKnown(lines: seq<(int, int)>, s: Sym) {
    s.Plain? && IsLineRef(s.op) ==> LinePc(lines, s.op.a) >= 0
  }

  predicate LinesKnown(
      lines: seq<(int, int)>, code: seq<Sym>) { forall i :: 0 <= i < |code| ==> LineKnown(lines, code[i]) }

  /** Where an operation may send control, as the compiler emits it. */
  function TargetOfOp(op: Op): Option<int> {
    match op.code
    case Jmp | Jz | Gosub | ExitLoop => Some(op.a)
    case ForCheck => Some(op.b)
    case _ => None
  }

  predicate LandsAt(functions: seq<Span>, n: int, i: int, op: Op) {
    TargetOfOp(op).Some? ==> Targets.Lands(functions, n, i, TargetOfOp(op).value)
  }

  lemma {:induction false} LinePcBounded(lines: seq<(int, int)>, line: int, n: int)
    requires n >= 0 && forall k :: 0 <= k < |lines| ==> 0 <= lines[k].1 <= n
    ensures LinePc(lines, line) <= n && (lines == [] ==> LinePc(lines, line) == -1)
  {
    if lines != [] { LinePcBounded(lines[1..], line, n); }
  }

  lemma {:induction false} LinkedLands(d: Draft, structured: bool, i: nat, s: Sym)
    requires Targets.LinesIn(structured, d) && LineKnown(d.lines, s) && Targets.Resolved(d.functions, |d.code|, i, s)
    requires Targets.SymOk(d, {}, i, s)
    ensures LandsAt(d.functions, |d.code|, i, LinkedSym(d.lines, s))
  {
    hide Targets.Region, Targets.TargetOk;
    if s.Plain? && IsLineRef(s.op) { LinePcBounded(d.lines, s.op.a, |d.code|); }
  }

  /** In the finished array every jump, FOR test and line reference leads to a slot in 0..code_count
      and in its own function. */
  lemma {:induction false} EveryTargetLands(structured: bool, rows: seq<Row>)
    requires forall k :: 0 <= k < |rows| ==> RowSound(rows[k])
    requires var d := Labels.CompileRows(structured, EMPTY, rows); d.Some? && Finish(d.value).Some?
    requires var d := Labels.CompileRows(structured, EMPTY, rows).value; LinesKnown(d.lines, Finish(d).value)
    ensures var d := Labels.CompileRows(structured, EMPTY, rows).value;
            var ops := LinkedProgram(d.lines, Finish(d).value);
            forall i :: 0 <= i < |ops| ==> LandsAt(d.functions, |d.code|, i, ops[i])
  {
    hide Labels.CompileRow, Targets.SymOk, Targets.Resolved, LandsAt, LinkedSym, Targets.LinesIn, LineKnown;
    var d := Labels.CompileRows(structured, EMPTY, rows).value;
    var code := Finish(d).value;
    Targets.EveryJumpIsResolved(structured, rows);
    Targets.RowsKeep(structured, EMPTY, rows);
    assert Targets.LinesIn(structured, EMPTY) by { NoLinesYet(structured); }
    Targets.RowsLines(structured, EMPTY, rows);
    forall i | 0 <= i < |code| ensures LandsAt(d.functions, |d.code|, i, LinkedSym(d.lines, code[i])) {
      assert LineKnown(d.lines, code[i]);
      if i < |d.code| {
        assert code[i] == d.code[i] && Targets.SymOk(d, {}, i, d.code[i]);
        LinkedLands(d, structured, i, code[i]);
      } else {
        HaltLands(d, i);
      }
    }
  }

  lemma {:induction false} NoLinesYet(structured: bool)
    ensures Targets.LinesIn(structured, EMPTY)
  {}

  lemma {:induction false} HaltLands(d: Draft, i: nat)
    ensures LandsAt(d.functions, |d.code|, i, LinkedSym(d.lines, Plain(Simple(Halt))))
  {}

  lemma {:induction false} NoHoles(ops: seq<Op>, syms: seq<Sym>, c: Control, lines: seq<(int, int)>)
    requires Woven(ops, syms, c) && forall i {:trigger syms[i]} :: 0 <= i < |syms| ==>
        var t := Targets.TargetOf(syms[i]); t.Some? ==> t.value.At?
    ensures Linked(lines, ops) == LinkedProgram(lines, syms)
    ensures (forall i :: 0 <= i < |ops| ==> IsLineRef(ops[i]) ==> LinePc(lines, ops[i].a) >= 0) <==>
        LinesKnown(lines, syms)
  {
    hide LinePc, Same, LinkedOp, LinkedSym, IsLineRef, Threads, LineKnown;
    forall i | 0 <= i < |ops|
      ensures LinkedOp(lines, ops[i]) == LinkedSym(lines, syms[i])
      ensures (IsLineRef(ops[i]) ==> LinePc(lines, ops[i].a) >= 0) <==> LineKnown(lines, syms[i])
    {
      assert Same(ops[i], syms[i]);
      BoundLinks(lines, ops[i], syms[i]);
    }
  }

  lemma {:induction false} BoundLinks(lines: seq<(int, int)>, op: Op, s: Sym)
    requires Same(op, s) && (Targets.TargetOf(s).Some? ==> Targets.TargetOf(s).value.At?)
    ensures LinkedOp(lines, op) == LinkedSym(lines, s)
    ensures (IsLineRef(op) ==> LinePc(lines, op.a) >= 0) <==> LineKnown(lines, s)
  {}

  lemma {:induction false} LastOp(ops: seq<Op>, syms: seq<Sym>, c: Control)
    requires Woven(ops, syms, c) && |ops| > 0
    ensures ops[|ops| - 1].code == Halt <==> EndsInHalt(syms)
  {
    assert Same(ops[|ops| - 1], syms[|syms| - 1]);
  }

  lemma {:induction false} FunctionOpens(c: Control, pc: int)
    requires c.entry.None?
    ensures var l := FunctionEnd;
            var e := c.(entry := Some(pc + 1));
            SingleOf(c, l) == -1 && SingleOf(e, l) == pc && HeadOf(c, l) == HeadOf(e, l) &&
                (forall m :: m != l ==> Holds(c, e, m)) &&
            Waits(Jump(Hole(l)), l) && !Chained(Jump(Hole(l)), l)
  {}

  lemma {:induction false} EntryKnown(ops: seq<Op>, syms: seq<Sym>, c: Control)
    requires Woven(ops, syms, c) && c.entry.Some?
    ensures var l := FunctionEnd;
            var e := c.(entry := None);
            SingleOf(c, l) == c.entry.value - 1 >= -1 && SingleOf(e, l) == -1 && HeadOf(c, l) == HeadOf(e, l) == -1 &&
            forall m :: m != l ==> Holds(c, e, m)
  {
    assert Threads(ops, syms, c, FunctionEnd);
  }

  lemma {:induction false} InlineOpens(c: Control, l: Label, pc: int)
    requires (l.InlineNo? || l.InlineEnd?) && l !in c.inline
    ensures var e := c.(inline := c.inline[l := pc]);
            SingleOf(c, l) == -1 && SingleOf(e, l) == pc && HeadOf(c, l) == HeadOf(e, l) &&
                (forall m :: m != l ==> Holds(c, e, m)) &&
            Waits(Jump(Hole(l)), l) && !Chained(Jump(Hole(l)), l) && Waits(Unless(Hole(l)), l) &&
                !Chained(Unless(Hole(l)), l)
  {}

  lemma {:induction false} InlineCloses(c: Control, l: Label, i: int, without: map<Label, int>)
    requires (l.InlineNo? || l.InlineEnd?) && l !in without && c.inline == without[l := i]
    ensures var e := c.(inline := without);
            SingleOf(c, l) == i && SingleOf(e, l) == -1 && HeadOf(c, l) == HeadOf(e, l) == -1 && !ThroughB(l) &&
            forall m :: m != l ==> Holds(c, e, m)
  {}

  // ---------- within one CASE ----------

  /** The stacks while a list item is being compiled. */
  function InCase(c: Control, low: int, high: int, matches: int): Control {
    c.(inline := c.inline[LowFail := low][HighFail := high][Match := matches])
  }

  function OpenTest(item: Item): (r: seq<Sym>)
    ensures |r| == TestLength(item)
  {
    match item
    case One(v) =>
      [Plain(Simple(Dup)), Plain(v), Plain(Simple(CeqNum)), Unless(Hole(LowFail)), Jump(Hole(Match))]
    case Range(low, high) =>
      [Plain(Simple(Dup)), Plain(low), Plain(Simple(CgeNum)), Unless(Hole(LowFail))] +
      [Plain(Simple(Dup)), Plain(high), Plain(Simple(CleNum)), Unless(Hole(HighFail)), Jump(Hole(Match))]
  }

  lemma {:induction false} LowOpens(c: Control, matches: int, pc: int)
    ensures var d, e := InCase(c, -1, -1, matches), InCase(c, pc, -1, matches);
            SingleOf(d, LowFail) == -1 && SingleOf(e, LowFail) == pc && HeadOf(d, LowFail) == HeadOf(e, LowFail) &&
            forall m :: m != LowFail ==> Holds(d, e, m)
  {}

  lemma {:induction false} HighOpens(c: Control, low: int, matches: int, pc: int)
    ensures var d, e := InCase(c, low, -1, matches), InCase(c, low, pc, matches);
            SingleOf(d, HighFail) == -1 && SingleOf(e, HighFail) == pc && HeadOf(d, HighFail) == HeadOf(e, HighFail) &&
            forall m :: m != HighFail ==> Holds(d, e, m)
  {}

  lemma {:induction false} MatchLinks(c: Control, low: int, high: int, matches: int, pc: int)
    ensures var d := InCase(c, low, high, matches);
            HasChain(d, Match) && HeadOf(d, Match) == matches && WithHead(d, Match, pc) == InCase(c, low, high, pc) &&
            Chained(Jump(Hole(Match)), Match)
  {}

  lemma {:induction false} FailsClose(c: Control, low: int, high: int, matches: int)
    ensures var d, e := InCase(c, low, high, matches), InCase(c, -1, high, matches);
            SingleOf(d, LowFail) == low && SingleOf(e, LowFail) == -1 &&
                HeadOf(d, LowFail) == HeadOf(e, LowFail) == -1 &&
            forall m :: m != LowFail ==> Holds(d, e, m)
  {}

  lemma {:induction false} HighHolds(ops: seq<Op>, syms: seq<Sym>, c: Control, high: int, matches: int)
    requires Woven(ops, syms, InCase(c, -1, high, matches))
    ensures var d, e := InCase(c, -1, high, matches), InCase(c, -1, -1, matches);
            SingleOf(d, HighFail) == high && SingleOf(e, HighFail) == -1 &&
                HeadOf(d, HighFail) == HeadOf(e, HighFail) == -1 &&
            (forall m :: m != HighFail ==> Holds(d, e, m)) && (high < 0 ==> d == e)
  {
    assert Threads(ops, syms, InCase(c, -1, high, matches), HighFail);
  }

  lemma {:induction false} EnterCase(ops: seq<Op>, syms: seq<Sym>, c: Control)
    requires Woven(ops, syms, c) && Match !in c.inline && LowFail !in c.inline && HighFail !in c.inline
    ensures Woven(ops, syms, InCase(c, -1, -1, -1))
  {
    SameHolders(ops, syms, c, InCase(c, -1, -1, -1));
  }

  lemma {:induction false} MissOpens(c: Control, k: nat, low: int, high: int, matches: int, pc: int)
    requires k < |c.selects| && c.selects[k].pending == -1
    ensures var l := CaseNext(k);
            var d := InCase(c, low, high, matches);
            var e := InCase(c.(selects := c.selects[k := c.selects[k].(pending := pc)]), low, high, matches);
            SingleOf(d, l) == -1 && SingleOf(e, l) == pc && HeadOf(d, l) == HeadOf(e, l) &&
                (forall m :: m != l ==> Holds(d, e, m)) &&
            Waits(Jump(Hole(l)), l) && !Chained(Jump(Hole(l)), l)
  {}

  lemma {:induction false} MatchChain(c: Control, matches: int)
    ensures var d := InCase(c, -1, -1, matches);
            HasChain(d, Match) && HeadOf(d, Match) == matches && ThroughB(Match) &&
            SingleOf(WithHead(d, Match, -1), Match) == -1 && HeadOf(WithHead(d, Match, -1), Match) == -1
  {}

  lemma {:induction false} LeaveCase(ops: seq<Op>, syms: seq<Sym>, c: Control, matches: int)
    requires Woven(ops, syms, WithHead(InCase(c, -1, -1, matches), Match, -1))
    requires Match !in c.inline && LowFail !in c.inline && HighFail !in c.inline
    ensures Woven(ops, syms, c)
  {
    SameHolders(ops, syms, WithHead(InCase(c, -1, -1, matches), Match, -1), c);
  }

  ghost predicate NoneWait(syms: seq<Sym>, l: Label) { forall i :: 0 <= i < |syms| ==> !Waits(syms[i], l) }

  lemma {:induction false} NoneWaits(ops: seq<Op>, syms: seq<Sym>, c: Control, l: Label)
    requires Woven(ops, syms, c) && SingleOf(c, l) == -1 && HeadOf(c, l) == -1
    ensures NoneWait(syms, l)
  {
    assert Threads(ops, syms, c, l);
  }

  lemma {:induction false} NoFails(ops: seq<Op>, syms: seq<Sym>, c: Control, matches: int)
    requires Woven(ops, syms, InCase(c, -1, -1, matches))
    ensures NoneWait(syms, LowFail) && NoneWait(syms, HighFail)
  {
    NoneWaits(ops, syms, InCase(c, -1, -1, matches), LowFail);
    NoneWaits(ops, syms, InCase(c, -1, -1, matches), HighFail);
  }

  lemma {:induction false} NoMatches(ops: seq<Op>, syms: seq<Sym>, c: Control)
    requires Woven(ops, syms, InCase(c, -1, -1, -1))
    ensures NoneWait(syms, Match)
  {
    NoneWaits(ops, syms, InCase(c, -1, -1, -1), Match);
  }

  lemma {:induction false} BindNone(syms: seq<Sym>, l: Label, pc: int)
    requires NoneWait(syms, l)
    ensures Bind(syms, l, pc) == syms
  {
    hide BindSym, Waits;
    forall i | 0 <= i < |syms| ensures BindSym(syms[i], l, pc) == syms[i] { Unbound(syms[i], l, pc); }
  }

  lemma {:induction false} BindTest(item: Item, base: int)
    ensures var pc := base + TestLength(item);
            Bind(Bind(OpenTest(item), LowFail, pc), HighFail, pc) == Test(item, base, Hole(Match))
  {}

  lemma {:induction false} BindFails(before: seq<Sym>, item: Item, base: int, after: seq<Sym>)
    requires NoneWait(before, LowFail) && NoneWait(before, HighFail) && NoneWait(after, LowFail) &&
        NoneWait(after, HighFail)
    ensures var pc := base + TestLength(item);
            Bind(Bind(before + OpenTest(item) + after, LowFail, pc), HighFail, pc) == before + Test(item, base,
                Hole(Match)) + after
  {
    hide Bind, OpenTest, Test, NoneWait;
    var pc := base + TestLength(item);
    BindTest(item, base);
    BindConcat(before + OpenTest(item), after, LowFail, pc);
    BindConcat(before, OpenTest(item), LowFail, pc);
    BindNone(before, LowFail, pc);
    BindNone(after, LowFail, pc);
    BindConcat(before + Bind(OpenTest(item), LowFail, pc), after, HighFail, pc);
    BindConcat(before, Bind(OpenTest(item), LowFail, pc), HighFail, pc);
    BindNone(before, HighFail, pc);
    BindNone(after, HighFail, pc);
  }

  lemma {:induction false} BindMatchTest(item: Item, base: int, pc: int)
    ensures Bind(Test(item, base, Hole(Match)), Match, pc) == Test(item, base, At(pc))
  {}

  lemma {:induction false} BindMatches(items: seq<Item>, base: int, pc: int)
    ensures Bind(Tests(items, base, Hole(Match)), Match, pc) == Tests(items, base, At(pc))
    decreases |items|
  {
    hide Bind, Test;
    if items == [] {
      BindNone([], Match, pc);
    } else {
      BindMatches(items[1..], base + TestLength(items[0]), pc);
      BindMatchTest(items[0], base, pc);
      BindConcat(Test(items[0], base, Hole(Match)), Tests(items[1..], base + TestLength(items[0]), Hole(Match)),
          Match, pc);
    }
  }

  lemma {:induction false} TestsConcat(a: seq<Item>, b: seq<Item>, base: int, hit: Target)
    ensures TestsLength(a + b) == TestsLength(a) + TestsLength(b)
    ensures Tests(a + b, base, hit) == Tests(a, base, hit) + Tests(b, base + TestsLength(a), hit)
    decreases |a|
  {
    hide Test, TestLength;
    if a == [] {
      assert a + b == b;
    } else {
      assert (a + b)[0] == a[0] && (a + b)[1..] == a[1..] + b;
      TestsConcat(a[1..], b, base + TestLength(a[0]), hit);
      assert base + TestLength(a[0]) + TestsLength(a[1..]) == base + TestsLength(a);
    }
  }

  lemma {:induction false} OneTest(item: Item, base: int, hit: Target)
    ensures TestsLength([item]) == TestLength(item) && Tests([item], base, hit) == Test(item, base, hit)
  {
    hide Test, TestLength;
    assert [item][1..] == [];
    assert Tests([], base + TestLength(item), hit) == [] && TestsLength([]) == 0;
  }

  lemma {:induction false} NoTests(items: seq<Item>, base: int)
    ensures TestsLength(items[..0]) == 0 && Tests(items[..0], base, Hole(Match)) == []
  {}

  lemma {:induction false} TestsSnoc(items: seq<Item>, base: int, hit: Target, i: nat)
    requires i < |items|
    ensures TestsLength(items[..i + 1]) == TestsLength(items[..i]) + TestLength(items[i])
    ensures Tests(items[..i + 1], base, hit) == Tests(items[..i], base, hit) + Test(items[i], base
        + TestsLength(items[..i]), hit)
  {
    hide Tests, TestsLength, Test, TestLength;
    assert items[..i + 1] == items[..i] + [items[i]];
    TestsConcat(items[..i], [items[i]], base, hit);
    OneTest(items[i], base + TestsLength(items[..i]), hit);
  }

  lemma {:induction false} ShorterTests(items: seq<Item>, i: nat)
    requires i <= |items|
    ensures TestsLength(items[..i]) <= TestsLength(items)
  {
    hide TestLength;
    TestsConcat(items[..i], items[i..], 0, Hole(Match));
    assert items[..i] + items[i..] == items;
  }

  lemma {:induction false} ClauseLength(items: seq<Item>, base: int, miss: Target)
    ensures |Clause(items, base, miss)| == TestsLength(items) + 2
  {}

  lemma {:induction false} Regroup(a: seq<Sym>, b: seq<Sym>, c: seq<Sym>)
    ensures a + b + c == a + (b + c)
  {}

  lemma {:induction false} MatchesBound(before: seq<Sym>, items: seq<Item>, last: seq<Sym>, pc: int)
    requires NoneWait(before, Match) && NoneWait(last, Match)
    ensures Bind(before + Tests(items, |before|, Hole(Match)) + last, Match, pc) == before + Tests(items, |before|,
        At(pc)) + last
  {
    hide Bind, Tests, NoneWait;
    BindMatches(items, |before|, pc);
    BindConcat(before + Tests(items, |before|, Hole(Match)), last, Match, pc);
    BindConcat(before, Tests(items, |before|, Hole(Match)), Match, pc);
    BindNone(before, Match, pc);
    BindNone(last, Match, pc);
  }

  lemma {:induction false} ClauseRegroups(before: seq<Sym>, items: seq<Item>, miss: Target)
    ensures var tests := Tests(items, |before|, At(|before| + TestsLength(items) + 1));
            before + tests + [Jump(miss)] + [Plain(Simple(Drop))] == before + Clause(items, |before|, miss)
  {
    hide Tests, TestsLength;
  }

  lemma {:induction false} MissWaits(k: nat)
    ensures var last := [Jump(Hole(CaseNext(k)))]; NoneWait(last, LowFail) && NoneWait(last, HighFail) && NoneWait(last, Match)
  {}

  // ---------- how the stacks change ----------

  lemma {:induction false} NewSelect(c: Control, opening: Depths)
    ensures var e := c.(selects := c.selects + [SelectEntry(-1, -1, false, false, opening)]); forall m :: Holds(c, e, m)
  {}

  lemma {:induction false} SelectLabels(c: Control, k: nat)
    requires k < |c.selects|
    ensures HasChain(c, SelectEnd(k)) && HeadOf(c, SelectEnd(k)) == c.selects[k].end && SingleOf(c, SelectEnd(k)) == -1
    ensures Chained(Jump(Hole(SelectEnd(k))), SelectEnd(k))
  {}

  lemma {:induction false} PendingClause(c: Control, k: nat)
    requires k < |c.selects|
    ensures var l := CaseNext(k);
            var e := c.(selects := c.selects[k := c.selects[k].(pending := -1)]);
            SingleOf(c, l) == c.selects[k].pending && SingleOf(e, l) == -1 && HeadOf(c, l) == HeadOf(e, l) == -1 &&
            forall m :: m != l ==> Holds(c, e, m)
  {}

  lemma {:induction false} SameSelects(c: Control, e: Control)
    requires |e.selects| == |c.selects| && e == c.(selects := e.selects)
    requires forall j :: 0 <= j < |c.selects| ==> e.selects[j].pending == c.selects[j].pending && e.selects[j].end == c.selects[j].end
    ensures forall m :: Holds(c, e, m)
  {}

  lemma {:induction false} NoClausePending(ops: seq<Op>, syms: seq<Sym>, c: Control, k: nat)
    requires Woven(ops, syms, c) && k < |c.selects| && c.selects[k].pending < 0
    ensures c.selects[k].pending == -1
  {
    assert Threads(ops, syms, c, CaseNext(k));
  }

  lemma {:induction false} SelectClosed(c: Control, k: nat)
    requires |c.selects| == k + 1 && c.selects[k].pending == -1
    ensures var e := WithHead(c, SelectEnd(k), -1);
            SingleOf(e, SelectEnd(k)) == -1 && HeadOf(e, SelectEnd(k)) == -1 &&
                forall m :: Holds(e, c.(selects := c.selects[..k]), m)
  {}

  lemma {:induction false} PlainWaits(op: Op)
    ensures forall l :: !Waits(Plain(op), l)
  {}

  lemma {:induction false} BoundWaits(pc: int)
    ensures forall l :: !Waits(Jump(At(pc)), l) && !Waits(Unless(At(pc)), l)
  {}

  lemma {:induction false} PartlyBoundTwice(a: seq<Sym>, b: seq<Sym>, c: seq<Sym>, l: Label, pc: int)
    requires PartlyBound(a, b, l, pc) && PartlyBound(b, c, l, pc)
    ensures PartlyBound(a, c, l, pc)
  {
    hide BindSym;
    forall i | 0 <= i < |a| ensures c[i] == a[i] || c[i] == BindSym(a[i], l, pc) { BindTwice(a[i], l, pc); }
  }

  lemma {:induction false} NewFor(c: Control, slot: int, pc: int, opening: Depths)
    requires pc >= 0
    ensures var l := ForEnd(|c.fors|);
            var e := c.(fors := c.fors + [ForEntry(slot, pc, -1, opening)]);
            SingleOf(c, l) == -1 && SingleOf(e, l) == pc && HeadOf(c, l) == HeadOf(e, l) &&
                (forall m :: m != l ==> Holds(c, e, m)) &&
            Waits(Jump(Hole(l)), l) && !Chained(Jump(Hole(l)), l)
  {}

  lemma {:induction false} NewWhile(c: Control, start: int, pc: int, opening: Depths)
    ensures var l := WhileEnd(|c.whiles|);
            var e := c.(whiles := c.whiles + [WhileEntry(start, pc, opening)]);
            SingleOf(c, l) == -1 && SingleOf(e, l) == pc && HeadOf(c, l) == HeadOf(e, l) &&
                (forall m :: m != l ==> Holds(c, e, m)) &&
            Waits(Unless(Hole(l)), l) && !Chained(Unless(Hole(l)), l)
  {}

  lemma {:induction false} NewDo(c: Control, start: int, pc: int, opening: Depths)
    ensures var l := DoEnd(|c.dos|);
            var e := c.(dos := c.dos + [DoEntry(start, pc, -1, opening)]);
            SingleOf(c, l) == -1 && SingleOf(e, l) == pc && HeadOf(c, l) == HeadOf(e, l) &&
                (forall m :: m != l ==> Holds(c, e, m)) &&
            Waits(Unless(Hole(l)), l) && !Chained(Unless(Hole(l)), l) && (pc == -1 ==> forall m :: Holds(c, e, m))
  {}

  /** A FOR waits at its skip jump. */
  lemma {:induction false} SkipFilled(ops: seq<Op>, syms: seq<Sym>, c: Control, k: nat)
    requires |c.fors| == k + 1
    ensures var l := ForEnd(k);
            var e := c.(fors := c.fors[k := c.fors[k].(skip := -1)]);
            SingleOf(c, l) == c.fors[k].skip && SingleOf(e, l) == -1 &&
                HeadOf(e, l) == HeadOf(c, l) == c.fors[k].exits &&
            HasChain(e, l) && forall m :: m != l ==> Holds(c, e, m)
  {}

  lemma {:induction false} ForClosed(c: Control, k: nat)
    requires |c.fors| == k + 1 && c.fors[k].skip == -1
    ensures var e := WithHead(c, ForEnd(k), -1);
            SingleOf(e, ForEnd(k)) == -1 && HeadOf(e, ForEnd(k)) == -1 &&
                forall m :: Holds(e, c.(fors := c.fors[..k]), m)
  {}

  lemma {:induction false} TestFilled(ops: seq<Op>, syms: seq<Sym>, c: Control, k: nat)
    requires |c.whiles| == k + 1
    ensures var l := WhileEnd(k);
            var e := c.(whiles := c.whiles[k := c.whiles[k].(jz := -1)]);
            SingleOf(c, l) == c.whiles[k].jz && SingleOf(e, l) == -1 && HeadOf(e, l) == HeadOf(c, l) == -1 &&
            forall m :: m != l ==> Holds(c, e, m)
  {}

  lemma {:induction false} WhileClosed(c: Control, k: nat)
    requires |c.whiles| == k + 1 && c.whiles[k].jz == -1
    ensures forall m :: Holds(c, c.(whiles := c.whiles[..k]), m)
  {}

  lemma {:induction false} ExitFilled(ops: seq<Op>, syms: seq<Sym>, c: Control, k: nat)
    requires |c.dos| == k + 1 && Woven(ops, syms, c)
    ensures var l := DoEnd(k);
            var e := c.(dos := c.dos[k := c.dos[k].(exit := -1)]);
            SingleOf(c, l) == c.dos[k].exit && SingleOf(e, l) == -1 && HeadOf(e, l) == HeadOf(c, l) == c.dos[k].exits &&
            HasChain(e, l) && (forall m :: m != l ==> Holds(c, e, m)) && (c.dos[k].exit < 0 ==> e == c)
  {
    assert Threads(ops, syms, c, DoEnd(k));
    if c.dos[k].exit < 0 { assert c.dos[k := c.dos[k].(exit := -1)] == c.dos; }
  }

  lemma {:induction false} DoClosed(c: Control, k: nat)
    requires |c.dos| == k + 1 && c.dos[k].exit == -1
    ensures var e := WithHead(c, DoEnd(k), -1);
            SingleOf(e, DoEnd(k)) == -1 && HeadOf(e, DoEnd(k)) == -1 && forall m :: Holds(e, c.(dos := c.dos[..k]), m)
  {}

  lemma {:induction false} ExitLabels(c: Control, l: Label, discard: int, depth: int)
    requires (l.ForEnd? && l.k < |c.fors|) || (l.DoEnd? && l.k < |c.dos|)
    ensures HasChain(c, l) && Chained(Leave(Hole(l), discard, depth), l)
    ensures HeadOf(c, l) == if l.ForEnd? then c.fors[l.k].exits else c.dos[l.k].exits
  {}

  lemma {:induction false} NewIf(c: Control, pc: int, opening: Depths)
    requires pc >= 0
    ensures var l := IfNext(|c.ifs|);
            var e := c.(ifs := c.ifs + [IfEntry(pc, -1, false, opening)]);
            SingleOf(c, l) == -1 && SingleOf(e, l) == pc && HeadOf(c, l) == HeadOf(e, l) &&
                (forall m :: m != l ==> Holds(c, e, m)) &&
            Waits(Unless(Hole(l)), l) && !Chained(Unless(Hole(l)), l)
  {}

  lemma {:induction false} IfLabels(c: Control, k: nat)
    requires k < |c.ifs|
    ensures HasChain(c, IfEnd(k)) && HeadOf(c, IfEnd(k)) == c.ifs[k].end && SingleOf(c, IfEnd(k)) == -1
    ensures Chained(Jump(Hole(IfEnd(k))), IfEnd(k))
  {}

  lemma {:induction false} PendingIf(c: Control, k: nat)
    requires k < |c.ifs|
    ensures var l := IfNext(k);
            var e := c.(ifs := c.ifs[k := c.ifs[k].(pending := -1)]);
            SingleOf(c, l) == c.ifs[k].pending && SingleOf(e, l) == -1 && HeadOf(c, l) == HeadOf(e, l) == -1 &&
            forall m :: m != l ==> Holds(c, e, m)
  {}

  lemma {:induction false} PendingAgain(c: Control, k: nat, pc: int)
    requires k < |c.ifs| && c.ifs[k].pending == -1
    ensures var l := IfNext(k);
            var e := c.(ifs := c.ifs[k := c.ifs[k].(pending := pc)]);
            SingleOf(c, l) == -1 && SingleOf(e, l) == pc && HeadOf(c, l) == HeadOf(e, l) &&
                (forall m :: m != l ==> Holds(c, e, m)) &&
            Waits(Unless(Hole(l)), l) && !Chained(Unless(Hole(l)), l)
  {}

  lemma {:induction false} SameIfs(c: Control, e: Control, k: nat)
    requires k < |c.ifs| && |e.ifs| == |c.ifs| && e == c.(ifs := e.ifs)
    requires forall j :: 0 <= j < |c.ifs| ==> e.ifs[j].pending == c.ifs[j].pending && e.ifs[j].end == c.ifs[j].end
    ensures forall m :: Holds(c, e, m)
  {}

  lemma {:induction false} NoPending(ops: seq<Op>, syms: seq<Sym>, c: Control, k: nat)
    requires Woven(ops, syms, c) && k < |c.ifs| && c.ifs[k].pending < 0
    ensures c.ifs[k].pending == -1
  {
    assert Threads(ops, syms, c, IfNext(k));
  }

  /** A block with nothing left to fill in may leave the stack. */
  lemma {:induction false} IfClosed(c: Control, k: nat)
    requires |c.ifs| == k + 1 && c.ifs[k].pending == -1
    ensures var e := WithHead(c, IfEnd(k), -1);
            SingleOf(e, IfEnd(k)) == -1 && HeadOf(e, IfEnd(k)) == -1 && forall m :: Holds(e, c.(ifs := c.ifs[..k]), m)
  {}

  lemma {:induction false} SelfBound(syms: seq<Sym>, l: Label, pc: int)
    ensures PartlyBound(syms, syms, l, pc)
  {}

  lemma {:induction false} PatchedLink(op: Op, s: Sym, l: Label, pc: int)
    requires Same(op, s) && Chained(s, l) && ThroughB(l)
    ensures Patched(op, pc) == op.(a := pc, b := 0)
  {}

  lemma {:induction false} WovenFrom(ops: seq<Op>, syms: seq<Sym>, c: Control, l: Label)
    requires Woven(ops, syms, c)
    ensures -1 <= HeadOf(c, l) < |ops|
  {
    assert Threads(ops, syms, c, l);
  }

  lemma {:induction false} WovenWithOwnHead(ops: seq<Op>, syms: seq<Sym>, c: Control, l: Label)
    requires Woven(ops, syms, c) && HasChain(c, l)
    ensures Woven(ops, syms, WithHead(c, l, HeadOf(c, l)))
  {
    hide Woven;
    WithHeadHolds(c, l, HeadOf(c, l));
    forall m ensures Holds(c, WithHead(c, l, HeadOf(c, l)), m) {
      if m == l { assert Holds(c, WithHead(c, l, HeadOf(c, l)), l); }
    }
    SameHolders(ops, syms, c, WithHead(c, l, HeadOf(c, l)));
  }

  /** One step of a walk: fill in the head and move on to the next older slot. */
  lemma {:induction false} WalkStep(
      ops: seq<Op>, syms: seq<Sym>, c: Control, l: Label, head: int, next: int, pc: int, before: seq<Sym>)
    requires HasChain(c, l) && 0 <= head < |ops| && Woven(ops, syms, WithHead(c, l, head)) && next == Link(l, ops[head])
    requires PartlyBound(before, syms, l, pc)
    ensures -1 <= next < head && |syms| == |ops| && Same(ops[head], syms[head]) && Waits(syms[head], l) &&
        Chained(syms[head], l)
    ensures var ops', syms' := ops[head := Patched(ops[head], pc)], syms[head := BindSym(syms[head], l, pc)];
            Woven(ops', syms', WithHead(c, l, next)) && PartlyBound(before, syms', l, pc)
  {
    hide Same, SingleOf, HeadOf, Holds, Patched, BindSym, WithHead, Chain, HasChain;
    var d, e := WithHead(c, l, head), WithHead(c, l, next);
    WithHeadHolds(c, l, head);
    WithHeadHolds(c, l, next);
    forall m | m != l ensures Holds(d, e, m) { assert Holds(c, d, m) && Holds(c, e, m); HoldsBoth(c, d, e, m); }
    HeadIsChained(ops, syms, d, l);
    PatchHead(ops, syms, d, e, l, pc);
    PartlyBoundStep(before, syms, l, pc, head);
  }

  lemma {:induction false} HeadIsChained(ops: seq<Op>, syms: seq<Sym>, c: Control, l: Label)
    requires Woven(ops, syms, c) && HeadOf(c, l) >= 0
    ensures HeadOf(c, l) < |ops| && Chained(syms[HeadOf(c, l)], l)
  {
    assert Threads(ops, syms, c, l);
  }

  lemma {:induction false} HoldsBoth(c: Control, d: Control, e: Control, l: Label)
    requires Holds(c, d, l) && Holds(c, e, l)
    ensures Holds(d, e, l)
  {}
}
