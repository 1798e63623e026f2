/** How holes are threaded through operand fields: a block remembers one slot, the head of a chain,
    or both; each link is the next older slot, so a walk along a chain only ever goes down. */
module Threading {
  import opened Wrappers
  import opened Il
  import opened Labels

  datatype ForEntry = ForEntry(slot: int, skip: int, exits: int, opening: Depths)
  datatype WhileEntry = WhileEntry(start: int, jz: int, opening: Depths)
  datatype DoEntry = DoEntry(start: int, exit: int, exits: int, opening: Depths)
  datatype IfEntry = IfEntry(pending: int, end: int, seenElse: bool, opening: Depths)
  datatype SelectEntry = SelectEntry(pending: int, end: int, seenCase: bool, seenElse: bool, opening: Depths)

  /** The control stacks; `inline` holds the slots that one-line IFs and the CASE under way keep in
      local variables. */
  datatype Control = Control(
    fors: seq<ForEntry>, whiles: seq<WhileEntry>, dos: seq<DoEntry>, ifs: seq<IfEntry>, selects: seq<SelectEntry>,
    entry: Option<int>, inline: map<Label, int>)

  /** The slot, outside any chain, that waits for `l`; -1 when there is none. */
  function SingleOf(c: Control, l: Label): int {
    match l
    case ForEnd(k) => if k < |c.fors| then c.fors[k].skip else -1
    case WhileEnd(k) => if k < |c.whiles| then c.whiles[k].jz else -1
    case DoEnd(k) => if k < |c.dos| then c.dos[k].exit else -1
    case IfNext(k) => if k < |c.ifs| then c.ifs[k].pending else -1
    case CaseNext(k) => if k < |c.selects| then c.selects[k].pending else -1
    case IfEnd(_) => -1
    case SelectEnd(_) => -1
    case InlineNo(_) => if l in c.inline then c.inline[l] else -1
    case InlineEnd(_) => if l in c.inline then c.inline[l] else -1
    case LowFail => if l in c.inline then c.inline[l] else -1
    case HighFail => if l in c.inline then c.inline[l] else -1
    case Match => -1
    case FunctionEnd => if c.entry.Some? then c.entry.value - 1 else -1
  }

  /** The newest slot of the chain that waits for `l`; -1 when it is empty. */
  function HeadOf(c: Control, l: Label): int {
    match l
    case ForEnd(k) => if k < |c.fors| then c.fors[k].exits else -1
    case DoEnd(k) => if k < |c.dos| then c.dos[k].exits else -1
    case IfEnd(k) => if k < |c.ifs| then c.ifs[k].end else -1
    case SelectEnd(k) => if k < |c.selects| then c.selects[k].end else -1
    case Match => if l in c.inline then c.inline[l] else -1
    case _ => -1
  }

  /** EXIT chains run through `a`, the end-of-block jumps of IF and SELECT, and the matches of a CASE, through `b`. */
  predicate ThroughB(l: Label) { l.IfEnd? || l.SelectEnd? || l.Match? }

  function Link(l: Label, op: Op): int { if ThroughB(l) then op.b else op.a }

  predicate Chained(s: Sym, l: Label) { Waits(s, l) && if ThroughB(l) then s.Jump? else s.Leave? }

  /** The operation in a slot stands for its symbol; the link fields of a hole are free. */
  predicate Same(op: Op, s: Sym) {
    match s
    case Plain(o) => op == o
    case Jump(t) => if t.At? then op == Op(Jmp, 0, 0, t.pc, 0) else op.code == Jmp && op.flags == 0 && op.s == 0 && (ThroughB(t.name) || op.b == 0)
    case Unless(t) => if t.At? then op == Op(Jz, 0, 0, t.pc, 0) else op.code == Jz && op.flags == 0 && op.s == 0 && op.b == 0
    case Leave(t, discard, depth) =>
      if t.At? then op == Op(ExitLoop, 0, depth, t.pc, discard)
      else op.code == ExitLoop && op.flags == 0 && op.s == depth && op.b == discard
  }

  /** The chain from `head` lists exactly the chained slots below `n`, newest first. */
  ghost predicate Chain(ops: seq<Op>, syms: seq<Sym>, l: Label, head: int, n: nat)
    requires n <= |ops| && n <= |syms|
    decreases n
  {
    if head < 0 then head == -1 && forall i :: 0 <= i < n ==> !Chained(syms[i], l)
    else head < n && Chained(syms[head], l) && (forall i :: head < i < n ==> !Chained(syms[i], l)) &&
         Chain(ops, syms, l, Link(l, ops[head]), head)
  }

  ghost predicate Alone(syms: seq<Sym>, l: Label, single: int) {
    -1 <= single < |syms| && forall i :: 0 <= i < |syms| ==> (Waits(syms[i], l) && !Chained(syms[i], l) <==> i == single)
  }

  ghost predicate Threads(ops: seq<Op>, syms: seq<Sym>, c: Control, l: Label)
    requires |ops| == |syms|
  {
    Alone(syms, l, SingleOf(c, l)) && Chain(ops, syms, l, HeadOf(c, l), |syms|)
  }

  /** The concrete code and control stacks stand for the symbolic code. */
  ghost predicate Woven(ops: seq<Op>, syms: seq<Sym>, c: Control) {
    |ops| == |syms| && (forall i :: 0 <= i < |ops| ==> Same(ops[i], syms[i])) && forall l :: Threads(ops, syms, c, l)
  }

  // ---------- chains that are not touched ----------

  /** Holder information for `l` is the same in both. */
  predicate Holds(c: Control, e: Control, l: Label) { SingleOf(c, l) == SingleOf(e, l) && HeadOf(c, l) == HeadOf(e, l) }

  lemma {:induction false} ChainFrame(
      ops: seq<Op>, syms: seq<Sym>, ops': seq<Op>, syms': seq<Sym>, l: Label, head: int, n: nat)
    requires n <= |ops| && n <= |syms| && n <= |ops'| && n <= |syms'| && Chain(ops, syms, l, head, n)
    requires forall i :: 0 <= i < n ==> Chained(syms[i], l) == Chained(syms'[i], l) && (Chained(syms[i], l) ==> ops[i] == ops'[i])
    ensures Chain(ops', syms', l, head, n)
    decreases n
  {
    if head >= 0 { ChainFrame(ops, syms, ops', syms', l, Link(l, ops[head]), head); }
  }

  lemma {:induction false} ChainGrows(ops: seq<Op>, syms: seq<Sym>, l: Label, head: int, n: nat)
    requires n < |ops| && n < |syms| && Chain(ops, syms, l, head, n) && !Chained(syms[n], l)
    ensures Chain(ops, syms, l, head, n + 1)
  {}

  /** Changing slot `i`, which does not wait for `l` before or after, leaves the holes of `l` alone. */
  lemma {:induction false} ThreadsFrame(
      ops: seq<Op>, syms: seq<Sym>, c: Control, e: Control, l: Label, i: nat, op: Op, s: Sym)
    requires |ops| == |syms| && i < |ops| && Threads(ops, syms, c, l) && Holds(c, e, l)
    requires !Waits(syms[i], l) && !Waits(s, l)
    ensures Threads(ops[i := op], syms[i := s], e, l)
  {
    ChainFrame(ops, syms, ops[i := op], syms[i := s], l, HeadOf(c, l), |syms|);
  }

  // ---------- appending ----------

  lemma {:induction false} ChainAppend(ops: seq<Op>, syms: seq<Sym>, l: Label, head: int, op: Op, s: Sym)
    requires |ops| == |syms| && Chain(ops, syms, l, head, |syms|) && !Chained(s, l)
    ensures Chain(ops + [op], syms + [s], l, head, |syms| + 1)
  {
    ChainFrame(ops, syms, ops + [op], syms + [s], l, head, |syms|);
    ChainGrows(ops + [op], syms + [s], l, head, |syms|);
  }

  lemma {:induction false} ThreadsAppend(ops: seq<Op>, syms: seq<Sym>, c: Control, e: Control, l: Label, op: Op, s: Sym)
    requires |ops| == |syms| && Threads(ops, syms, c, l) && Holds(c, e, l) && !Waits(s, l)
    ensures Threads(ops + [op], syms + [s], e, l)
  {
    ChainAppend(ops, syms, l, HeadOf(c, l), op, s);
  }

  lemma {:induction false} AppendBound(ops: seq<Op>, syms: seq<Sym>, c: Control, op: Op, s: Sym)
    requires Woven(ops, syms, c) && Same(op, s) && forall l :: !Waits(s, l)
    ensures Woven(ops + [op], syms + [s], c)
  {
    hide Threads, Waits, Same;
    forall l ensures Threads(ops + [op], syms + [s], c, l) { ThreadsAppend(ops, syms, c, c, l, op, s); }
  }

  /** A new slot that its block remembers. */
  lemma {:induction false} AppendSingle(ops: seq<Op>, syms: seq<Sym>, c: Control, e: Control, op: Op, s: Sym, l: Label)
    requires Woven(ops, syms, c) && Same(op, s) && Waits(s, l) && !Chained(s, l)
    requires SingleOf(c, l) == -1 && SingleOf(e, l) == |ops| && HeadOf(c, l) == HeadOf(e, l)
    requires forall m :: m != l ==> Holds(c, e, m)
    ensures Woven(ops + [op], syms + [s], e)
  {
    hide Same, SingleOf, HeadOf, Holds;
    forall m ensures Threads(ops + [op], syms + [s], e, m) {
      assert Threads(ops, syms, c, m);
      if m == l {
        ChainAppend(ops, syms, l, HeadOf(c, l), op, s);
      } else {
        OneLabel(s, l, m);
        ThreadsAppend(ops, syms, c, e, m, op, s);
      }
    }
  }

  lemma {:induction false} OneLabel(s: Sym, l: Label, m: Label)
    requires Waits(s, l) && m != l
    ensures !Waits(s, m)
  {}

  /** A new slot linked to the head of its block's chain. */
  lemma {:induction false} AppendLink(ops: seq<Op>, syms: seq<Sym>, c: Control, e: Control, op: Op, s: Sym, l: Label)
    requires Woven(ops, syms, c) && Same(op, s) && Chained(s, l) && Link(l, op) == HeadOf(c, l)
    requires SingleOf(e, l) == SingleOf(c, l) && HeadOf(e, l) == |ops|
    requires forall m :: m != l ==> Holds(c, e, m)
    ensures Woven(ops + [op], syms + [s], e)
  {
    hide Same, SingleOf, HeadOf, Holds, Link;
    forall m ensures Threads(ops + [op], syms + [s], e, m) {
      assert Threads(ops, syms, c, m);
      if m == l {
        ChainFrame(ops, syms, ops + [op], syms + [s], l, HeadOf(c, l), |syms|);
      } else {
        OneLabel(s, l, m);
        ThreadsAppend(ops, syms, c, e, m, op, s);
      }
    }
  }

  // ---------- patching ----------

  /** The operation with its target filled in and its link cleared. */
  function Patched(op: Op, pc: int): Op { if op.code == Jmp then op.(a := pc, b := 0) else op.(a := pc) }

  lemma {:induction false} PatchedSame(op: Op, s: Sym, l: Label, pc: int)
    requires Same(op, s) && Waits(s, l)
    ensures Same(Patched(op, pc), BindSym(s, l, pc)) && forall m :: !Waits(BindSym(s, l, pc), m)
  {}

  lemma {:induction false} PatchOthers(
      ops: seq<Op>, syms: seq<Sym>, c: Control, e: Control, l: Label, i: nat, pc: int, m: Label)
    requires Woven(ops, syms, c) && i < |ops| && Waits(syms[i], l) && m != l && Holds(c, e, m)
    ensures Threads(ops[i := Patched(ops[i], pc)], syms[i := BindSym(syms[i], l, pc)], e, m)
  {
    hide Threads, Same, SingleOf, HeadOf, Holds, Patched, BindSym;
    assert Threads(ops, syms, c, m);
    OneLabel(syms[i], l, m);
    PatchedSame(ops[i], syms[i], l, pc);
    ThreadsFrame(ops, syms, c, e, m, i, Patched(ops[i], pc), BindSym(syms[i], l, pc));
  }

  lemma {:induction false} PatchSingle(ops: seq<Op>, syms: seq<Sym>, c: Control, e: Control, l: Label, pc: int)
    requires Woven(ops, syms, c) && SingleOf(c, l) >= 0 && SingleOf(e, l) == -1 && HeadOf(e, l) == HeadOf(c, l)
    requires forall m :: m != l ==> Holds(c, e, m)
    ensures var i := SingleOf(c, l);
            i < |ops| && Waits(syms[i], l) && Woven(ops[i := Patched(ops[i], pc)], syms[i :=
                BindSym(syms[i], l, pc)], e)
  {
    hide Same, SingleOf, HeadOf, Holds, Patched, BindSym;
    var i := SingleOf(c, l);
    assert Threads(ops, syms, c, l);
    PatchedSame(ops[i], syms[i], l, pc);
    var ops', syms' := ops[i := Patched(ops[i], pc)], syms[i := BindSym(syms[i], l, pc)];
    forall m ensures Threads(ops', syms', e, m) {
      if m == l { ChainFrame(ops, syms, ops', syms', l, HeadOf(c, l), |syms|); }
      else { PatchOthers(ops, syms, c, e, l, i, pc, m); }
    }
  }

  lemma {:induction false} ChainBelow(ops: seq<Op>, syms: seq<Sym>, l: Label, head: int, n: nat)
    requires n <= |ops| && n <= |syms| && Chain(ops, syms, l, head, n)
    ensures -1 <= head < n
  {}

  lemma {:induction false} PatchHead(ops: seq<Op>, syms: seq<Sym>, c: Control, e: Control, l: Label, pc: int)
    requires Woven(ops, syms, c) && HeadOf(c, l) >= 0 && SingleOf(e, l) == SingleOf(c, l)
    requires HeadOf(c, l) < |ops| ==> HeadOf(e, l) == Link(l, ops[HeadOf(c, l)])
    requires forall m :: m != l ==> Holds(c, e, m)
    ensures var i := HeadOf(c, l);
            i < |ops| && Waits(syms[i], l) && -1 <= Link(l, ops[i]) < i &&
            Woven(ops[i := Patched(ops[i], pc)], syms[i := BindSym(syms[i], l, pc)], e)
  {
    hide Same, SingleOf, HeadOf, Holds, Patched, BindSym, Link;
    var i := HeadOf(c, l);
    assert Threads(ops, syms, c, l);
    PatchedSame(ops[i], syms[i], l, pc);
    var ops', syms' := ops[i := Patched(ops[i], pc)], syms[i := BindSym(syms[i], l, pc)];
    var next := Link(l, ops[i]);
    ChainBelow(ops, syms, l, next, i);
    forall m ensures Threads(ops', syms', e, m) {
      if m == l {
        ChainFrame(ops, syms, ops', syms', l, next, i);
        ChainExtends(ops', syms', l, next, i, |syms|);
      } else { PatchOthers(ops, syms, c, e, l, i, pc, m); }
    }
  }

  lemma {:induction false} ChainExtends(ops: seq<Op>, syms: seq<Sym>, l: Label, head: int, n: nat, m: nat)
    requires n <= m <= |ops| && m <= |syms| && Chain(ops, syms, l, head, n)
    requires forall i :: n <= i < m ==> !Chained(syms[i], l)
    ensures Chain(ops, syms, l, head, m)
  {}

  // ---------- a label fully bound ----------

  /** Some holes of `l` are bound to `pc`, nothing else has changed. */
  ghost predicate PartlyBound(before: seq<Sym>, after: seq<Sym>, l: Label, pc: int) {
    |after| == |before| && forall i :: 0 <= i < |before| ==> after[i] == before[i] || after[i] == BindSym(before[i], l, pc)
  }

  lemma {:induction false} PartlyBoundStep(before: seq<Sym>, after: seq<Sym>, l: Label, pc: int, i: nat)
    requires PartlyBound(before, after, l, pc) && i < |before|
    ensures PartlyBound(before, after[i := BindSym(after[i], l, pc)], l, pc)
  {
    BindTwice(before[i], l, pc);
  }

  lemma {:induction false} BindTwice(s: Sym, l: Label, pc: int)
    ensures BindSym(BindSym(s, l, pc), l, pc) == BindSym(s, l, pc)
  {}

  lemma {:induction false} AllBound(ops: seq<Op>, before: seq<Sym>, after: seq<Sym>, c: Control, l: Label, pc: int)
    requires PartlyBound(before, after, l, pc) && Woven(ops, after, c) && SingleOf(c, l) == -1 && HeadOf(c, l) == -1
    ensures after == Bind(before, l, pc)
  {
    hide BindSym, Same;
    assert Threads(ops, after, c, l);
    forall i | 0 <= i < |before| ensures after[i] == BindSym(before[i], l, pc) {
      assert !Waits(after[i], l);
      if after[i] == before[i] { Unbound(before[i], l, pc); }
    }
  }

  lemma {:induction false} Unbound(s: Sym, l: Label, pc: int)
    requires !Waits(s, l)
    ensures BindSym(s, l, pc) == s
  {}

  // ---------- relabelling the stacks ----------

  /** Stacks that hold the same slots for every label stand for the same symbolic code. */
  lemma {:induction false} SameHolders(ops: seq<Op>, syms: seq<Sym>, c: Control, e: Control)
    requires Woven(ops, syms, c) && forall l :: Holds(c, e, l)
    ensures Woven(ops, syms, e)
  {
    hide Same, Chain, Alone;
    forall l ensures Threads(ops, syms, e, l) { assert Threads(ops, syms, c, l) && Holds(c, e, l); }
  }
}
