/** The optimizer as it runs: marks gathered in one scan, then passes that overwrite slots of the
    code array in place. Each loop is proved against the function the theorems speak about. */
module OptimizerLoops {
  import opened Il
  import opened Machine
  import opened Optimizer
  import OptimizerProof

  /** `after` is `before` with the flow bit set on the slots of `pcs`. */
  ghost predicate FlowAdded(before: seq<Mark>, after: seq<Mark>, pcs: set<int>) {
    |after| == |before| && forall i :: 0 <= i < |before| ==>
      after[i] == if i in pcs then before[i].(flow := true) else before[i]
  }

  method MarkFlow(target: array<Mark>, pc: int)
    modifies target
    ensures FlowAdded(old(target[..]), target[..], {pc})
  {
    if 0 <= pc < target.Length { target[pc] := target[pc].(flow := true); }
  }

  method MarkTwo(target: array<Mark>, pc: int, next: int)
    modifies target
    ensures FlowAdded(old(target[..]), target[..], {pc, next})
  {
    MarkFlow(target, pc);
    MarkFlow(target, next);
  }

  lemma {:induction false} FlowsJoin(a: seq<Mark>, b: seq<Mark>, c: seq<Mark>, s: set<int>, r: set<int>)
    requires FlowAdded(a, b, s) && FlowAdded(b, c, r)
    ensures FlowAdded(a, c, s + r)
  {}

  lemma {:induction false} NoFlow(a: seq<Mark>)
    ensures FlowAdded(a, a, {})
  {}

  method MarkThree(target: array<Mark>, first: int, second: int, third: int)
    modifies target
    ensures FlowAdded(old(target[..]), target[..], {first, second, third})
  {
    hide FlowAdded;
    MarkFlow(target, first);
    ghost var marked := target[..];
    MarkTwo(target, second, third);
    FlowsJoin(old(target[..]), marked, target[..], {first}, {second, third});
    assert {first} + {second, third} == {first, second, third};
  }

  method MarkLines(p: Program, target: array<Mark>)
    requires forall pc :: 0 <= pc < target.Length ==> target[pc] == Mark(false, false)
    modifies target
    ensures forall pc :: 0 <= pc < target.Length ==> target[pc] == Mark(IsLine(p, pc), false)
  {
    for i := 0 to |p.linePcs|
      invariant forall pc :: 0 <= pc < target.Length ==> target[pc] == Mark(pc in p.linePcs[..i], false)
    {
      var pc := p.linePcs[i];
      if 0 <= pc < target.Length { target[pc] := target[pc].(line := true); }
      assert p.linePcs[..i + 1] == p.linePcs[..i] + [pc];
    }
    assert p.linePcs[..|p.linePcs|] == p.linePcs;
  }

  method MarkBoundaries(p: Program, target: array<Mark>)
    requires forall pc :: 0 <= pc < target.Length ==> target[pc] == Mark(IsLine(p, pc), false)
    modifies target
    ensures forall pc :: 0 <= pc < target.Length ==> target[pc] == Mark(IsLine(p, pc), IsBoundary(p, pc))
  {
    for f := 0 to |p.functions|
      invariant forall pc :: 0 <= pc < target.Length ==>
        target[pc] == Mark(IsLine(p, pc), exists g :: 0 <= g < f && (pc == p.functions[g].entry || pc == p.functions[g].end))
    {
      MarkTwo(target, p.functions[f].entry, p.functions[f].end);
    }
  }

  /** The slots one operation marks, in the order of the switch. */
  method MarkOp(target: array<Mark>, op: Op, i: nat)
    modifies target
    ensures FlowAdded(old(target[..]), target[..], FlowTargets(op, i))
  {
    hide FlowAdded;
    match op.code {
      case ExitLoop => MarkThree(target, i, op.a, i + 1);
      case Jmp | Jz | Gosub | CeqNumJz | CneNumJz | CltNumJz | CleNumJz | CgtNumJz | CgeNumJz | NotNumJz | AndNumJz
         | OrNumJz | Sq2GtOrJz | SumSqGtJz => MarkTwo(target, op.a, i + 1);
      case ComplexIterOrJz | ComplexIterSumSqJz => MarkFlow(target, op.b % 4096);
      case ForCheck | ForLocalCheck => MarkThree(target, op.b, i, i + 1);
      case ForInit | ForLocalInit | ForIncr | ForLocalIncr | CallUser | ReturnUser | FunctionFallthrough | RetSub | Halt =>
        MarkTwo(target, i, i + 1);
      case OnGoto | OnGosub => MarkTwo(target, i, i + 1 + op.a);
      case _ => NoFlow(target[..]);
    }
  }

  method MarkTargets(p: Program, code: array<Op>) returns (target: array<Mark>)
    ensures fresh(target) && target[..] == Marks(p, code[..])
  {
    target := new Mark[code.Length](_ => Mark(false, false));
    MarkLines(p, target);
    MarkBoundaries(p, target);
    for i := 0 to code.Length
      invariant forall pc :: 0 <= pc < target.Length ==>
        target[pc] == Mark(IsLine(p, pc), IsBoundary(p, pc) || exists k :: 0 <= k < i && pc in FlowTargets(code[k], k))
    {
      hide FlowTargets, IsBoundary, IsLine;
      MarkOp(target, code[i], i);
    }
    forall pc | 0 <= pc < target.Length ensures target[pc] == Marks(p, code[..])[pc] {
      hide FlowTargets;
      assert forall k :: 0 <= k < code.Length ==> code[..][k] == code[k];
    }
  }

  /** One pass in place: a match overwrites the slot and skips the span it covers. */
  method RunPass(pass: Pass, p: Program, target: seq<Mark>, code: array<Op>, start: nat, end: nat)
    requires end <= code.Length
    modifies code
    ensures code[..] == Sweep(pass, p, target, old(code[..]), start, end)
  {
    hide Match;
    var i := start;
    while i < end
      invariant Sweep(pass, p, target, code[..], i, end) == Sweep(pass, p, target, old(code[..]), start, end)
      decreases end - i
    {
      ghost var was := code[..];
      var f := Match(pass, p, target, code[..], i);
      if f.Fuse? {
        code[i] := f.op;
        assert code[..] == was[i := f.op];
        i := i + f.length;
      } else {
        i := i + 1;
      }
    }
  }

  method RunLocalPasses(p: Program, target: seq<Mark>, code: array<Op>)
    modifies code
    ensures code[..] == SweepFunctions(p, target, old(code[..]), 0)
  {
    hide Sweep;
    var f := 0;
    while f < |p.functions|
      invariant f <= |p.functions|
      invariant SweepFunctions(p, target, code[..], f) == SweepFunctions(p, target, old(code[..]), 0)
    {
      var fn := p.functions[f];
      RunPass(LocalPass(fn), p, target, code, Clamp(fn.entry, code.Length), Clamp(fn.end, code.Length));
      f := f + 1;
    }
  }

  /** The whole optimizer, in place, and what it is for: the program in the array still means
      what it meant, wherever it is entered. */
  method Optimize(p: Program, code: array<Op>)
    requires OptimizerProof.Unfused(p, code[..]) && OptimizerProof.Justification.SlotsFit(p)
    modifies code
    ensures code[..] == Optimized(p, old(code[..]))
    ensures forall m: Machine, st: State ::
      m.pool == p.pool && m.symbols == |p.symbolIsString| && Lawful(m.arith) &&
          OptimizerProof.RawAliasFree(p, old(code[..])) ==>
      OptimizerProof.StopAlike(m, old(code[..]), code[..], st)
  {
    hide Sweep, SweepFunctions, Marks, OptimizerProof.RawAliasFree;
    ghost var raw := code[..];
    var marks := MarkTargets(p, code);
    var target := marks[..];
    RunLocalPasses(p, target, code);
    RunPass(FirstPass, p, target, code, 0, code.Length);
    RunPass(ComplexPass, p, target, code, 0, code.Length);
    RunPass(PixelPass, p, target, code, 0, code.Length);
    RunPass(SpecializePass, p, target, code, 0, code.Length);
    RunPass(GrayAgainPass, p, target, code, 0, code.Length);
    RunPass(GrayTailPass, p, target, code, 0, code.Length);
    RunPass(ResidualPass, p, target, code, 0, code.Length);
    assert code[..] == Optimized(p, raw);
    forall m: Machine, st: State |
      m.pool == p.pool && m.symbols == |p.symbolIsString| && Lawful(m.arith) && OptimizerProof.RawAliasFree(p, raw)
      ensures OptimizerProof.StopAlike(m, raw, code[..], st)
    {
      OptimizerProof.OptimizerPreservesMeaning(p, m, raw, st);
    }
  }
}
