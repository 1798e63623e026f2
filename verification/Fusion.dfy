/** Running the spelling of a fused operation reaches the state the fused operation computes
    directly, and for the two that cross statements exactly when nothing they reuse is aliased. */
module Fusion {
  import opened Wrappers
  import opened Il
  import opened Machine
  import opened Spelling

  // ---------- straight-line execution ----------

  function Exec(m: Machine, code: seq<Op>, ins: seq<Instr>, st: State): Outcome {
    if ins == [] then Run(st)
    else
      var o := StepInstr(m, code, st, ins[0]);
      if o.Run? then Exec(m, code, ins[1..], o.st) else o
  }

  /** `raw` is what the original operations give, `fused` what the fused one gives. */
  predicate SameOrOverflow(raw: Outcome, fused: Outcome) { raw == Overflow || raw == fused }

  lemma {:induction false} ExecConcat(m: Machine, code: seq<Op>, a: seq<Instr>, b: seq<Instr>, st: State)
    ensures var o := Exec(m, code, a, st);
            Exec(m, code, a + b, st) == if o.Run? then Exec(m, code, b, o.st) else o
  {
    if a == [] {
      assert a + b == b;
    } else {
      assert (a + b)[0] == a[0] && (a + b)[1..] == a[1..] + b;
      var o := StepInstr(m, code, st, a[0]);
      if o.Run? { ExecConcat(m, code, a[1..], b, o.st); }
    }
  }

  lemma {:induction false} ExecOne(m: Machine, code: seq<Op>, i: Instr, st: State)
    ensures Exec(m, code, [i], st) == StepInstr(m, code, st, i)
  {
    var o := StepInstr(m, code, st, i);
    if o.Run? { assert Exec(m, code, [i][1..], o.st) == o; }
  }

  lemma {:induction false} ExecLoad(m: Machine, code: seq<Op>, x: Operand, st: State)
    ensures Exec(m, code, [ILoad(x)], st) == StepLoad(m, st, x)
  {
    ExecOne(m, code, ILoad(x), st);
  }

  lemma {:induction false} ExecStore(m: Machine, code: seq<Op>, x: Operand, st: State)
    ensures Exec(m, code, [IStore(x)], st) == StepStore(m, st, x)
  {
    ExecOne(m, code, IStore(x), st);
  }

  lemma {:induction false} ExecBin(m: Machine, code: seq<Op>, op: BinOp, st: State)
    ensures Exec(m, code, [IBin(op)], st) == StepBin(m, st, op)
  {
    ExecOne(m, code, IBin(op), st);
  }

  /** Two pieces of straight-line code, each understood, understood together. */
  lemma {:induction false} Chain(
      m: Machine, code: seq<Op>, a: seq<Instr>, b: seq<Instr>, st: State, mid: State, end: Outcome)
    requires SameOrOverflow(Exec(m, code, a, st), Run(mid))
    requires SameOrOverflow(Exec(m, code, b, mid), end)
    ensures SameOrOverflow(Exec(m, code, a + b, st), end)
  {
    ExecConcat(m, code, a, b, st);
  }

  /** Postfix code pushes the value of its expression, or overflows, or fails where it has none. */
  lemma {:induction false} CodeComputes(m: Machine, code: seq<Op>, e: Expr, st: State)
    requires ExprOk(m.symbols, e)
    ensures var v := Eval(m.arith, st, e);
            var o := Exec(m, code, Code(e), st);
            if |st.stack| + Peak(e) <= m.limit
            then o == (if v.None? then Failed(Leaves(st))
                       else Run(Advance(st, CodeLength(e)).(stack := st.stack + [Number(v.value)])))
            else o == Overflow || (v.None? && o == Failed(Leaves(st)))
    decreases e
  {
    hide StepInstr, Exec;
    match e
    case Leaf(x) =>
      ExecLoad(m, code, x, st);
    case Bin(op, l, r) =>
      CodeComputes(m, code, l, st);
      ExecConcat(m, code, Code(l) + Code(r), [IBin(op)], st);
      ExecConcat(m, code, Code(l), Code(r), st);
      var x := Eval(m.arith, st, l);
      if x.Some? && |st.stack| + Peak(l) <= m.limit {
        var st1 := Advance(st, CodeLength(l)).(stack := st.stack + [Number(x.value)]);
        CodeComputes(m, code, r, st1);
        EvalIgnoresStack(m.arith, st, st1, r);
        var y := Eval(m.arith, st, r);
        if y.Some? && |st1.stack| + Peak(r) <= m.limit {
          var st2 := Advance(st1, CodeLength(r)).(stack := st1.stack + [Number(y.value)]);
          ExecBin(m, code, op, st2);
          assert Pop(st2, 2).stack == st.stack;
          assert Top(st2, 0) == Number(y.value) && Top(st2, 1) == Number(x.value);
        }
      }
  }

  lemma {:induction false} EvalIgnoresStack(a: Arith, s: State, t: State, e: Expr)
    requires s.globals == t.globals && s.locals == t.locals
    ensures Eval(a, s, e) == Eval(a, t, e)
    decreases e
  {
    match e
    case Leaf(_) =>
    case Bin(_, l, r) => EvalIgnoresStack(a, s, t, l); EvalIgnoresStack(a, s, t, r);
  }

  lemma {:induction false} NoFrameNoValue(a: Arith, st: State, e: Expr)
    requires UsesLocals(e) && st.locals.None?
    ensures Eval(a, st, e).None?
    decreases e
  {
    match e
    case Leaf(_) =>
    case Bin(_, l, r) => if UsesLocals(l) { NoFrameNoValue(a, st, l); } else { NoFrameNoValue(a, st, r); }
  }

  // ---------- the simple fused operations ----------

  lemma {:induction false} PushMeaning(m: Machine, code: seq<Op>, e: Expr, st: State)
    requires ExprOk(m.symbols, e)
    ensures SameOrOverflow(Exec(m, code, Code(e), st), StepFusedPush(m, st, e))
  {
    CodeComputes(m, code, e, st);
    if UsesLocals(e) && st.locals.None? { NoFrameNoValue(m.arith, st, e); }
    PeakPositive(e);
  }

  lemma {:induction false} PeakPositive(e: Expr)
    ensures Peak(e) >= 1 && CodeLength(e) >= 1
  {}

  /** A local assignment that cannot be spelled in the stack space left overflows exactly as its spelling does. */
  lemma {:induction false} AssignMeaning(m: Machine, code: seq<Op>, dst: Operand, e: Expr, st: State)
    requires ExprOk(m.symbols, e) && VarOk(m.symbols, dst) && !dst.Literal?
    ensures SameOrOverflow(Exec(m, code, Assignment(dst, e), st), StepFusedAssign(m, st, dst, e))
  {
    hide StepInstr, Exec;
    CodeComputes(m, code, e, st);
    ExecConcat(m, code, Code(e), [IStore(dst)], st);
    var v := Eval(m.arith, st, e);
    PeakPositive(e);
    if v.Some? && |st.stack| + Peak(e) <= m.limit {
      var st1 := Advance(st, CodeLength(e)).(stack := st.stack + [Number(v.value)]);
      ExecStore(m, code, dst, st1);
      assert Pop(st1, 1).stack == st.stack;
      assert Top(st1, 0) == Number(v.value);
      assert Advance(Write(Pop(st1, 1), dst, v.value), 1) == Advance(Write(st, dst, v.value), CodeLength(e) + 1);
    }
  }

  lemma {:induction false} BranchMeaning(m: Machine, code: seq<Op>, e: Expr, target: int, st: State)
    requires ExprOk(m.symbols, e) && !UsesLocals(e)
    ensures SameOrOverflow(Exec(m, code, BranchCode(e, target), st), StepFusedBranch(m, code, st, e, target))
  {
    hide Exec;
    CodeComputes(m, code, e, st);
    ExecConcat(m, code, Code(e), [IJz(target)], st);
    var v := Eval(m.arith, st, e);
    if v.Some? && |st.stack| + Peak(e) <= m.limit {
      var st1 := Advance(st, CodeLength(e)).(stack := st.stack + [Number(v.value)]);
      ExecOne(m, code, IJz(target), st1);
      assert Pop(st1, 1).stack == st.stack;
      assert Top(st1, 0) == Number(v.value);
    }
  }

  lemma {:induction false} BinJzMeaning(m: Machine, code: seq<Op>, op: BinOp, target: int, st: State)
    requires op != Min
    ensures Exec(m, code, [IBin(op), IJz(target)], st) == StepBinJz(m, code, st, op, target)
  {
    ExecConcat(m, code, [IBin(op)], [IJz(target)], st);
    assert [IBin(op), IJz(target)] == [IBin(op)] + [IJz(target)];
    ExecOne(m, code, IBin(op), st);
    var o := StepBin(m, st, op);
    if o.Run? {
      ExecOne(m, code, IJz(target), o.st);
      assert Pop(o.st, 1).stack == Pop(st, 2).stack;
    }
  }

  lemma {:induction false} NotJzMeaning(m: Machine, code: seq<Op>, target: int, st: State)
    requires Lawful(m.arith)
    ensures Exec(m, code, [INot, IJz(target)], st) == StepNotJz(m, code, st, target)
  {
    ExecConcat(m, code, [INot], [IJz(target)], st);
    assert [INot, IJz(target)] == [INot] + [IJz(target)];
    ExecOne(m, code, INot, st);
    if |st.stack| > 0 {
      var st1 := StepInstr(m, code, st, INot).st;
      ExecOne(m, code, IJz(target), st1);
      assert Pop(st1, 1).stack == Pop(st, 1).stack;
    }
  }

  // ---------- painting ----------

  predicate Readable(m: Machine, st: State, x: Operand) { VarOk(m.symbols, x) && Read(st, x).Some? }

  lemma {:induction false} LoadMeaning(m: Machine, code: seq<Op>, x: Operand, st: State)
    requires Readable(m, st, x)
    ensures SameOrOverflow(Exec(m, code, [ILoad(x)], st),
                           Run(Advance(st, 1).(stack := st.stack + [Number(Read(st, x).value)])))
  {
    ExecOne(m, code, ILoad(x), st);
  }

  lemma {:induction false} ThreeLoads(m: Machine, code: seq<Op>, r: Operand, g: Operand, b: Operand, st: State)
    requires Readable(m, st, r) && Readable(m, st, g) && Readable(m, st, b)
    ensures SameOrOverflow(Exec(m, code, [ILoad(r), ILoad(g), ILoad(b)], st),
                           Run(Advance(st, 3).(stack := st.stack + [Number(Read(st, r).value), Number(Read(st,
                               g).value),
                                                                     Number(Read(st, b).value)])))
  {
    var nr, ng, nb := Number(Read(st, r).value), Number(Read(st, g).value), Number(Read(st, b).value);
    var s1 := Advance(st, 1).(stack := st.stack + [nr]);
    var s2 := Advance(st, 2).(stack := st.stack + [nr] + [ng]);
    LoadMeaning(m, code, r, st);
    LoadMeaning(m, code, g, s1);
    LoadMeaning(m, code, b, s2);
    Chain(m, code, [ILoad(r)], [ILoad(g)], st, s1, Run(s2));
    assert st.stack + [nr] + [ng] + [nb] == st.stack + [nr, ng, nb];
    var s3 := Advance(st, 3).(stack := st.stack + [nr, ng, nb]);
    assert Advance(s2, 1).(stack := s2.stack + [nb]) == s3;
    Chain(m, code, [ILoad(r)] + [ILoad(g)], [ILoad(b)], st, s2, Run(s3));
    assert [ILoad(r)] + [ILoad(g)] + [ILoad(b)] == [ILoad(r), ILoad(g), ILoad(b)];
  }

  lemma {:induction false} ColorMeaning(m: Machine, code: seq<Op>, r: Operand, g: Operand, b: Operand, st: State)
    requires Readable(m, st, r) && Readable(m, st, g) && Readable(m, st, b)
    ensures SameOrOverflow(Exec(m, code, [ILoad(r), ILoad(g), ILoad(b), IColor], st),
                           Run(Advance(Emit(st, [Color(Read(st, r).value, Read(st, g).value, Read(st, b).value)]), 4)))
  {
    var nr, ng, nb := Number(Read(st, r).value), Number(Read(st, g).value), Number(Read(st, b).value);
    var s3 := Advance(st, 3).(stack := st.stack + [nr, ng, nb]);
    ThreeLoads(m, code, r, g, b, st);
    ExecOne(m, code, IColor, s3);
    assert Top(s3, 0) == nb && Top(s3, 1) == ng && Top(s3, 2) == nr;
    assert Pop(s3, 3).stack == st.stack;
    var s4 := Advance(Emit(st, [Color(nr.n, ng.n, nb.n)]), 4);
    assert StepColor(s3) == Run(s4);
    Chain(m, code, [ILoad(r), ILoad(g), ILoad(b)], [IColor], st, s3, Run(s4));
    assert [ILoad(r), ILoad(g), ILoad(b)] + [IColor] == [ILoad(r), ILoad(g), ILoad(b), IColor];
  }

  lemma {:induction false} PaintMeaning(
      m: Machine, code: seq<Op>, r: Operand, g: Operand, b: Operand, px: Operand, py: Operand, st: State)
    requires Readable(m, st, r) && Readable(m, st, g) && Readable(m, st, b) && Readable(m, st, px) &&
        Readable(m, st, py)
    ensures SameOrOverflow(Exec(m, code, Painting(r, g, b, px, py), st),
                           Run(Advance(Paint(st, Read(st, r).value, Read(st, g).value, Read(st, b).value, px, py), 7)))
  {
    var color := Color(Read(st, r).value, Read(st, g).value, Read(st, b).value);
    var pixel := Pixel(Read(st, px).value, Read(st, py).value);
    var mid := Advance(Emit(st, [color]), 4);
    ColorMeaning(m, code, r, g, b, st);
    PixelMeaning(m, code, px, py, mid);
    assert st.out + [color] + [pixel] == st.out + [color, pixel];
    Chain(m, code, [ILoad(r), ILoad(g), ILoad(b), IColor], [ILoad(px), ILoad(py), IPset], st, mid,
          Run(Advance(Emit(mid, [pixel]), 3)));
  }

  lemma {:induction false} PixelMeaning(m: Machine, code: seq<Op>, px: Operand, py: Operand, st: State)
    requires Readable(m, st, px) && Readable(m, st, py)
    ensures SameOrOverflow(Exec(m, code, [ILoad(px), ILoad(py), IPset], st),
                           Run(Advance(Emit(st, [Pixel(Read(st, px).value, Read(st, py).value)]), 3)))
  {
    var nx, ny := Number(Read(st, px).value), Number(Read(st, py).value);
    var s1 := Advance(st, 1).(stack := st.stack + [nx]);
    var s2 := Advance(st, 2).(stack := st.stack + [nx, ny]);
    LoadMeaning(m, code, px, st);
    LoadMeaning(m, code, py, s1);
    assert s1.stack + [ny] == s2.stack;
    Chain(m, code, [ILoad(px)], [ILoad(py)], st, s1, Run(s2));
    ExecOne(m, code, IPset, s2);
    assert Top(s2, 0) == ny && Top(s2, 1) == nx;
    assert Pop(s2, 2).stack == st.stack;
    Chain(m, code, [ILoad(px)] + [ILoad(py)], [IPset], st, s2,
          Run(Advance(Emit(st, [Pixel(nx.n, ny.n)]), 3)));
    assert [ILoad(px)] + [ILoad(py)] + [IPset] == [ILoad(px), ILoad(py), IPset];
  }

  // ---------- pipelines that cross statements ----------

  lemma {:induction false} FloorStore(m: Machine, code: seq<Op>, dst: Operand, v: Num, st: State)
    requires |st.stack| > 0 && Top(st, 0) == Number(v)
    requires VarOk(m.symbols, dst) && !dst.Literal? && (dst.Local? ==> st.locals.Some?)
    ensures Exec(m, code, [IInt, IStore(dst)], st) == Run(Advance(Write(Pop(st, 1), dst, m.arith.floor(v)), 2))
  {
    assert [IInt, IStore(dst)] == [IInt] + [IStore(dst)];
    ExecConcat(m, code, [IInt], [IStore(dst)], st);
    ExecOne(m, code, IInt, st);
    var st1 := StepInstr(m, code, st, IInt).st;
    ExecOne(m, code, IStore(dst), st1);
    assert Pop(st1, 1).stack == Pop(st, 1).stack;
  }

  lemma {:induction false} FloorNeedsNumber(m: Machine, code: seq<Op>, rest: seq<Instr>, st: State)
    requires |st.stack| == 0 || Top(st, 0).Text?
    ensures Exec(m, code, [IInt] + rest, st) == Failed(Leaves(st))
  {
    assert StepInstr(m, code, st, IInt) == Failed(Leaves(st));
    assert ([IInt] + rest)[0] == IInt;
  }

  lemma {:induction false} GrayStackMeaning(
      m: Machine, code: seq<Op>, dst: Operand, px: Operand, py: Operand, st: State)
    requires VarOk(m.symbols, dst) && !dst.Literal? && (dst.Local? ==> st.locals.Some?)
    requires Readable(m, st, px) && Readable(m, st, py)
    ensures SameOrOverflow(Exec(m, code, [IInt, IStore(dst)] + Painting(dst, dst, dst, px, py), st),
                           StepGrayStack(m, st, dst, px, py))
  {
    hide StepInstr, Exec;
    var paint := Painting(dst, dst, dst, px, py);
    if |st.stack| == 0 || Top(st, 0).Text? {
      assert [IInt, IStore(dst)] + paint == [IInt] + ([IStore(dst)] + paint);
      FloorNeedsNumber(m, code, [IStore(dst)] + paint, st);
    } else {
      hide Painting;
      var v := m.arith.floor(Top(st, 0).n);
      FloorStore(m, code, dst, Top(st, 0).n, st);
      var mid := Advance(Write(Pop(st, 1), dst, v), 2);
      PaintMeaning(m, code, dst, dst, dst, px, py, mid);
      assert Read(mid, dst) == Some(v);
      Chain(m, code, [IInt, IStore(dst)], paint, st, mid, StepGrayStack(m, st, dst, px, py));
    }
  }

  lemma {:induction false} GrayReads(m: Machine, st: State, mid: State, i: Instr)
    requires i.FGray? && OperandsOk(m.symbols, i) && mid.locals == st.locals
    requires Eval(m.arith, st, Bin(Mul, Leaf(i.lhs), Leaf(i.rhs))).Some?
    ensures VarOk(m.symbols, i.dst) && !i.dst.Literal? && (i.dst.Local? ==> mid.locals.Some?)
    ensures Readable(m, mid, i.px) && Readable(m, mid, i.py)
  {
    assert Eval(m.arith, st, Leaf(i.lhs)) == Read(st, i.lhs);
  }

  lemma {:induction false} GrayMeaning(m: Machine, code: seq<Op>, i: Instr, st: State)
    requires i.FGray? && OperandsOk(m.symbols, i)
    requires i.dst.Local? ==> st.locals.None? || |st.stack| <= m.limit - 3
    ensures SameOrOverflow(Exec(m, code, Spell(i, Order(false, false, false)), st), StepInstr(m, code, st, i))
  {
    hide Exec;
    var e := Bin(Mul, Leaf(i.lhs), Leaf(i.rhs));
    var tail := [IInt, IStore(i.dst)] + Painting(i.dst, i.dst, i.dst, i.px, i.py);
    CodeComputes(m, code, e, st);
    ExecConcat(m, code, Code(e), tail, st);
    var v := Eval(m.arith, st, e);
    if v.Some? {
      var mid := Advance(st, 3).(stack := st.stack + [Number(v.value)]);
      assert Top(mid, 0) == Number(v.value);
      assert Pop(mid, 1).stack == st.stack;
      GrayReads(m, st, mid, i);
      GrayStackMeaning(m, code, i.dst, i.px, i.py, mid);
    }
  }

  /** One level of an expression, so that deep trees can be read node by node. */
  lemma {:induction false} Node(m: Machine, st: State, op: BinOp, l: Expr, r: Expr)
    ensures ExprOk(m.symbols, Bin(op, l, r)) == (ExprOk(m.symbols, l) && ExprOk(m.symbols, r))
    ensures UsesLocals(Bin(op, l, r)) == (UsesLocals(l) || UsesLocals(r))
    ensures CodeLength(Bin(op, l, r)) == CodeLength(l) + CodeLength(r) + 1
    ensures var x, y := Eval(m.arith, st, l), Eval(m.arith, st, r);
            x.Some? && y.Some? ==> Eval(m.arith, st, Bin(op, l, r)) == BinValue(m.arith, op, x.value, y.value)
  {}

  lemma {:induction false} ChannelValue(a: Arith, st: State, cap: int, src: int, k: int, swapped: bool)
    requires Lawful(a)
    ensures Eval(a, st, Channel(cap, src, k, swapped))
            == Some(Capped(a, a.apply(Mul, Get(st.globals, src), Whole(k)), Whole(cap)))
  {
    var x, y := Get(st.globals, src), Whole(k);
    assert Eval(a, st, Product(G(src), C(y), swapped)) == Some(a.apply(Mul, x, y)) by {
      assert Eval(a, st, G(src)) == Some(x) && Eval(a, st, C(y)) == Some(y);
    }
    assert Eval(a, st, C(Whole(cap))) == Some(Whole(cap));
  }

  lemma {:induction false} ChannelMeaning(
      m: Machine, code: seq<Op>, d: int, cap: int, src: int, k: int, swapped: bool, st: State)
    requires Lawful(m.arith) && SlotOk(m.symbols, d) && SlotOk(m.symbols, src)
    ensures var v := Capped(m.arith, m.arith.apply(Mul, Get(st.globals, src), Whole(k)), Whole(cap));
            SameOrOverflow(Exec(m, code, Assignment(Global(d), Channel(cap, src, k, swapped)), st),
                           Run(Advance(st.(globals := st.globals[d := v]), 6)))
  {
    var e := Channel(cap, src, k, swapped);
    ChannelValue(m.arith, st, cap, src, k, swapped);
    Node(m, st, Mul, G(src), C(Whole(k)));
    Node(m, st, Mul, C(Whole(k)), G(src));
    Node(m, st, Min, C(Whole(cap)), Product(G(src), C(Whole(k)), swapped));
    AssignMeaning(m, code, Global(d), e, st);
  }

  function ChannelOf(m: Machine, vars: map<int, Num>, i: Instr, k: int): Num
    requires i.FMinMul?
  {
    Capped(m.arith, m.arith.apply(Mul, Get(vars, i.src), Whole(k)), Whole(i.cap))
  }

  /** What the original operations behind the capped-channel superinstruction compute, aliased or not. */
  function MinMulSpelled(m: Machine, st: State, i: Instr): Outcome
    requires i.FMinMul?
  {
    var g1 := st.globals[i.d.0 := ChannelOf(m, st.globals, i, i.k.0)];
    var g2 := g1[i.d.1 := ChannelOf(m, g1, i, i.k.1)];
    var g3 := g2[i.d.2 := ChannelOf(m, g2, i, i.k.2)];
    Run(Advance(Paint(st.(globals := g3), Get(g3, i.d.0), Get(g3, i.d.1), Get(g3, i.d.2), Global(i.column),
        Global(i.row)), 25))
  }

  lemma {:induction false} MinMulSpelling(m: Machine, code: seq<Op>, i: Instr, w: Order, st: State)
    requires i.FMinMul? && OperandsOk(m.symbols, i) && Lawful(m.arith)
    ensures SameOrOverflow(Exec(m, code, Spell(i, w), st), MinMulSpelled(m, st, i))
  {
    var a := Assignment(Global(i.d.0), Channel(i.cap, i.src, i.k.0, w.first));
    var b := Assignment(Global(i.d.1), Channel(i.cap, i.src, i.k.1, w.second));
    var c := Assignment(Global(i.d.2), Channel(i.cap, i.src, i.k.2, w.third));
    var s1 := Advance(st.(globals := st.globals[i.d.0 := ChannelOf(m, st.globals, i, i.k.0)]), 6);
    var s2 := Advance(s1.(globals := s1.globals[i.d.1 := ChannelOf(m, s1.globals, i, i.k.1)]), 6);
    var s3 := Advance(s2.(globals := s2.globals[i.d.2 := ChannelOf(m, s2.globals, i, i.k.2)]), 6);
    ChannelMeaning(m, code, i.d.0, i.cap, i.src, i.k.0, w.first, st);
    ChannelMeaning(m, code, i.d.1, i.cap, i.src, i.k.1, w.second, s1);
    ChannelMeaning(m, code, i.d.2, i.cap, i.src, i.k.2, w.third, s2);
    Chain(m, code, a, b, st, s1, Run(s2));
    Chain(m, code, a + b, c, st, s2, Run(s3));
    PaintMeaning(m, code, Global(i.d.0), Global(i.d.1), Global(i.d.2), Global(i.column), Global(i.row), s3);
    var end := Run(Advance(Paint(s3, Get(s3.globals, i.d.0), Get(s3.globals, i.d.1), Get(s3.globals, i.d.2),
                                 Global(i.column), Global(i.row)), 7));
    Chain(m, code, a + b + c, Painting(Global(i.d.0), Global(i.d.1), Global(i.d.2), Global(i.column), Global(i.row)),
          st, s3, end);
    assert end == MinMulSpelled(m, st, i);
  }

  lemma {:induction false} MinMulMeaning(m: Machine, code: seq<Op>, i: Instr, w: Order, st: State)
    requires i.FMinMul? && OperandsOk(m.symbols, i) && Lawful(m.arith) && AliasFree(i)
    ensures SameOrOverflow(Exec(m, code, Spell(i, w), st), StepMinMul(m, st, i))
  {
    hide Exec, Spell, Lawful, Capped;
    MinMulSpelling(m, code, i, w, st);
    assert MinMulSpelled(m, st, i) == StepMinMul(m, st, i);
  }

  // ---------- the loop superinstruction ----------

  /** The state after the three assignments, whatever the slots alias. */
  function Iterated(m: Machine, st: State, i: Instr): map<int, Num>
    requires i.FComplex?
  {
    var g1 := st.globals[i.t := ComplexReal(m, st, i)];
    var g2 := g1[i.zy := ComplexImag(m, st.(globals := g1), i)];
    g2[i.zx := Get(g2, i.t)]
  }

  lemma {:induction false} RealMeaning(m: Machine, code: seq<Op>, i: Instr, st: State)
    requires i.FComplex? && OperandsOk(m.symbols, i)
    ensures SameOrOverflow(Exec(m, code, Assignment(Global(i.t), RealPart(i)), st),
                           Run(Advance(st.(globals := st.globals[i.t := ComplexReal(m, st, i)]), 10)))
  {
    hide Exec;
    var xx, yy := Bin(Mul, G(i.zx), G(i.zx)), Bin(Mul, G(i.zy), G(i.zy));
    Node(m, st, Mul, G(i.zx), G(i.zx));
    Node(m, st, Mul, G(i.zy), G(i.zy));
    Node(m, st, Sub, xx, yy);
    Node(m, st, Add, Bin(Sub, xx, yy), G(i.re));
    AssignMeaning(m, code, Global(i.t), RealPart(i), st);
  }

  lemma {:induction false} ImagMeaning(m: Machine, code: seq<Op>, i: Instr, st: State)
    requires i.FComplex? && OperandsOk(m.symbols, i)
    ensures SameOrOverflow(Exec(m, code, Assignment(Global(i.zy), ImagPart(i)), st),
                           Run(Advance(st.(globals := st.globals[i.zy := ComplexImag(m, st, i)]), 8)))
  {
    hide Exec;
    var twice := Bin(Mul, C(TWO), G(i.zx));
    Node(m, st, Mul, C(TWO), G(i.zx));
    Node(m, st, Mul, twice, G(i.zy));
    Node(m, st, Add, Bin(Mul, twice, G(i.zy)), G(i.im));
    AssignMeaning(m, code, Global(i.zy), ImagPart(i), st);
  }

  lemma {:induction false} IterationMeaning(m: Machine, code: seq<Op>, i: Instr, st: State)
    requires i.FComplex? && OperandsOk(m.symbols, i)
    ensures SameOrOverflow(Exec(m, code, IterationCode(i), st),
                           Run(Advance(st.(globals := Iterated(m, st, i)), 20)))
  {
    hide StepInstr, Exec;
    var a, b, c := Assignment(Global(i.t), RealPart(i)), Assignment(Global(i.zy), ImagPart(i)),
        Assignment(Global(i.zx), G(i.t));
    var g1 := st.globals[i.t := ComplexReal(m, st, i)];
    var s1 := Advance(st.(globals := g1), 10);
    RealMeaning(m, code, i, st);
    var g2 := g1[i.zy := ComplexImag(m, s1, i)];
    var s2 := Advance(st.(globals := g2), 18);
    ImagMeaning(m, code, i, s1);
    Chain(m, code, a, b, st, s1, Run(s2));
    AssignMeaning(m, code, Global(i.zx), G(i.t), s2);
    Chain(m, code, a + b, c, st, s2, Run(Advance(st.(globals := Iterated(m, st, i)), 20)));
  }

  lemma {:induction false} MoveMeaning(m: Machine, code: seq<Op>, move: Option<(int, int)>, st: State)
    requires move.Some? ==> SlotOk(m.symbols, move.value.0) && SlotOk(m.symbols, move.value.1)
    ensures SameOrOverflow(Exec(m, code, MoveCode(move), st),
                           Run(Advance(st.(globals := ComplexMove(st.globals, move)), if move.Some? then 2 else 0)))
  {
    if move.Some? {
      AssignMeaning(m, code, Global(move.value.0), G(move.value.1), st);
    }
  }

  lemma {:induction false} EscapeValue(m: Machine, st: State, either: bool, x: int, y: int, limit: Num)
    requires Lawful(m.arith)
    ensures var v := Eval(m.arith, st, EscapeTest(either, x, y, limit));
            v.Some? && (m.arith.isZero(v.value) <==> !Escapes(m.arith, either, Get(st.globals, x), Get(st.globals,
                y), limit))
    ensures CodeLength(EscapeTest(either, x, y, limit)) == if either then 11 else 9
    ensures !UsesLocals(EscapeTest(either, x, y, limit))
    ensures SlotOk(m.symbols, x) && SlotOk(m.symbols, y) ==> ExprOk(m.symbols, EscapeTest(either, x, y, limit))
  {
    var xx, yy := Bin(Mul, G(x), G(x)), Bin(Mul, G(y), G(y));
    Node(m, st, Mul, G(x), G(x));
    Node(m, st, Mul, G(y), G(y));
    if either {
      Node(m, st, Gt, xx, C(limit));
      Node(m, st, Gt, yy, C(limit));
      Node(m, st, Or, Bin(Gt, xx, C(limit)), Bin(Gt, yy, C(limit)));
    } else {
      Node(m, st, Add, xx, yy);
      Node(m, st, Gt, Bin(Add, xx, yy), C(limit));
    }
  }

  /** What the original operations behind the loop superinstruction compute, aliased or not. */
  function ComplexSpelled(m: Machine, code: seq<Op>, st: State, i: Instr): Outcome
    requires i.FComplex?
  {
    var vars := ComplexMove(Iterated(m, st, i), i.move);
    var st' := st.(globals := vars);
    if Escapes(m.arith, i.either, Get(vars, i.zx), Get(vars, i.zy), i.limit)
    then Run(Advance(st', ComplexSpan(i))) else Jump(code, st', i.target)
  }

  lemma {:induction false} ComplexSpelling(m: Machine, code: seq<Op>, i: Instr, st: State)
    requires i.FComplex? && OperandsOk(m.symbols, i) && Lawful(m.arith)
    ensures SameOrOverflow(Exec(m, code, ComplexCode(i), st), ComplexSpelled(m, code, st, i))
  {
    hide Exec, StepInstr, Escapes, IterationCode, MoveCode;
    IterationMeaning(m, code, i, st);
    var s1 := Advance(st.(globals := Iterated(m, st, i)), 20);
    MoveMeaning(m, code, i.move, s1);
    var s2 := Advance(s1.(globals := ComplexMove(s1.globals, i.move)), if i.move.Some? then 2 else 0);
    Chain(m, code, IterationCode(i), MoveCode(i.move), st, s1, Run(s2));
    var e := EscapeTest(i.either, i.zx, i.zy, i.limit);
    EscapeValue(m, s2, i.either, i.zx, i.zy, i.limit);
    BranchMeaning(m, code, e, i.target, s2);
    Chain(m, code, IterationCode(i) + MoveCode(i.move), BranchCode(e, i.target), st, s2,
          StepFusedBranch(m, code, s2, e, i.target));
    assert StepFusedBranch(m, code, s2, e, i.target) == ComplexSpelled(m, code, st, i);
  }

  lemma {:induction false} ComplexMeaning(m: Machine, code: seq<Op>, i: Instr, st: State)
    requires i.FComplex? && !i.next && OperandsOk(m.symbols, i) && Lawful(m.arith) && AliasFree(i)
    ensures SameOrOverflow(Exec(m, code, ComplexCode(i), st), StepComplex(m, code, st, i))
  {
    hide Exec, StepInstr, Escapes;
    ComplexSpelling(m, code, i, st);
    var g1 := st.globals[i.t := ComplexReal(m, st, i)];
    assert ComplexImag(m, st.(globals := g1), i) == ComplexImag(m, st, i);
    assert ComplexMove(Iterated(m, st, i), i.move) == ComplexVars(m, st, i);
    assert Get(ComplexVars(m, st, i), i.zx) == ComplexReal(m, st, i);
    assert Get(ComplexVars(m, st, i), i.zy) == ComplexImag(m, st, i);
  }
}
