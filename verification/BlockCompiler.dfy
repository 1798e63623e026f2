/** Compiling the statements of a structured program, one pass with holes and labels, yields exactly
    the code of its tree. */
module BlockCompiler {
  import opened Wrappers
  import opened Il
  import opened Statements
  import opened Labels
  import opened Blocks
  import opened Targets

  function CompileAll(d: Draft, ts: seq<Statement>): Option<Draft>
    decreases |ts|
  {
    if ts == [] then Some(d)
    else
      var p := Compile(true, d, ts[0], 0);
      if p.None? then None else CompileAll(p.value, ts[1..])
  }

  lemma {:induction false} CompileConcat(d: Draft, a: seq<Statement>, b: seq<Statement>)
    ensures var p := CompileAll(d, a);
            CompileAll(d, a + b) == if p.None? then None else CompileAll(p.value, b)
    decreases |a|
  {
    hide Compile;
    if a == [] {
      assert a + b == b;
    } else {
      assert (a + b)[0] == a[0] && (a + b)[1..] == a[1..] + b;
      var p := Compile(true, d, a[0], 0);
      if p.Some? { CompileConcat(p.value, a[1..], b); }
    }
  }

  lemma {:induction false} CompileOne(d: Draft, t: Statement)
    ensures CompileAll(d, [t]) == Compile(true, d, t, 0)
  {
    hide Compile;
    var p := Compile(true, d, t, 0);
    if p.Some? { assert CompileAll(p.value, [t][1..]) == Some(p.value); }
  }

  function Grow(d: Draft, code: seq<Sym>): Draft { d.(code := d.code + code) }

  lemma {:induction false} GrowTwice(d: Draft, a: seq<Sym>, b: seq<Sym>)
    ensures Grow(Grow(d, a), b) == Grow(d, a + b)
  {
    assert d.code + a + b == d.code + (a + b);
  }

  function ContextOf(d: Draft): Context {
    Context(if |d.fors| > 0 then Hole(ForEnd(|d.fors| - 1)) else At(-1), if |d.dos| > 0
        then Hole(DoEnd(|d.dos| - 1)) else At(-1),
            |d.fors|, if |d.dos| > 0 then Last(d.dos).opening.f else 0)
  }

  /** A SELECT, once opened, has seen a clause. */
  predicate InClause(d: Draft) { |d.selects| > 0 ==> Last(d.selects).seenCase }

  ghost predicate Ready(d: Draft, S: set<Label>) { Inv(d, S) && InClause(d) }

  lemma {:induction false} NotOpenAbsent(d: Draft, S: set<Label>, l: Label)
    requires Inv(d, S) && !Open(d, S, l)
    ensures Absent(d.code, l)
  {
    hide Region, Open;
    forall i | 0 <= i < |d.code| ensures !Waits(d.code[i], l) { assert SymOk(d, S, i, d.code[i]); }
  }

  lemma {:induction false} BindAbsent(code: seq<Sym>, l: Label, pc: int)
    requires Absent(code, l)
    ensures Bind(code, l, pc) == code
  {
    forall i | 0 <= i < |code| ensures BindSym(code[i], l, pc) == code[i] { assert !Waits(code[i], l); }
  }

  lemma {:induction false} AbsentConcat(a: seq<Sym>, b: seq<Sym>, l: Label)
    requires Absent(a, l) && Absent(b, l)
    ensures Absent(a + b, l)
  {
    hide Waits;
  }

  /** A block's own labels do not occur in the code of what it contains. */
  lemma {:induction false} BlockUnbound(pool: seq<Num>, b: Block, base: int, c: Context, l: Label, pc: int)
    requires c.forExit != Hole(l) && c.doExit != Hole(l)
    ensures Bind(BlockBody(pool, b, base, c), l, pc) == BlockBody(pool, b, base, c)
  {
    BindBlock(pool, b, base, c, l, pc);
    assert BindContext(c, l, pc) == c;
  }

  lemma {:induction false} BodyUnbound(pool: seq<Num>, s: Stmt, base: int, c: Context, l: Label, pc: int)
    requires c.forExit != Hole(l) && c.doExit != Hole(l)
    ensures Bind(Body(pool, s, base, c), l, pc) == Body(pool, s, base, c)
  {
    BindBody(pool, s, base, c, l, pc);
    assert BindContext(c, l, pc) == c;
  }

  // ---------- the statements are sound ----------

  lemma {:induction false} OpsBranchless(pool: seq<Num>, e: Expr)
    ensures NoBranches(Ops(pool, e))
    decreases e
  {
    if e.Bin? {
      OpsBranchless(pool, e.l);
      OpsBranchless(pool, e.r);
      BinBranchless(e.op);
    }
  }

  lemma {:induction false} BinBranchless(op: BinOp)
    ensures Branchless(BinCode(op))
  {}

  lemma {:induction false} SimpleBranchless(pool: seq<Num>, s: Stmt)
    ensures NoBranches(SimpleOps(pool, s))
  {
    hide Ops;
    match s
    case Let(slot, e) => OpsBranchless(pool, e);
    case SetColor(r, g, b) => OpsBranchless(pool, r); OpsBranchless(pool, g); OpsBranchless(pool, b);
    case SetPixel(x, y) => OpsBranchless(pool, x); OpsBranchless(pool, y);
    case _ =>
  }

  lemma {:induction false} LineSound(pool: seq<Num>, s: Stmt)
    ensures Sound(Line(pool, s))
    decreases s
  {
    hide NoBranches, Ops, SimpleOps;
    match s
    case OneLine(test, yes, no) =>
      OpsBranchless(pool, test);
      LineSound(pool, yes);
      if no.Some? { LineSound(pool, no.value); }
    case _ => SimpleBranchless(pool, s);
  }

  ghost predicate AllSound(ts: seq<Statement>) { forall k :: 0 <= k < |ts| ==> Sound(ts[k]) }

  lemma {:induction false} AllKeeps(d: Draft, ts: seq<Statement>, S: set<Label>)
    requires Inv(d, S) && AllSound(ts) && CompileAll(d, ts).Some?
    ensures Inv(CompileAll(d, ts).value, S)
    decreases |ts|
  {
    hide Inv, Compile, Sound;
    if ts != [] {
      CompileKeeps(true, d, ts[0], 0, S);
      AllKeeps(Compile(true, d, ts[0], 0).value, ts[1..], S);
    }
  }

  lemma {:induction false} AllSoundConcat(a: seq<Statement>, b: seq<Statement>)
    requires AllSound(a) && AllSound(b)
    ensures AllSound(a + b)
  {
    hide Sound;
  }

  lemma {:induction false} OneSound(t: Statement)
    requires Sound(t)
    ensures AllSound([t])
  {}

  lemma {:induction false} ItemsSound(pool: seq<Num>, items: seq<Literals>)
    ensures Sound(Case(ItemsOf(pool, items)))
  {}

  lemma {:induction false} TestSound(pool: seq<Num>, test: Option<Expr>)
    ensures Sound(Do(TestOf(pool, test))) && Sound(Loop(TestOf(pool, test)))
  {
    if test.Some? { OpsBranchless(pool, test.value); }
  }

  lemma {:induction false} ForSound(pool: seq<Num>, slot: int, first: Expr, limit: Expr, step: Expr)
    ensures Sound(For(slot, Ops(pool, first), Ops(pool, limit), Ops(pool, step)))
  {
    OpsBranchless(pool, first);
    OpsBranchless(pool, limit);
    OpsBranchless(pool, step);
  }

  lemma {:induction false} IfWritten(a: seq<Statement>, b: seq<Statement>, c: seq<Statement>, d: seq<Statement>)
    ensures a + (b + c) + d == a + b + c + d
  {}

  lemma {:induction false} WrittenSound(pool: seq<Num>, s: Stmt)
    ensures AllSound(Written(pool, s))
    decreases s
  {
    hide Sound, Ops, NoBranches;
    match s
    case Choose(arms) =>
      if arms.Arm? {
        OpsBranchless(pool, arms.test);
        assert Sound(If(Ops(pool, arms.test))) && Sound(EndIf) by { IfSound(Ops(pool, arms.test)); }
        BlockSound(pool, arms.body);
        ArmsSound(pool, arms.rest);
        Bracketed(If(Ops(pool, arms.test)), WrittenBlock(pool, arms.body) + WrittenArms(pool, arms.rest), EndIf);
        IfWritten([If(Ops(pool, arms.test))], WrittenBlock(pool, arms.body), WrittenArms(pool, arms.rest), [EndIf]);
      }
    case ForLoop(slot, first, limit, step, body, named) =>
      ForSound(pool, slot, first, limit, step);
      NextSound(if named then slot else -1);
      BlockSound(pool, body);
      Bracketed(For(slot, Ops(pool, first), Ops(pool, limit), Ops(pool, step)), WrittenBlock(pool, body),
          Next(if named then slot else -1));
    case WhileLoop(test, body) =>
      OpsBranchless(pool, test);
      IfSound(Ops(pool, test));
      BlockSound(pool, body);
      Bracketed(While(Ops(pool, test)), WrittenBlock(pool, body), Wend);
    case DoLoop(entry, body, until) =>
      TestSound(pool, entry);
      TestSound(pool, until);
      BlockSound(pool, body);
      Bracketed(Do(TestOf(pool, entry)), WrittenBlock(pool, body), Loop(TestOf(pool, until)));
    case SelectCase(e, clauses) =>
      OpsBranchless(pool, e);
      IfSound(Ops(pool, e));
      ClausesSound(pool, clauses);
      Bracketed(Select(Ops(pool, e)), WrittenClauses(pool, clauses), EndSelect);
    case _ => LineSound(pool, s);
  }

  lemma {:induction false} IfSound(ops: seq<Op>)
    requires NoBranches(ops)
    ensures Sound(If(ops)) && Sound(ElseIf(ops)) && Sound(While(ops)) && Sound(Select(ops)) && Sound(EndIf) &&
        Sound(Wend)
    ensures Sound(EndSelect) && Sound(Else) && Sound(CaseElse) && forall slot :: Sound(Next(slot))
  {}

  lemma {:induction false} NextSound(slot: int)
    ensures Sound(Next(slot))
  {}

  lemma {:induction false} Bracketed(first: Statement, inner: seq<Statement>, last: Statement)
    requires AllSound(inner) && Sound(first) && Sound(last)
    ensures AllSound([first] + inner + [last])
  {
    hide Sound;
  }

  lemma {:induction false} BlockSound(pool: seq<Num>, b: Block)
    ensures AllSound(WrittenBlock(pool, b))
    decreases b
  {
    hide Sound, Written;
    if b.Cons? {
      WrittenSound(pool, b.head);
      BlockSound(pool, b.tail);
      AllSoundConcat(Written(pool, b.head), WrittenBlock(pool, b.tail));
    }
  }

  lemma {:induction false} ArmsSound(pool: seq<Num>, a: Arms)
    ensures AllSound(WrittenArms(pool, a))
    decreases a
  {
    hide Sound, Ops, WrittenBlock, NoBranches;
    match a
    case Arm(test, body, rest) =>
      OpsBranchless(pool, test);
      IfSound(Ops(pool, test));
      BlockSound(pool, body);
      ArmsSound(pool, rest);
      OneSound(ElseIf(Ops(pool, test)));
      AllSoundConcat([ElseIf(Ops(pool, test))], WrittenBlock(pool, body));
      AllSoundConcat([ElseIf(Ops(pool, test))] + WrittenBlock(pool, body), WrittenArms(pool, rest));
    case Otherwise(other) =>
      if other.Some? {
        BlockSound(pool, other.value);
        IfSound([]);
        OneSound(Else);
        AllSoundConcat([Else], WrittenBlock(pool, other.value));
      }
  }

  lemma {:induction false} ClausesSound(pool: seq<Num>, cs: Clauses)
    ensures AllSound(WrittenClauses(pool, cs))
    decreases cs
  {
    hide Sound, ItemsOf, WrittenBlock, NoBranches;
    match cs
    case When(items, body, rest) =>
      ItemsSound(pool, items);
      BlockSound(pool, body);
      ClausesSound(pool, rest);
      OneSound(Case(ItemsOf(pool, items)));
      AllSoundConcat([Case(ItemsOf(pool, items))], WrittenBlock(pool, body));
      AllSoundConcat([Case(ItemsOf(pool, items))] + WrittenBlock(pool, body), WrittenClauses(pool, rest));
    case Rest(other) =>
      if other.Some? {
        BlockSound(pool, other.value);
        IfSound([]);
        OneSound(CaseElse);
        AllSoundConcat([CaseElse], WrittenBlock(pool, other.value));
      }
  }

  // ---------- one-line statements ----------

  lemma {:induction false} PutGrows(d: Draft, code: seq<Sym>)
    requires Put(d, code).Some?
    ensures Put(d, code).value == Grow(d, code)
  {}

  lemma {:induction false} SimpleCompiles(pool: seq<Num>, s: Stmt, d: Draft, level: nat)
    requires OneLiner(s) && !s.OneLine? && Compile(true, d, Line(pool, s), level).Some?
    ensures Compile(true, d, Line(pool, s), level).value == Grow(d, Body(pool, s, |d.code|, ContextOf(d)))
  {
    hide SimpleOps;
  }

  lemma {:induction false} HereGrows(d: Draft, code: seq<Sym>, l: Label)
    ensures Here(Grow(d, code), l) == d.(code := Bind(d.code, l, |d.code| + |code|) + Bind(code, l, |d.code| + |code|))
  {
    BindConcat(d.code, code, l, |d.code| + |code|);
  }

  /** Binding an inline label after its branch. */
  lemma {:induction false} InlineBinds(
      pool: seq<Num>, d: Draft, test: Expr, yes: Stmt, l: Label, tail: seq<Sym>, pc: int)
    requires l.InlineNo? && Absent(d.code, l) && Absent(tail, l) &&
        pc == |d.code| + CodeLength(test) + 1 + Size(yes) + |tail|
    ensures var at := |d.code| + CodeLength(test) + 1;
            var head := PlainOps(Ops(pool, test)) + [Unless(Hole(l))];
            var yesCode := Body(pool, yes, at, ContextOf(d));
            Here(Grow(d, head + yesCode + tail), l) == Grow(d, PlainOps(Ops(pool, test)) + [Unless(At(pc))]
                + yesCode + tail)
  {
    hide Bind, Ops, PlainOps, Absent, Body, Size;
    var at := |d.code| + CodeLength(test) + 1;
    var plain := PlainOps(Ops(pool, test));
    var yesCode := Body(pool, yes, at, ContextOf(d));
    HereGrows(d, plain + [Unless(Hole(l))] + yesCode + tail, l);
    BindAbsent(d.code, l, pc);
    BindConcat(plain + [Unless(Hole(l))] + yesCode, tail, l, pc);
    BindConcat(plain + [Unless(Hole(l))], yesCode, l, pc);
    HeadBinds(Ops(pool, test), l, pc);
    BodyUnbound(pool, yes, at, ContextOf(d), l, pc);
    BindAbsent(tail, l, pc);
  }

  lemma {:induction false} HeadBinds(ops: seq<Op>, l: Label, pc: int)
    ensures Bind(PlainOps(ops) + [Unless(Hole(l))], l, pc) == PlainOps(ops) + [Unless(At(pc))]
  {}

  /** Binding the end of a one-line IF after its ELSE part. */
  lemma {:induction false} InlineEnds(
      pool: seq<Num>, d: Draft, test: Expr, yes: Stmt, no: Stmt, e: Label, out: int, end: int)
    requires e.InlineEnd? && Absent(d.code, e) && end == |d.code| + CodeLength(test) + 1 + Size(yes) + 1 + Size(no)
    ensures var at := |d.code| + CodeLength(test) + 1;
            var head := PlainOps(Ops(pool, test)) + [Unless(At(out))] + Body(pool, yes, at, ContextOf(d));
            var noCode := Body(pool, no, at + Size(yes) + 1, ContextOf(d));
            Here(Grow(d, head + ([Jump(Hole(e))] + noCode)), e) == Grow(d, head + ([Jump(At(end))] + noCode))
  {
    hide Bind, Ops, PlainOps, Absent, Body, Size, Settled;
    var at := |d.code| + CodeLength(test) + 1;
    var start := PlainOps(Ops(pool, test)) + [Unless(At(out))];
    var yesCode, noCode := Body(pool, yes, at, ContextOf(d)), Body(pool, no, at + Size(yes) + 1, ContextOf(d));
    HereGrows(d, start + yesCode + ([Jump(Hole(e))] + noCode), e);
    BindAbsent(d.code, e, end);
    BindConcat(start + yesCode, [Jump(Hole(e))] + noCode, e, end);
    BindConcat([Jump(Hole(e))], noCode, e, end);
    OneSettled(Unless(At(out)));
    PlainSettled(Ops(pool, test), [Unless(At(out))]);
    BindTwo(start, yesCode, e, end);
    BodyUnbound(pool, yes, at, ContextOf(d), e, end);
    BodyUnbound(pool, no, at + Size(yes) + 1, ContextOf(d), e, end);
    BindOne(Jump(Hole(e)), e, end);
  }

  lemma {:induction false} AbsentOne(s: Sym, l: Label)
    requires !Waits(s, l)
    ensures Absent([s], l)
  {}

  lemma {:induction false} LineCompiles(pool: seq<Num>, s: Stmt, d: Draft, level: nat, S: set<Label>)
    requires OneLiner(s) && Inv(d, S) && InClause(d) && (forall m :: m >= level ==> InlineNo(m) !in S && InlineEnd(m) !in S)
    requires Compile(true, d, Line(pool, s), level).Some?
    ensures Compile(true, d, Line(pool, s), level).value == Grow(d, Body(pool, s, |d.code|, ContextOf(d)))
    decreases s, 2
  {
    hide Inv, Absent, Body, Ops, PlainOps, Open;
    if s.OneLine? {
      OneLineCompiles(pool, s, d, level, S);
    } else {
      SimpleCompiles(pool, s, d, level);
    }
  }

  lemma {:induction false} OneLineCompiles(pool: seq<Num>, s: Stmt, d: Draft, level: nat, S: set<Label>)
    requires s.OneLine? && OneLiner(s) && Inv(d, S) && InClause(d) &&
        (forall m :: m >= level ==> InlineNo(m) !in S && InlineEnd(m) !in S)
    requires Compile(true, d, Line(pool, s), level).Some?
    ensures Compile(true, d, Line(pool, s), level).value == Grow(d, Body(pool, s, |d.code|, ContextOf(d)))
    decreases s, 1
  {
    hide Inv, Absent, Body, Ops, PlainOps, Bind, Size, Here, NoBranches;
    var l, e := InlineNo(level), InlineEnd(level);
    var at, c := |d.code| + CodeLength(s.test) + 1, ContextOf(d);
    var head := PlainOps(Ops(pool, s.test)) + [Unless(Hole(l))];
    var yesCode := Body(pool, s.yes, at, c);
    OpsBranchless(pool, s.test);
    var p := Put(d, head).value;
    PutGrows(d, head);
    InlineOpens(d, S, Ops(pool, s.test), l);
    LineCompiles(pool, s.yes, p, level + 1, S + {l});
    var q := Compile(true, p, Line(pool, s.yes), level + 1).value;
    GrowTwice(d, head, yesCode);
    NotOpenAbsent(d, S, l);
    if s.no.None? {
      AbsentNone(l);
      InlineBinds(pool, d, s.test, s.yes, l, [], at + Size(s.yes));
      assert head + yesCode + [] == head + yesCode;
      OneLineYes(pool, s, |d.code|, c);
    } else {
      LineSound(pool, s.yes);
      CompileKeeps(true, p, Line(pool, s.yes), level + 1, S + {l});
      OneLineElses(pool, s, d, q, level, S);
    }
  }

  lemma {:induction false} AbsentNone(l: Label)
    ensures Absent([], l)
  {}

  lemma {:induction false} OneLineYes(pool: seq<Num>, s: Stmt, base: int, c: Context)
    requires s.OneLine? && s.no.None?
    ensures var at := base + CodeLength(s.test) + 1;
            Body(pool, s, base, c) == PlainOps(Ops(pool, s.test)) + [Unless(At(at + Size(s.yes)))] + Body(pool,
                s.yes, at, c) + []
  {}

  lemma {:induction false} OneLineBoth(pool: seq<Num>, s: Stmt, base: int, c: Context)
    requires s.OneLine? && s.no.Some?
    ensures var at := base + CodeLength(s.test) + 1;
            Body(pool, s, base, c) == PlainOps(Ops(pool, s.test)) + [Unless(At(at + Size(s.yes) + 1))] + Body(pool,
                s.yes, at, c) +
            ([Jump(At(at + Size(s.yes) + 1 + Size(s.no.value)))] + Body(pool, s.no.value, at + Size(s.yes) + 1, c))
  {
    hide Ops, PlainOps, Size;
  }

  lemma {:induction false} OneLineElses(pool: seq<Num>, s: Stmt, d: Draft, q: Draft, level: nat, S: set<Label>)
    requires s.OneLine? && s.no.Some? && OneLiner(s) && InClause(d) &&
        (forall m :: m >= level ==> InlineNo(m) !in S && InlineEnd(m) !in S)
    requires Inv(d, S) && Inv(q, S + {InlineNo(level)})
    requires q == Grow(d, PlainOps(Ops(pool, s.test)) + [Unless(Hole(InlineNo(level)))] +
                          Body(pool, s.yes, |d.code| + CodeLength(s.test) + 1, ContextOf(d)))
    requires Put(q, [Jump(Hole(InlineEnd(level)))]).Some?
    requires var r := Here(Put(q, [Jump(Hole(InlineEnd(level)))]).value, InlineNo(level));
             Compile(true, r, Line(pool, s.no.value), level + 1).Some?
    ensures var r := Here(Put(q, [Jump(Hole(InlineEnd(level)))]).value, InlineNo(level));
            Here(Compile(true, r, Line(pool, s.no.value), level + 1).value, InlineEnd(level))
            == Grow(d, Body(pool, s, |d.code|, ContextOf(d)))
    decreases s, 0
  {
    hide Inv, Absent, Body, Ops, PlainOps, Bind, Size, Here, Compile;
    var l, e := InlineNo(level), InlineEnd(level);
    var at, c := |d.code| + CodeLength(s.test) + 1, ContextOf(d);
    var head, yesCode := PlainOps(Ops(pool, s.test)) + [Unless(Hole(l))], Body(pool, s.yes, at, c);
    var out := at + Size(s.yes) + 1;
    PutGrows(q, [Jump(Hole(e))]);
    GrowTwice(d, head + yesCode, [Jump(Hole(e))]);
    NotOpenAbsent(d, S, l);
    NotOpenAbsent(d, S, e);
    AbsentOne(Jump(Hole(e)), l);
    InlineElses(q, S, l, e);
    InlineBinds(pool, d, s.test, s.yes, l, [Jump(Hole(e))], out);
    var start := PlainOps(Ops(pool, s.test)) + [Unless(At(out))] + yesCode;
    var r := Grow(d, start + [Jump(Hole(e))]);
    LineCompiles(pool, s.no.value, r, level + 1, S + {e});
    var noCode := Body(pool, s.no.value, out, c);
    GrowTwice(d, start + [Jump(Hole(e))], noCode);
    assert start + [Jump(Hole(e))] + noCode == start + ([Jump(Hole(e))] + noCode);
    InlineEnds(pool, d, s.test, s.yes, s.no.value, e, out, out + Size(s.no.value));
    OneLineBoth(pool, s, |d.code|, c);
  }

  // ---------- blocks ----------

  /** An opening statement, what it contains, and a closing statement. */
  lemma {:induction false} CompileThree(d: Draft, first: Statement, inner: seq<Statement>, last: Statement)
    requires CompileAll(d, [first] + inner + [last]).Some?
    ensures var p := Compile(true, d, first, 0);
            p.Some? && CompileAll(p.value, inner).Some? &&
            CompileAll(d, [first] + inner + [last]) == Compile(true, CompileAll(p.value, inner).value, last, 0)
  {
    hide Compile, CompileAll;
    CompileConcat(d, [first] + inner, [last]);
    CompileConcat(d, [first], inner);
    CompileOne(d, first);
    CompileOne(CompileAll(Compile(true, d, first, 0).value, inner).value, last);
  }

  /** Binding the end of a block: its opening code, its body and its closing code. */
  lemma {:induction false} CloseBlock(
      code: seq<Sym>, a: seq<Sym>, a': seq<Sym>, b: seq<Sym>, b': seq<Sym>, e: seq<Sym>, l: Label, pc: int)
    requires Absent(code, l) && Bind(a, l, pc) == a' && Bind(b, l, pc) == b' && Bind(e, l, pc) == e
    ensures Bind(code + a + b + e, l, pc) == code + (a' + b' + e)
  {
    hide Bind, Absent;
    BindConcat(code + a + b, e, l, pc);
    BindConcat(code + a, b, l, pc);
    BindConcat(code, a, l, pc);
    BindAbsent(code, l, pc);
  }

  lemma {:induction false} FrontPush<T>(s: seq<T>, x: T)
    ensures Front(s + [x]) == s && Last(s + [x]) == x
  {}

  lemma {:induction false} OpenedReady(d: Draft, t: Statement)
    requires Ready(d, {}) && Sound(t) && Compile(true, d, t, 0).Some? && InClause(Compile(true, d, t, 0).value)
    ensures Ready(Compile(true, d, t, 0).value, {})
  {
    hide Inv, Compile;
    CompileKeeps(true, d, t, 0, {});
  }

  lemma {:induction false} LoopDispatch(d: Draft)
    requires InClause(d)
    ensures forall t :: Compile(true, d, Do(t), 0) == CompileDo(d, t) && Compile(true, d, Loop(t), 0) == CompileLoop(true, d, t)
    ensures forall ops :: Compile(true, d, While(ops), 0) == CompileWhile(d, ops)
    ensures Compile(true, d, Wend, 0) == CompileWend(true, d)
    ensures forall slot :: Compile(true, d, Next(slot), 0) == CompileNext(true, d, slot)
    ensures forall slot, first, limit, step :: Compile(true, d, For(slot, first, limit, step), 0) == CompileFor(d,
        slot, first, limit, step)
  {
    hide CompileDo, CompileLoop, CompileWhile, CompileWend, CompileNext, CompileFor;
  }

  lemma {:induction false} WhileBinds(pool: seq<Num>, s: Stmt, d: Draft)
    requires s.WhileLoop? && Ready(d, {})
    ensures var ops, k, base, c := Ops(pool, s.test), |d.whiles|, |d.code|, ContextOf(d);
            Bind(d.code + (PlainOps(ops) + [Unless(Hole(WhileEnd(k)))]) + BlockBody(pool, s.body, base + |ops| + 1,
                c) + [Jump(At(base))],
                 WhileEnd(k), base + Size(s)) == d.code + Body(pool, s, base, c)
  {
    hide Inv, Absent, Ops, PlainOps, Bind, BlockBody, Size;
    var ops, k, base, c := Ops(pool, s.test), |d.whiles|, |d.code|, ContextOf(d);
    var at, end := base + |ops| + 1, base + Size(s);
    var body := BlockBody(pool, s.body, at, c);
    NotOpenAbsent(d, {}, WhileEnd(k));
    HeadBinds(ops, WhileEnd(k), end);
    BlockUnbound(pool, s.body, at, c, WhileEnd(k), end);
    BindOne(Jump(At(base)), WhileEnd(k), end);
    CloseBlock(d.code, PlainOps(ops) + [Unless(Hole(WhileEnd(k)))], PlainOps(ops) + [Unless(At(end))], body, body,
        [Jump(At(base))], WhileEnd(k), end);
  }

  lemma {:induction false} WhileOpens(d: Draft, ops: seq<Op>)
    requires Ready(d, {}) && NoBranches(ops) && Compile(true, d, While(ops), 0).Some?
    ensures var e := Compile(true, d, While(ops), 0).value;
            Ready(e, {}) && InClause(e) && ContextOf(e) == ContextOf(d) &&
            e == Grow(d, PlainOps(ops) + [Unless(Hole(WhileEnd(|d.whiles|)))]).(whiles :=
                d.whiles + [WhileBlock(|d.code|, DepthsOf(d))])
  {
    hide Inv, Compile, PlainOps, NoBranches;
    LoopDispatch(d);
    IfSound(ops);
    CompileKeeps(true, d, While(ops), 0, {});
  }

  lemma {:induction false} WendCloses(d: Draft)
    requires InClause(d) && |d.whiles| > 0 && Compile(true, d, Wend, 0).Some?
    ensures Compile(true, d, Wend, 0).value
            == d.(code := Bind(d.code + [Jump(At(Last(d.whiles).start))], WhileEnd(|d.whiles| - 1), |d.code| + 1),
                whiles := Front(d.whiles))
  {
    hide Compile, Bind;
    LoopDispatch(d);
  }

  lemma {:induction false} WhileCompiles(pool: seq<Num>, s: Stmt, d: Draft)
    requires s.WhileLoop? && Shaped(s) && Ready(d, {}) && CompileAll(d, Written(pool, s)).Some?
    ensures CompileAll(d, Written(pool, s)).value == Grow(d, Body(pool, s, |d.code|, ContextOf(d)))
    decreases s, 0
  {
    hide Ready, Sound, Compile, Ops, PlainOps, Bind, CompileAll, WrittenBlock, BlockBody, BlockShaped, Body, NoBranches;
    var ops, c := Ops(pool, s.test), ContextOf(d);
    CompileThree(d, While(ops), WrittenBlock(pool, s.body), Wend);
    var p1 := Compile(true, d, While(ops), 0).value;
    OpsBranchless(pool, s.test);
    WhileOpens(d, ops);
    BlockCompiles(pool, s.body, p1);
    FrontPush(d.whiles, WhileBlock(|d.code|, DepthsOf(d)));
    WendCloses(Grow(p1, BlockBody(pool, s.body, |p1.code|, c)));
    WhileBinds(pool, s, d);
  }

  function ForHead(pool: seq<Num>, s: Stmt, base: int): seq<Op>
    requires s.ForLoop?
  {
    ForHeader(base, s.slot, Ops(pool, s.first), Ops(pool, s.limit), Ops(pool, s.step))
  }

  function NextSlot(s: Stmt): int
    requires s.ForLoop?
  {
    if s.named then s.slot else -1
  }

  /** Binding every way out of a FOR loop. */
  lemma {:induction false} ForBinds(pool: seq<Num>, s: Stmt, d: Draft)
    requires s.ForLoop? && Ready(d, {})
    ensures var k, base, c := |d.fors|, |d.code|, ContextOf(d);
            var header, open := ForHead(pool, s, base), c.(forExit := Hole(ForEnd(k)), fors := c.fors + 1);
            Bind(d.code + (PlainOps(header) + [Jump(Hole(ForEnd(k)))]) + BlockBody(pool, s.body, base + |header| + 1,
                open) +
                 [Plain(Op(ForIncr, 0, 0, NextSlot(s), 0))], ForEnd(k), base + Size(s)) == d.code + Body(pool, s,
                     base, c)
  {
    hide Inv, Absent, Bind, BlockBody, PlainOps, ForHeader, Ops, Size;
    var k, base, c := |d.fors|, |d.code|, ContextOf(d);
    var header, open := ForHead(pool, s, base), c.(forExit := Hole(ForEnd(k)), fors := c.fors + 1);
    var at, end := base + |header| + 1, base + Size(s);
    var inner := c.(forExit := At(end), fors := c.fors + 1);
    BindBlock(pool, s.body, at, open, ForEnd(k), end);
    assert BindContext(open, ForEnd(k), end) == inner;
    NotOpenAbsent(d, {}, ForEnd(k));
    SkipBinds(header, ForEnd(k), end);
    var next := Plain(Op(ForIncr, 0, 0, NextSlot(s), 0));
    BindOne(next, ForEnd(k), end);
    HeaderLength(base, s.slot, Ops(pool, s.first), Ops(pool, s.limit), Ops(pool, s.step));
    CloseBlock(d.code, PlainOps(header) + [Jump(Hole(ForEnd(k)))], PlainOps(header) + [Jump(At(end))],
               BlockBody(pool, s.body, at, open), BlockBody(pool, s.body, at, inner), [next], ForEnd(k), end);
  }

  lemma {:induction false} ForOpens(pool: seq<Num>, s: Stmt, d: Draft)
    requires s.ForLoop? && Ready(d, {}) && Compile(true, d, For(s.slot, Ops(pool, s.first), Ops(pool, s.limit),
        Ops(pool, s.step)), 0).Some?
    ensures var e := Compile(true, d, For(s.slot, Ops(pool, s.first), Ops(pool, s.limit), Ops(pool, s.step)), 0).value;
            Ready(e, {}) && InClause(e) && ContextOf(e) == ContextOf(d).(forExit :=
                Hole(ForEnd(|d.fors|)), fors := |d.fors| + 1) &&
            e == Grow(d, PlainOps(ForHead(pool, s, |d.code|)) + [Jump(Hole(ForEnd(|d.fors|)))])
                   .(fors := d.fors + [ForBlock(s.slot, DepthsOf(d))])
  {
    hide Inv, Compile, PlainOps, Ops, NoBranches, ForHeader, Sound;
    LoopDispatch(d);
    ForSound(pool, s.slot, s.first, s.limit, s.step);
    CompileKeeps(true, d, For(s.slot, Ops(pool, s.first), Ops(pool, s.limit), Ops(pool, s.step)), 0, {});
  }

  lemma {:induction false} NextCloses(d: Draft, slot: int)
    requires InClause(d) && |d.fors| > 0 && Compile(true, d, Next(slot), 0).Some?
    ensures Compile(true, d, Next(slot), 0).value
            == d.(code := Bind(d.code + [Plain(Op(ForIncr, 0, 0, slot, 0))], ForEnd(|d.fors| - 1), |d.code| + 1),
                fors := Front(d.fors))
  {
    hide Compile, Bind;
    LoopDispatch(d);
  }

  lemma {:induction false} ForCompiles(pool: seq<Num>, s: Stmt, d: Draft)
    requires s.ForLoop? && Shaped(s) && Ready(d, {}) && CompileAll(d, Written(pool, s)).Some?
    ensures CompileAll(d, Written(pool, s)).value == Grow(d, Body(pool, s, |d.code|, ContextOf(d)))
    decreases s, 0
  {
    hide Ready, Sound, Compile, Ops, PlainOps, Bind, CompileAll, WrittenBlock, BlockBody, BlockShaped, ForHeader, Body;
    var first, limit, step := Ops(pool, s.first), Ops(pool, s.limit), Ops(pool, s.step);
    CompileThree(d, For(s.slot, first, limit, step), WrittenBlock(pool, s.body), Next(NextSlot(s)));
    HeaderLength(|d.code|, s.slot, first, limit, step);
    var p1 := Compile(true, d, For(s.slot, first, limit, step), 0).value;
    ForOpens(pool, s, d);
    BlockCompiles(pool, s.body, p1);
    FrontPush(d.fors, ForBlock(s.slot, DepthsOf(d)));
    NextCloses(Grow(p1, BlockBody(pool, s.body, |p1.code|, ContextOf(p1))), NextSlot(s));
    ForBinds(pool, s, d);
  }

  lemma {:induction false} HeaderLength(base: int, slot: int, first: seq<Op>, limit: seq<Op>, step: seq<Op>)
    ensures |ForHeader(base, slot, first, limit, step)| == |first| + |limit| + |step| + 3
  {}

  lemma {:induction false} SkipBinds(ops: seq<Op>, l: Label, pc: int)
    ensures Bind(PlainOps(ops) + [Jump(Hole(l))], l, pc) == PlainOps(ops) + [Jump(At(pc))]
  {}

  /** Binding every way out of a DO loop. */
  lemma {:induction false} DoBinds(pool: seq<Num>, s: Stmt, d: Draft)
    requires s.DoLoop? && Ready(d, {})
    ensures var k, base, c := |d.dos|, |d.code|, ContextOf(d);
            var open := c.(doExit := Hole(DoEnd(k)), doFors := c.fors);
            Bind(d.code + EntryCode(pool, s.entry, Hole(DoEnd(k))) + BlockBody(pool, s.body, base
                + TestSize(s.entry), open) +
                 BackCode(pool, s.until, base), DoEnd(k), base + Size(s)) == d.code + Body(pool, s, base, c)
  {
    hide Inv, Absent, Bind, BlockBody, EntryCode, BackCode, Size;
    var k, base, c := |d.dos|, |d.code|, ContextOf(d);
    var open := c.(doExit := Hole(DoEnd(k)), doFors := c.fors);
    var at, end := base + TestSize(s.entry), base + Size(s);
    var inner := c.(doExit := At(end), doFors := c.fors);
    BindBlock(pool, s.body, at, open, DoEnd(k), end);
    assert BindContext(open, DoEnd(k), end) == inner;
    NotOpenAbsent(d, {}, DoEnd(k));
    EntryBinds(pool, s.entry, DoEnd(k), end);
    BackSettled(pool, s.until, base);
    BindSettled(BackCode(pool, s.until, base), DoEnd(k), end);
    CloseBlock(d.code, EntryCode(pool, s.entry, Hole(DoEnd(k))), EntryCode(pool, s.entry, At(end)),
               BlockBody(pool, s.body, at, open), BlockBody(pool, s.body, at, inner), BackCode(pool, s.until, base),
                   DoEnd(k), end);
  }

  lemma {:induction false} DoCompiles(pool: seq<Num>, s: Stmt, d: Draft)
    requires s.DoLoop? && Shaped(s) && Ready(d, {}) && CompileAll(d, Written(pool, s)).Some?
    ensures CompileAll(d, Written(pool, s)).value == Grow(d, Body(pool, s, |d.code|, ContextOf(d)))
    decreases s, 0
  {
    hide Ready, Sound, Bind, Compile, CompileAll, WrittenBlock, BlockBody, BlockShaped, TestOf, EntryCode, BackCode,
        Body;
    var base := |d.code|;
    CompileThree(d, Do(TestOf(pool, s.entry)), WrittenBlock(pool, s.body), Loop(TestOf(pool, s.until)));
    var p1 := Compile(true, d, Do(TestOf(pool, s.entry)), 0).value;
    DoOpens(pool, s.entry, d);
    BlockCompiles(pool, s.body, p1);
    FrontPush(d.dos, DoBlock(base, DepthsOf(d)));
    LoopCloses(pool, s.until, Grow(p1, BlockBody(pool, s.body, base + TestSize(s.entry), ContextOf(p1))));
    DoBinds(pool, s, d);
  }

  lemma {:induction false} DoOpens(pool: seq<Num>, test: Option<Expr>, d: Draft)
    requires Ready(d, {}) && Compile(true, d, Do(TestOf(pool, test)), 0).Some?
    ensures var e := Compile(true, d, Do(TestOf(pool, test)), 0).value;
            Ready(e, {}) && InClause(e) && ContextOf(e) == ContextOf(d).(doExit := Hole(DoEnd(|d.dos|)), doFors :=
                |d.fors|) &&
            e == Grow(d, EntryCode(pool, test, Hole(DoEnd(|d.dos|)))).(dos := d.dos + [DoBlock(|d.code|, DepthsOf(d))])
  {
    hide Inv, Compile, Ops, Sound;
    LoopDispatch(d);
    TestSound(pool, test);
    CompileKeeps(true, d, Do(TestOf(pool, test)), 0, {});
    assert d.code + [] == d.code;
  }

  lemma {:induction false} LoopCloses(pool: seq<Num>, test: Option<Expr>, d: Draft)
    requires InClause(d) && |d.dos| > 0 && Compile(true, d, Loop(TestOf(pool, test)), 0).Some?
    ensures Compile(true, d, Loop(TestOf(pool, test)), 0).value
            == Here(Grow(d, BackCode(pool, test, Last(d.dos).start)), DoEnd(|d.dos| - 1)).(dos := Front(d.dos))
  {
    hide Ops, Bind, Compile;
    LoopDispatch(d);
  }

  lemma {:induction false} EntryBinds(pool: seq<Num>, test: Option<Expr>, l: Label, pc: int)
    ensures Bind(EntryCode(pool, test, Hole(l)), l, pc) == EntryCode(pool, test, At(pc))
  {
    if test.Some? { HeadBinds(Ops(pool, test.value), l, pc); }
  }

  lemma {:induction false} BlockCompiles(pool: seq<Num>, b: Block, d: Draft)
    requires BlockShaped(b) && Ready(d, {}) && CompileAll(d, WrittenBlock(pool, b)).Some?
    ensures CompileAll(d, WrittenBlock(pool, b)).value == Grow(d, BlockBody(pool, b, |d.code|, ContextOf(d)))
    decreases b, 0
  {
    hide Inv, Compile, Body, Written, Shaped;
    if b.Nil? {
      assert d.code + [] == d.code;
    } else {
      CompileConcat(d, Written(pool, b.head), WrittenBlock(pool, b.tail));
      StmtCompiles(pool, b.head, d);
      WrittenSound(pool, b.head);
      AllKeeps(d, Written(pool, b.head), {});
      var p := Grow(d, Body(pool, b.head, |d.code|, ContextOf(d)));
      BlockCompiles(pool, b.tail, p);
      GrowTwice(d, Body(pool, b.head, |d.code|, ContextOf(d)), BlockBody(pool, b.tail, |p.code|, ContextOf(p)));
    }
  }

  lemma {:induction false} StmtCompiles(pool: seq<Num>, s: Stmt, d: Draft)
    requires Shaped(s) && Ready(d, {}) && CompileAll(d, Written(pool, s)).Some?
    ensures CompileAll(d, Written(pool, s)).value == Grow(d, Body(pool, s, |d.code|, ContextOf(d)))
    decreases s, 1
  {
    hide Inv, Compile, Body, CompileAll, Line;
    match s
    case WhileLoop(_, _) => WhileCompiles(pool, s, d);
    case ForLoop(_, _, _, _, _, _) => ForCompiles(pool, s, d);
    case DoLoop(_, _, _) => DoCompiles(pool, s, d);
    case Choose(_) => ChooseCompiles(pool, s, d);
    case SelectCase(_, _) => SelectCompiles(pool, s, d);
    case _ => CompileOne(d, Line(pool, s)); LineCompiles(pool, s, d, 0, {});
  }

  // ---------- IF ----------

  /** Where the failed test of the arm before `rest` leads, and where the IF ends. */
  function NextAt(at: int, rest: Arms): int { at + if Final(rest) then 0 else 1 }
  function EndAt(at: int, rest: Arms): int { at + if Final(rest) then 0 else 1 + ArmsSize(rest) }

  function ArmsTail(pool: seq<Num>, rest: Arms, at: int, c: Context): seq<Sym> {
    if Final(rest) then [] else [Jump(At(EndAt(at, rest)))] + ArmsBody(pool, rest, NextAt(at, rest), EndAt(at, rest), c)
  }

  lemma {:induction false} ElseBinds(code: seq<Sym>, k: nat)
    ensures Bind(code + [Jump(Hole(IfEnd(k)))], IfNext(k), |code| + 1) == Bind(code, IfNext(k), |code| + 1)
        + [Jump(Hole(IfEnd(k)))]
  {
    hide Bind;
    BindConcat(code, [Jump(Hole(IfEnd(k)))], IfNext(k), |code| + 1);
    BindOne(Jump(Hole(IfEnd(k))), IfNext(k), |code| + 1);
  }

  /** ELSE, with a test or without. */
  lemma {:induction false} ElseCompiles(d: Draft, cond: Option<seq<Op>>)
    requires CompileElse(d, cond).Some?
    ensures var k := |d.ifs| - 1;
            var code := Bind(d.code, IfNext(k), |d.code| + 1) + [Jump(Hole(IfEnd(k)))];
            CompileElse(d, cond).value ==
              if cond.Some? then d.(code := code + (PlainOps(cond.value) + [Unless(Hole(IfNext(k)))]))
              else d.(code := code, ifs := Front(d.ifs) + [Last(d.ifs).(pending := false, seenElse := true)])
  {
    hide Bind, PlainOps;
    ElseBinds(d.code, |d.ifs| - 1);
  }

  lemma {:induction false} EndIfCompiles(d: Draft)
    requires CompileEndIf(d).Some?
    ensures var k := |d.ifs| - 1;
            CompileEndIf(d).value.(code := []) == d.(code := [], ifs := Front(d.ifs)) &&
            CompileEndIf(d).value.code ==
              Bind(if Last(d.ifs).pending then Bind(d.code, IfNext(k), |d.code|) else d.code, IfEnd(k), |d.code|)
  {
    hide Bind;
  }

  /** Binding the labels of an IF over one more arm. */
  lemma {:induction false} ArmBinds(code: seq<Sym>, ops: seq<Op>, body: seq<Sym>, k: nat, next: int, end: int)
    requires Absent(code, IfNext(k)) && Bind(body, IfNext(k), next) == body && Bind(body, IfEnd(k), end) == body
    ensures Bind(Bind(code + [Jump(Hole(IfEnd(k)))] + (PlainOps(ops) + [Unless(Hole(IfNext(k)))]) + body, IfNext(k),
        next), IfEnd(k), end)
            == Bind(code, IfEnd(k), end) + [Jump(At(end))] + (PlainOps(ops) + [Unless(At(next))]) + body
  {
    hide Bind, Absent;
    var jump, test, done := [Jump(Hole(IfEnd(k)))], PlainOps(ops) + [Unless(Hole(IfNext(k)))], PlainOps(ops)
        + [Unless(At(next))];
    BindConcat(code + jump + test, body, IfNext(k), next);
    BindConcat(code + jump, test, IfNext(k), next);
    BindConcat(code, jump, IfNext(k), next);
    BindAbsent(code, IfNext(k), next);
    BindOne(Jump(Hole(IfEnd(k))), IfNext(k), next);
    HeadBinds(ops, IfNext(k), next);
    BindConcat(code + jump + done, body, IfEnd(k), end);
    BindConcat(code + jump, done, IfEnd(k), end);
    BindConcat(code, jump, IfEnd(k), end);
    BindOne(Jump(Hole(IfEnd(k))), IfEnd(k), end);
    DoneBinds(ops, next, IfEnd(k), end);
  }

  lemma {:induction false} DoneBinds(ops: seq<Op>, next: int, l: Label, pc: int)
    ensures Bind(PlainOps(ops) + [Unless(At(next))], l, pc) == PlainOps(ops) + [Unless(At(next))]
  {}

  lemma {:induction false} BoundAbsent(code: seq<Sym>, l: Label, pc: int)
    ensures Absent(Bind(code, l, pc), l)
  {}

  lemma {:induction false} ArmsCompile(pool: seq<Num>, rest: Arms, d: Draft)
    requires ArmsShaped(rest) && Ready(d, {}) && |d.ifs| > 0 && Last(d.ifs).pending && !Last(d.ifs).seenElse
    requires CompileAll(d, WrittenArms(pool, rest) + [EndIf]).Some?
    ensures var k, n := |d.ifs| - 1, |d.code|;
            CompileAll(d, WrittenArms(pool, rest) + [EndIf]).value
            == d.(code := Bind(Bind(d.code, IfNext(k), NextAt(n, rest)), IfEnd(k), EndAt(n, rest)) + ArmsTail(pool,
                rest, n, ContextOf(d)),
                  ifs := Front(d.ifs))
    decreases rest
  {
    hide Inv, Bind, CompileAll, WrittenBlock, BlockBody, BlockShaped, Ops, PlainOps, Compile;
    if rest.Arm? {
      NextArm(pool, rest, d);
    } else if rest.other.Some? {
      LastArm(pool, rest, d);
    } else {
      assert WrittenArms(pool, rest) + [EndIf] == [EndIf];
      CompileOne(d, EndIf);
      EndIfOf(d);
      EndIfCompiles(d);
      var code := Bind(Bind(d.code, IfNext(|d.ifs| - 1), |d.code|), IfEnd(|d.ifs| - 1), |d.code|);
      assert code + [] == code;
    }
  }

  lemma {:induction false} EndIfOf(d: Draft)
    requires InClause(d)
    ensures Compile(true, d, EndIf, 0) == CompileEndIf(d) && Compile(true, d, Else, 0) == CompileElse(d, None)
    ensures forall ops :: Compile(true, d, ElseIf(ops), 0) == CompileElse(d, Some(ops))
  {
    hide CompileEndIf, CompileElse;
  }

  lemma {:induction false} ElseOpens(d: Draft)
    requires Ready(d, {}) && |d.ifs| > 0 && Compile(true, d, Else, 0).Some?
    ensures var k, e := |d.ifs| - 1, Compile(true, d, Else, 0).value;
            Ready(e, {}) && e == d.(code := Bind(d.code, IfNext(k), |d.code| + 1) + [Jump(Hole(IfEnd(k)))],
                                    ifs := Front(d.ifs) + [Last(d.ifs).(pending := false, seenElse := true)])
  {
    hide Inv, Bind, Compile, CompileElse;
    EndIfOf(d);
    ElseCompiles(d, None);
    CompileKeeps(true, d, Else, 0, {});
  }

  /** ELSE and its body. */
  lemma {:induction false} OtherArm(pool: seq<Num>, other: Block, d: Draft)
    requires BlockShaped(other) && Ready(d, {}) && |d.ifs| > 0 &&
        CompileAll(d, [Else] + WrittenBlock(pool, other)).Some?
    ensures var k, n := |d.ifs| - 1, |d.code|;
            CompileAll(d, [Else] + WrittenBlock(pool, other)).value
            == d.(code := Bind(d.code, IfNext(k), n + 1) + [Jump(Hole(IfEnd(k)))] + BlockBody(pool, other, n + 1,
                ContextOf(d)),
                  ifs := Front(d.ifs) + [Last(d.ifs).(pending := false, seenElse := true)])
    decreases Otherwise(Some(other)), 0
  {
    hide Ready, Bind, CompileAll, WrittenBlock, BlockBody, BlockShaped, Compile, CompileElse, Sound;
    CompileConcat(d, [Else], WrittenBlock(pool, other));
    CompileOne(d, Else);
    ElseOpens(d);
    var e := Compile(true, d, Else, 0).value;
    BlockCompiles(pool, other, e);
    assert ContextOf(e) == ContextOf(d);
  }

  lemma {:induction false} LastArmBinds(pool: seq<Num>, code: seq<Sym>, other: Block, k: nat, c: Context, end: int)
    requires c.forExit != Hole(IfEnd(k)) && c.doExit != Hole(IfEnd(k))
    ensures var body := BlockBody(pool, other, |code| + 1, c);
            Bind(code + [Jump(Hole(IfEnd(k)))] + body, IfEnd(k), end) == Bind(code, IfEnd(k), end)
                + ([Jump(At(end))] + body)
  {
    hide Bind, BlockBody;
    var body := BlockBody(pool, other, |code| + 1, c);
    BlockUnbound(pool, other, |code| + 1, c, IfEnd(k), end);
    BindConcat(code + [Jump(Hole(IfEnd(k)))], body, IfEnd(k), end);
    BindConcat(code, [Jump(Hole(IfEnd(k)))], IfEnd(k), end);
    BindOne(Jump(Hole(IfEnd(k))), IfEnd(k), end);
    RegroupThree(Bind(code, IfEnd(k), end), [Jump(At(end))], body);
  }

  lemma {:induction false} LastArm(pool: seq<Num>, rest: Arms, d: Draft)
    requires rest.Otherwise? && rest.other.Some? && BlockShaped(rest.other.value) && Ready(d, {}) &&
        |d.ifs| > 0 && Last(d.ifs).pending && !Last(d.ifs).seenElse
    requires CompileAll(d, [Else] + WrittenBlock(pool, rest.other.value) + [EndIf]).Some?
    ensures var k, n, other := |d.ifs| - 1, |d.code|, rest.other.value;
            var end := n + 1 + BlockSize(other);
            CompileAll(d, [Else] + WrittenBlock(pool, other) + [EndIf]).value
            == d.(code := Bind(Bind(d.code, IfNext(k), n + 1), IfEnd(k), end) + ([Jump(At(end))] + BlockBody(pool,
                other, n + 1, ContextOf(d))),
                  ifs := Front(d.ifs))
    decreases rest, 1
  {
    hide Inv, Bind, CompileAll, WrittenBlock, BlockBody, BlockShaped, Compile, CompileEndIf;
    var k, n, other := |d.ifs| - 1, |d.code|, rest.other.value;
    CompileConcat(d, [Else] + WrittenBlock(pool, other), [EndIf]);
    OtherArm(pool, other, d);
    FrontPush(Front(d.ifs), Last(d.ifs).(pending := false, seenElse := true));
    var e := CompileAll(d, [Else] + WrittenBlock(pool, other)).value;
    CompileOne(e, EndIf);
    EndIfOf(e);
    EndIfCompiles(e);
    LastArmBinds(pool, Bind(d.code, IfNext(k), n + 1), other, k, ContextOf(d), n + 1 + BlockSize(other));
  }

  lemma {:induction false} ElseIfOpens(d: Draft, ops: seq<Op>)
    requires Ready(d, {}) && |d.ifs| > 0 && NoBranches(ops) && Compile(true, d, ElseIf(ops), 0).Some?
    ensures var k, e := |d.ifs| - 1, Compile(true, d, ElseIf(ops), 0).value;
            Ready(e, {}) && e == d.(code := Bind(d.code, IfNext(k), |d.code| + 1) + [Jump(Hole(IfEnd(k)))]
                + (PlainOps(ops) + [Unless(Hole(IfNext(k)))]))
  {
    hide Inv, Bind, Compile, CompileElse, NoBranches, PlainOps;
    EndIfOf(d);
    ElseCompiles(d, Some(ops));
    IfSound(ops);
    CompileKeeps(true, d, ElseIf(ops), 0, {});
  }

  /** ELSEIF and its body. */
  lemma {:induction false} OneArm(pool: seq<Num>, test: Expr, arm: Block, d: Draft)
    requires BlockShaped(arm) && Ready(d, {}) && |d.ifs| > 0 &&
        CompileAll(d, [ElseIf(Ops(pool, test))] + WrittenBlock(pool, arm)).Some?
    ensures var k, n, ops := |d.ifs| - 1, |d.code|, Ops(pool, test);
            var e := CompileAll(d, [ElseIf(ops)] + WrittenBlock(pool, arm)).value;
            Ready(e, {}) &&
            e == d.(code := Bind(d.code, IfNext(k), n + 1) + [Jump(Hole(IfEnd(k)))] + (PlainOps(ops)
                + [Unless(Hole(IfNext(k)))]) +
                            BlockBody(pool, arm, n + 1 + |ops| + 1, ContextOf(d)))
    decreases arm, 1
  {
    hide Inv, Bind, CompileAll, WrittenBlock, BlockBody, BlockShaped, Compile, Ops, PlainOps, NoBranches, Sound;
    var ops := Ops(pool, test);
    CompileConcat(d, [ElseIf(ops)], WrittenBlock(pool, arm));
    CompileOne(d, ElseIf(ops));
    OpsBranchless(pool, test);
    ElseIfOpens(d, ops);
    var e := Compile(true, d, ElseIf(ops), 0).value;
    BlockCompiles(pool, arm, e);
    BlockSound(pool, arm);
    AllKeeps(e, WrittenBlock(pool, arm), {});
  }

  lemma {:induction false} NextArm(pool: seq<Num>, rest: Arms, d: Draft)
    requires rest.Arm? && ArmsShaped(rest) && Ready(d, {}) && |d.ifs| > 0 && Last(d.ifs).pending &&
        !Last(d.ifs).seenElse
    requires CompileAll(d, WrittenArms(pool, rest) + [EndIf]).Some?
    ensures var k, n := |d.ifs| - 1, |d.code|;
            CompileAll(d, WrittenArms(pool, rest) + [EndIf]).value
            == d.(code := Bind(Bind(d.code, IfNext(k), NextAt(n, rest)), IfEnd(k), EndAt(n, rest)) + ArmsTail(pool,
                rest, n, ContextOf(d)),
                  ifs := Front(d.ifs))
    decreases rest, 0
  {
    hide Ready, Bind, CompileAll, WrittenBlock, BlockBody, BlockShaped, Ops, PlainOps, Compile, Absent, ArmsTail,
        NextAt, EndAt;
    var ops := Ops(pool, rest.test);
    var later := WrittenArms(pool, rest.rest) + [EndIf];
    assert WrittenArms(pool, rest) + [EndIf] == [ElseIf(ops)] + WrittenBlock(pool, rest.body) + later;
    CompileConcat(d, [ElseIf(ops)] + WrittenBlock(pool, rest.body), later);
    OneArm(pool, rest.test, rest.body, d);
    var e := CompileAll(d, [ElseIf(ops)] + WrittenBlock(pool, rest.body)).value;
    assert ContextOf(e) == ContextOf(d);
    ArmsCompile(pool, rest.rest, e);
    NextArmBinds(pool, rest, d.code, |d.ifs| - 1, ContextOf(d));
  }

  lemma {:induction false} NextArmBinds(pool: seq<Num>, rest: Arms, was: seq<Sym>, k: nat, c: Context)
    requires rest.Arm? && c.forExit != Hole(IfNext(k)) && c.doExit != Hole(IfNext(k)) &&
        c.forExit != Hole(IfEnd(k)) && c.doExit != Hole(IfEnd(k))
    ensures var n, ops := |was|, Ops(pool, rest.test);
            var at := n + 1 + |ops| + 1;
            var body := BlockBody(pool, rest.body, at, c);
            var code := Bind(was, IfNext(k), n + 1) + [Jump(Hole(IfEnd(k)))] + (PlainOps(ops)
                + [Unless(Hole(IfNext(k)))]) + body;
            Bind(Bind(code, IfNext(k), NextAt(|code|, rest.rest)), IfEnd(k), EndAt(|code|, rest.rest))
                + ArmsTail(pool, rest.rest, |code|, c)
            == Bind(Bind(was, IfNext(k), NextAt(n, rest)), IfEnd(k), EndAt(n, rest)) + ArmsTail(pool, rest, n, c)
  {
    hide Bind, BlockBody, Ops, PlainOps, Absent;
    var n, ops := |was|, Ops(pool, rest.test);
    var at := n + 1 + |ops| + 1;
    var body := BlockBody(pool, rest.body, at, c);
    var end := EndAt(n, rest);
    var next := NextAt(at + BlockSize(rest.body), rest.rest);
    BoundAbsent(was, IfNext(k), n + 1);
    BlockUnbound(pool, rest.body, at, c, IfNext(k), next);
    BlockUnbound(pool, rest.body, at, c, IfEnd(k), end);
    ArmBinds(Bind(was, IfNext(k), n + 1), ops, body, k, next, end);
    var front := Bind(Bind(was, IfNext(k), n + 1), IfEnd(k), end);
    var test, tail := PlainOps(ops) + [Unless(At(next))], ArmsTail(pool, rest.rest, at + BlockSize(rest.body), c);
    assert front + [Jump(At(end))] + test + body + tail == front + ([Jump(At(end))] + (test + body + tail));
  }

  lemma {:induction false} IfCompiles(d: Draft, ops: seq<Op>)
    requires InClause(d) && Compile(true, d, If(ops), 0).Some?
    ensures Compile(true, d, If(ops), 0).value
            == Grow(d, PlainOps(ops) + [Unless(Hole(IfNext(|d.ifs|)))]).(ifs :=
                d.ifs + [IfBlock(true, false, DepthsOf(d))])
  {
    hide PlainOps;
  }

  /** The first arm, up to the statement after its body. */
  lemma {:induction false} FirstArm(pool: seq<Num>, arms: Arms, d: Draft)
    requires arms.Arm? && ArmsShaped(arms) && Ready(d, {}) &&
        CompileAll(d, [If(Ops(pool, arms.test))] + WrittenBlock(pool, arms.body)).Some?
    ensures var ops, k := Ops(pool, arms.test), |d.ifs|;
            var e := CompileAll(d, [If(ops)] + WrittenBlock(pool, arms.body)).value;
            Ready(e, {}) &&
            e == d.(code := d.code + (PlainOps(ops) + [Unless(Hole(IfNext(k)))]) + BlockBody(pool, arms.body,
                |d.code| + |ops| + 1, ContextOf(d)),
                    ifs := d.ifs + [IfBlock(true, false, DepthsOf(d))])
    decreases arms, 0
  {
    hide Inv, CompileAll, WrittenBlock, BlockBody, Ops, PlainOps, Compile, NoBranches, BlockShaped;
    var ops, c, k := Ops(pool, arms.test), ContextOf(d), |d.ifs|;
    CompileConcat(d, [If(ops)], WrittenBlock(pool, arms.body));
    CompileOne(d, If(ops));
    IfCompiles(d, ops);
    var p1 := Compile(true, d, If(ops), 0).value;
    OpsBranchless(pool, arms.test);
    IfSound(ops);
    OpenedReady(d, If(ops));
    ArmShaped(arms);
    BlockCompiles(pool, arms.body, p1);
    BlockSound(pool, arms.body);
    AllKeeps(p1, WrittenBlock(pool, arms.body), {});
  }

  lemma {:induction false} ChooseCompiles(pool: seq<Num>, s: Stmt, d: Draft)
    requires s.Choose? && Shaped(s) && Ready(d, {}) && CompileAll(d, Written(pool, s)).Some?
    ensures CompileAll(d, Written(pool, s)).value == Grow(d, Body(pool, s, |d.code|, ContextOf(d)))
    decreases s, 0
  {
    hide Inv, Bind, CompileAll, WrittenBlock, BlockBody, Ops, PlainOps, Absent, WrittenArms, ArmsShaped, ArmsBody,
        ArmsTail, ArmsSize;
    var arms := s.arms;
    var ops, c, k := Ops(pool, arms.test), ContextOf(d), |d.ifs|;
    var later := WrittenArms(pool, arms.rest) + [EndIf];
    assert Written(pool, s) == [If(ops)] + WrittenBlock(pool, arms.body) + later;
    CompileConcat(d, [If(ops)] + WrittenBlock(pool, arms.body), later);
    FirstArm(pool, arms, d);
    ArmShaped(arms);
    FrontPush(d.ifs, IfBlock(true, false, DepthsOf(d)));
    ArmsCompile(pool, arms.rest, CompileAll(d, [If(ops)] + WrittenBlock(pool, arms.body)).value);
    NotOpenAbsent(d, {}, IfNext(k));
    NotOpenAbsent(d, {}, IfEnd(k));
    ChooseBinds(pool, arms, d.code, k, c);
  }

  lemma {:induction false} ArmShaped(a: Arms)
    requires a.Arm? && ArmsShaped(a)
    ensures BlockShaped(a.body) && ArmsShaped(a.rest)
  {}

  lemma {:induction false} ArmsUnfold(pool: seq<Num>, arms: Arms, base: int, c: Context)
    requires arms.Arm?
    ensures var at := base + CodeLength(arms.test) + 1;
            var n := at + BlockSize(arms.body);
            EndAt(n, arms.rest) == base + ArmsSize(arms) &&
            ArmsBody(pool, arms, base, base + ArmsSize(arms), c)
            == PlainOps(Ops(pool, arms.test)) + [Unless(At(NextAt(n, arms.rest)))] + BlockBody(pool, arms.body, at,
                c) + ArmsTail(pool, arms.rest, n, c)
  {
    hide BlockBody, Ops, PlainOps;
  }

  lemma {:induction false} ChooseBinds(pool: seq<Num>, arms: Arms, was: seq<Sym>, k: nat, c: Context)
    requires arms.Arm? && c.forExit != Hole(IfNext(k)) && c.doExit != Hole(IfNext(k)) &&
        c.forExit != Hole(IfEnd(k)) && c.doExit != Hole(IfEnd(k))
    requires Absent(was, IfNext(k)) && Absent(was, IfEnd(k))
    ensures var ops, base := Ops(pool, arms.test), |was|;
            var code := was + (PlainOps(ops) + [Unless(Hole(IfNext(k)))]) + BlockBody(pool, arms.body, base
                + |ops| + 1, c);
            Bind(Bind(code, IfNext(k), NextAt(|code|, arms.rest)), IfEnd(k), EndAt(|code|, arms.rest))
                + ArmsTail(pool, arms.rest, |code|, c)
            == was + ArmsBody(pool, arms, base, base + ArmsSize(arms), c)
  {
    hide Bind, BlockBody, Ops, PlainOps, Absent, ArmsBody, ArmsTail, ArmsSize, NextAt, EndAt, BlockSize;
    var ops, base := Ops(pool, arms.test), |was|;
    var at := base + |ops| + 1;
    var body := BlockBody(pool, arms.body, at, c);
    var n := at + BlockSize(arms.body);
    var next, end := NextAt(n, arms.rest), EndAt(n, arms.rest);
    var done := PlainOps(ops) + [Unless(At(next))];
    BlockUnbound(pool, arms.body, at, c, IfNext(k), next);
    BlockUnbound(pool, arms.body, at, c, IfEnd(k), end);
    HeadBinds(ops, IfNext(k), next);
    DoneBinds(ops, next, IfEnd(k), end);
    CloseTwo(was, PlainOps(ops) + [Unless(Hole(IfNext(k)))], done, body, IfNext(k), next);
    CloseTwo(was, done, done, body, IfEnd(k), end);
    ArmsUnfold(pool, arms, base, c);
    RegroupFour(was, done, body, ArmsTail(pool, arms.rest, n, c));
  }

  lemma {:induction false} RegroupFour(a: seq<Sym>, b: seq<Sym>, c: seq<Sym>, d: seq<Sym>)
    ensures a + b + c + d == a + (b + c + d)
  {}

  lemma {:induction false} CloseTwo(code: seq<Sym>, a: seq<Sym>, a': seq<Sym>, b: seq<Sym>, l: Label, pc: int)
    requires Absent(code, l) && Bind(a, l, pc) == a' && Bind(b, l, pc) == b
    ensures Bind(code + a + b, l, pc) == code + a' + b
  {
    hide Bind, Absent;
    BindConcat(code + a, b, l, pc);
    BindConcat(code, a, l, pc);
    BindAbsent(code, l, pc);
  }

  // ---------- SELECT ----------

  lemma {:induction false} BindClause(items: seq<Item>, base: int, l: Label, m: Label, pc: int)
    ensures Bind(Clause(items, base, Hole(l)), m, pc) == Clause(items, base, BindTarget(Hole(l), m, pc))
  {
    hide Tests;
    var n := TestsLength(items);
    TestsSettled(items, base, base + n + 1);
    BindSettled(Tests(items, base, At(base + n + 1)), m, pc);
    BindConcat(Tests(items, base, At(base + n + 1)), [Jump(Hole(l)), Plain(Simple(Drop))], m, pc);
    assert Bind([Jump(Hole(l)), Plain(Simple(Drop))], m, pc) == [Jump(BindTarget(Hole(l), m, pc)), Plain(Simple(Drop))];
  }

  /** The code up to the end of a clause, once the next one has been found. */
  function Turned(code: seq<Sym>, k: nat): seq<Sym> {
    Bind(code, CaseNext(k), |code| + 1) + [Jump(Hole(SelectEnd(k)))]
  }

  lemma {:induction false} NextClauseTurns(d: Draft)
    requires |d.selects| > 0 && NextClause(d).Some?
    ensures NextClause(d).value == d.(code := Turned(d.code, |d.selects| - 1))
  {
    hide Bind;
    var k := |d.selects| - 1;
    BindConcat(d.code, [Jump(Hole(SelectEnd(k)))], CaseNext(k), |d.code| + 1);
    BindOne(Jump(Hole(SelectEnd(k))), CaseNext(k), |d.code| + 1);
  }

  lemma {:induction false} CaseCompiles(d: Draft, items: seq<Item>)
    requires CompileCase(d, items).Some?
    ensures var k, top := |d.selects| - 1, Last(d.selects);
            var code := if top.seenCase then Turned(d.code, k) else d.code;
            CompileCase(d, items).value
            == d.(code := code + Clause(items, |code|, Hole(CaseNext(k))),
                  selects := Front(d.selects) + [top.(pending := true, seenCase := true)])
  {
    hide Bind, Clause, NextClause, Turned;
    if Last(d.selects).seenCase { NextClauseTurns(d); }
  }

  lemma {:induction false} CaseElseCompiles(d: Draft)
    requires CompileCaseElse(d).Some?
    ensures var k, top := |d.selects| - 1, Last(d.selects);
            var code := if top.seenCase then Turned(d.code, k) else d.code;
            CompileCaseElse(d).value
            == d.(code := code + [Plain(Simple(Drop))],
                  selects := Front(d.selects) + [top.(pending := false, seenCase := true, seenElse := true)])
  {
    hide Bind, NextClause, Turned;
    if Last(d.selects).seenCase { NextClauseTurns(d); }
  }

  lemma {:induction false} EndSelectCompiles(d: Draft)
    requires CompileEndSelect(d).Some?
    ensures var k, top := |d.selects| - 1, Last(d.selects);
            var code := if top.seenElse then d.code else Turned(d.code, k) + [Plain(Simple(Drop))];
            CompileEndSelect(d).value == d.(code := Bind(code, SelectEnd(k), |code|), selects := Front(d.selects))
  {
    hide Bind, NextClause, Turned;
    if !Last(d.selects).seenElse { NextClauseTurns(d); }
  }

  lemma {:induction false} SelectDispatch(d: Draft)
    ensures Compile(true, d, EndSelect, 0) == CompileEndSelect(d) && Compile(true, d, CaseElse, 0) == CompileCaseElse(d)
    ensures forall items :: Compile(true, d, Case(items), 0) == CompileCase(d, items)
  {
    hide CompileEndSelect, CompileCase, CompileCaseElse;
  }

  /** A draft inside a SELECT, between two clauses. */
  predicate Between(d: Draft) { |d.selects| > 0 && Last(d.selects).seenCase && !Last(d.selects).seenElse }

  /** END SELECT after a clause: no clause matched, so the selector is dropped. */
  lemma {:induction false} NoOtherCase(pool: seq<Num>, d: Draft)
    requires Between(d) && Compile(true, d, EndSelect, 0).Some?
    ensures var k, n := |d.selects| - 1, |d.code|;
            Compile(true, d, EndSelect, 0).value
            == d.(code := Bind(Turned(d.code, k), SelectEnd(k), n + 2) + [Plain(Simple(Drop))], selects :=
                Front(d.selects))
  {
    hide Bind, Compile, CompileEndSelect, Turned;
    var k, n := |d.selects| - 1, |d.code|;
    SelectDispatch(d);
    EndSelectCompiles(d);
    TurnedLength(d.code, k);
    BindConcat(Turned(d.code, k), [Plain(Simple(Drop))], SelectEnd(k), n + 2);
    BindOne(Plain(Simple(Drop)), SelectEnd(k), n + 2);
  }

  lemma {:induction false} ClausesCompile(pool: seq<Num>, rest: Clauses, d: Draft)
    requires ClausesShaped(rest) && Inv(d, {}) && Between(d)
    requires CompileAll(d, WrittenClauses(pool, rest) + [EndSelect]).Some?
    ensures var k, n, c := |d.selects| - 1, |d.code|, ContextOf(d);
            var end := n + 1 + ClausesSize(rest);
            CompileAll(d, WrittenClauses(pool, rest) + [EndSelect]).value
            == d.(code := Bind(Turned(d.code, k), SelectEnd(k), end) + ClausesBody(pool, rest, n + 1, end, c),
                selects := Front(d.selects))
    decreases rest, 3
  {
    hide Inv, Bind, CompileAll, WrittenBlock, BlockBody, BlockShaped, Compile, Turned;
    if rest.When? {
      NextCase(pool, rest, d);
    } else if rest.other.Some? {
      hide ClausesBody;
      TurnedLength(d.code, |d.selects| - 1);
      LastCase(pool, rest, d);
    } else {
      assert WrittenClauses(pool, rest) + [EndSelect] == [EndSelect];
      CompileOne(d, EndSelect);
      NoOtherCase(pool, d);
      assert ClausesBody(pool, rest, |d.code| + 1, |d.code| + 2, ContextOf(d)) == [Plain(Simple(Drop))];
    }
  }

  lemma {:induction false} TurnedLength(code: seq<Sym>, k: nat)
    ensures |Turned(code, k)| == |code| + 1
  {}

  lemma {:induction false} CaseElseOpens(d: Draft)
    requires Inv(d, {}) && |d.selects| > 0 && Compile(true, d, CaseElse, 0).Some?
    ensures var k, top, e := |d.selects| - 1, Last(d.selects), Compile(true, d, CaseElse, 0).value;
            var code := if top.seenCase then Turned(d.code, k) else d.code;
            Ready(e, {}) && e == d.(code := code + [Plain(Simple(Drop))],
                                    selects := Front(d.selects) + [top.(pending := false, seenCase :=
                                        true, seenElse := true)])
  {
    hide Inv, Bind, Compile, Turned, CompileCaseElse;
    SelectDispatch(d);
    CaseElseCompiles(d);
    CompileKeeps(true, d, CaseElse, 0, {});
    FrontPush(Front(d.selects), Last(d.selects).(pending := false, seenCase := true, seenElse := true));
  }

  /** CASE ELSE and its body. */
  lemma {:induction false} OtherCase(pool: seq<Num>, other: Block, d: Draft)
    requires BlockShaped(other) && Inv(d, {}) && |d.selects| > 0 && !Last(d.selects).seenElse
    requires CompileAll(d, [CaseElse] + WrittenBlock(pool, other)).Some?
    ensures var k, c := |d.selects| - 1, ContextOf(d);
            var code := if Last(d.selects).seenCase then Turned(d.code, k) else d.code;
            CompileAll(d, [CaseElse] + WrittenBlock(pool, other)).value
            == d.(code := code + [Plain(Simple(Drop))] + BlockBody(pool, other, |code| + 1, c),
                  selects := Front(d.selects) + [Last(d.selects).(pending := false, seenCase := true, seenElse :=
                      true)])
    decreases Rest(Some(other)), 0
  {
    hide Inv, Bind, CompileAll, WrittenBlock, BlockBody, BlockShaped, Compile, Turned, Sound;
    CompileConcat(d, [CaseElse], WrittenBlock(pool, other));
    CompileOne(d, CaseElse);
    CaseElseOpens(d);
    var e := Compile(true, d, CaseElse, 0).value;
    BlockCompiles(pool, other, e);
    assert ContextOf(e) == ContextOf(d);
  }

  lemma {:induction false} SelectEnds(d: Draft)
    requires |d.selects| > 0 && Last(d.selects).seenElse && Compile(true, d, EndSelect, 0).Some?
    ensures Compile(true, d, EndSelect, 0).value
            == d.(code := Bind(d.code, SelectEnd(|d.selects| - 1), |d.code|), selects := Front(d.selects))
  {
    hide Compile, Bind, CompileEndSelect, Turned;
    SelectDispatch(d);
    EndSelectCompiles(d);
  }

  lemma {:induction false} LastCase(pool: seq<Num>, rest: Clauses, d: Draft)
    requires rest.Rest? && rest.other.Some? && BlockShaped(rest.other.value) && Inv(d, {}) && |d.selects| > 0 &&
        !Last(d.selects).seenElse
    requires CompileAll(d, [CaseElse] + WrittenBlock(pool, rest.other.value) + [EndSelect]).Some?
    ensures var k, c := |d.selects| - 1, ContextOf(d);
            var code := if Last(d.selects).seenCase then Turned(d.code, k) else d.code;
            var end := |code| + ClausesSize(rest);
            CompileAll(d, [CaseElse] + WrittenBlock(pool, rest.other.value) + [EndSelect]).value
            == d.(code := Bind(code, SelectEnd(k), end) + ClausesBody(pool, rest, |code|, end, c), selects :=
                Front(d.selects))
    decreases rest, 1
  {
    hide Inv, Bind, CompileAll, WrittenBlock, BlockBody, BlockShaped, Compile, Turned, ClausesBody;
    var k, c, other := |d.selects| - 1, ContextOf(d), rest.other.value;
    var code := if Last(d.selects).seenCase then Turned(d.code, k) else d.code;
    CompileConcat(d, [CaseElse] + WrittenBlock(pool, other), [EndSelect]);
    OtherCase(pool, other, d);
    FrontPush(Front(d.selects), Last(d.selects).(pending := false, seenCase := true, seenElse := true));
    var e := CompileAll(d, [CaseElse] + WrittenBlock(pool, other)).value;
    CompileOne(e, EndSelect);
    SelectEnds(e);
    LastCaseBinds(pool, code, other, k, c, |code| + ClausesSize(rest));
  }

  lemma {:induction false} LastCaseBinds(pool: seq<Num>, code: seq<Sym>, other: Block, k: nat, c: Context, end: int)
    requires c.forExit != Hole(SelectEnd(k)) && c.doExit != Hole(SelectEnd(k))
    ensures Bind(code + [Plain(Simple(Drop))] + BlockBody(pool, other, |code| + 1, c), SelectEnd(k), end)
            == Bind(code, SelectEnd(k), end) + ClausesBody(pool, Rest(Some(other)), |code|, end, c)
  {
    hide Bind, BlockBody;
    var drop, body := [Plain(Simple(Drop))], BlockBody(pool, other, |code| + 1, c);
    BlockUnbound(pool, other, |code| + 1, c, SelectEnd(k), end);
    BindConcat(code + drop, body, SelectEnd(k), end);
    BindConcat(code, drop, SelectEnd(k), end);
    BindOne(Plain(Simple(Drop)), SelectEnd(k), end);
    RegroupThree(Bind(code, SelectEnd(k), end), drop, body);
  }

  lemma {:induction false} RegroupThree(a: seq<Sym>, b: seq<Sym>, c: seq<Sym>)
    ensures a + b + c == a + (b + c)
  {}

  lemma {:induction false} CaseOpens(pool: seq<Num>, literals: seq<Literals>, d: Draft)
    requires Inv(d, {}) && |d.selects| > 0 && Compile(true, d, Case(ItemsOf(pool, literals)), 0).Some?
    ensures var k, top, items, e := |d.selects| - 1, Last(d.selects), ItemsOf(pool, literals), Compile(true, d,
        Case(ItemsOf(pool, literals)), 0).value;
            var code := if top.seenCase then Turned(d.code, k) else d.code;
            Ready(e, {}) && e == d.(code := code + Clause(items, |code|, Hole(CaseNext(k))),
                                    selects := Front(d.selects) + [top.(pending := true, seenCase := true)])
  {
    hide Inv, Bind, Compile, CompileCase, Turned, Clause, ItemsOf;
    SelectDispatch(d);
    CaseCompiles(d, ItemsOf(pool, literals));
    ItemsSound(pool, literals);
    CompileKeeps(true, d, Case(ItemsOf(pool, literals)), 0, {});
    FrontPush(Front(d.selects), Last(d.selects).(pending := true, seenCase := true));
  }

  /** One clause and its body; what precedes it ends at `code`. */
  lemma {:induction false} OneCase(pool: seq<Num>, rest: Clauses, d: Draft)
    requires rest.When? && ClausesShaped(rest) && Inv(d, {}) && |d.selects| > 0 && !Last(d.selects).seenElse
    requires CompileAll(d, [Case(ItemsOf(pool, rest.items))] + WrittenBlock(pool, rest.body)).Some?
    ensures var k, c, items := |d.selects| - 1, ContextOf(d), ItemsOf(pool, rest.items);
            var code := if Last(d.selects).seenCase then Turned(d.code, k) else d.code;
            var e := CompileAll(d, [Case(items)] + WrittenBlock(pool, rest.body)).value;
            Inv(e, {}) && Between(e) && |e.selects| == |d.selects| && Front(e.selects) == Front(d.selects) &&
            e == d.(code := code + Clause(items, |code|, Hole(CaseNext(k))) +
                            BlockBody(pool, rest.body, |code| + LiteralsSize(rest.items) + 2, c), selects := e.selects)
    decreases rest, 0
  {
    hide Inv, Bind, CompileAll, WrittenBlock, BlockBody, Compile, Turned, Clause, ItemsOf, Sound;
    var k, items := |d.selects| - 1, ItemsOf(pool, rest.items);
    var code := if Last(d.selects).seenCase then Turned(d.code, k) else d.code;
    CompileConcat(d, [Case(items)], WrittenBlock(pool, rest.body));
    CompileOne(d, Case(items));
    CaseOpens(pool, rest.items, d);
    var e := Compile(true, d, Case(items), 0).value;
    FrontPush(Front(d.selects), Last(d.selects).(pending := true, seenCase := true));
    BlockCompiles(pool, rest.body, e);
    BlockSound(pool, rest.body);
    AllKeeps(e, WrittenBlock(pool, rest.body), {});
    ClauseSize(pool, rest.items, |code|, Hole(CaseNext(k)));
  }

  lemma {:induction false} ClauseSize(pool: seq<Num>, items: seq<Literals>, base: int, miss: Target)
    ensures |Clause(ItemsOf(pool, items), base, miss)| == LiteralsSize(items) + 2
  {
    ItemsSize(pool, items);
  }

  /** Binding the labels of a SELECT over one more clause. */
  lemma {:induction false} CaseBinds(code: seq<Sym>, items: seq<Item>, body: seq<Sym>, k: nat, end: int)
    requires Absent(code, CaseNext(k)) && forall l, pc :: (l == CaseNext(k) || l == SelectEnd(k)) ==> Bind(body, l, pc) == body
    ensures var all := code + Clause(items, |code|, Hole(CaseNext(k))) + body;
            Bind(Turned(all, k), SelectEnd(k), end)
            == Bind(code, SelectEnd(k), end) + (Clause(items, |code|, At(|all| + 1)) + body + [Jump(At(end))])
  {
    hide Bind, Absent, Clause;
    var clause := Clause(items, |code|, Hole(CaseNext(k)));
    var next := |code + clause + body| + 1;
    BindConcat(code + clause, body, CaseNext(k), next);
    BindConcat(code, clause, CaseNext(k), next);
    BindAbsent(code, CaseNext(k), next);
    BindClause(items, |code|, CaseNext(k), CaseNext(k), next);
    var done := Clause(items, |code|, At(next));
    var jump := [Jump(Hole(SelectEnd(k)))];
    BindConcat(code + done + body, jump, SelectEnd(k), end);
    BindConcat(code + done, body, SelectEnd(k), end);
    BindConcat(code, done, SelectEnd(k), end);
    ClauseSettled(items, |code|, next);
    BindSettled(done, SelectEnd(k), end);
    BindOne(Jump(Hole(SelectEnd(k))), SelectEnd(k), end);
    RegroupFour(Bind(code, SelectEnd(k), end), done, body, [Jump(At(end))]);
  }

  lemma {:induction false} TurnedAbsent(code: seq<Sym>, k: nat)
    ensures Absent(Turned(code, k), CaseNext(k))
  {
    hide Bind;
    BoundAbsent(code, CaseNext(k), |code| + 1);
  }

  lemma {:induction false} WrittenFirst(pool: seq<Num>, rest: Clauses)
    requires rest.When?
    ensures WrittenClauses(pool, rest) + [EndSelect]
            == [Case(ItemsOf(pool, rest.items))] + WrittenBlock(pool, rest.body) + (WrittenClauses(pool,
                rest.rest) + [EndSelect])
    ensures ClausesShaped(rest) ==> BlockShaped(rest.body) && ClausesShaped(rest.rest)
  {
    hide WrittenBlock, ItemsOf, BlockShaped;
  }

  /** A clause followed by the rest of its SELECT. */
  lemma {:induction false} ClauseAndRest(pool: seq<Num>, rest: Clauses, d: Draft)
    requires rest.When? && ClausesShaped(rest) && Inv(d, {}) && |d.selects| > 0 && !Last(d.selects).seenElse
    requires !Last(d.selects).seenCase ==> Absent(d.code, CaseNext(|d.selects| - 1))
    requires CompileAll(d, WrittenClauses(pool, rest) + [EndSelect]).Some?
    ensures var k, c := |d.selects| - 1, ContextOf(d);
            var code := if Last(d.selects).seenCase then Turned(d.code, k) else d.code;
            var end := |code| + ClausesSize(rest);
            CompileAll(d, WrittenClauses(pool, rest) + [EndSelect]).value
            == d.(code := Bind(code, SelectEnd(k), end) + ClausesBody(pool, rest, |code|, end, c), selects :=
                Front(d.selects))
    decreases rest, 1
  {
    hide Inv, Bind, CompileAll, WrittenBlock, WrittenClauses, ClausesShaped, BlockBody, ClausesBody, Compile, Turned,
        Clause, ItemsOf, Absent, LiteralsSize;
    var k, c, items := |d.selects| - 1, ContextOf(d), ItemsOf(pool, rest.items);
    var code := if Last(d.selects).seenCase then Turned(d.code, k) else d.code;
    WrittenFirst(pool, rest);
    CompileConcat(d, [Case(items)] + WrittenBlock(pool, rest.body), WrittenClauses(pool, rest.rest) + [EndSelect]);
    OneCase(pool, rest, d);
    var e := CompileAll(d, [Case(items)] + WrittenBlock(pool, rest.body)).value;
    ClausesCompile(pool, rest.rest, e);
    TurnedAbsent(d.code, k);
    ClauseAndRestBinds(pool, rest, code, k, c);
  }

  lemma {:induction false} ClauseAndRestBinds(pool: seq<Num>, rest: Clauses, code: seq<Sym>, k: nat, c: Context)
    requires rest.When? && Absent(code, CaseNext(k))
    requires c.forExit != Hole(CaseNext(k)) && c.doExit != Hole(CaseNext(k)) && c.forExit != Hole(SelectEnd(k)) &&
        c.doExit != Hole(SelectEnd(k))
    ensures var at := |code| + LiteralsSize(rest.items) + 2;
            var all := code + Clause(ItemsOf(pool, rest.items), |code|, Hole(CaseNext(k))) + BlockBody(pool,
                rest.body, at, c);
            var end := |code| + ClausesSize(rest);
            |all| + 1 + ClausesSize(rest.rest) == end &&
            Bind(Turned(all, k), SelectEnd(k), end) + ClausesBody(pool, rest.rest, |all| + 1, end, c)
            == Bind(code, SelectEnd(k), end) + ClausesBody(pool, rest, |code|, end, c)
  {
    hide Bind, BlockBody, Turned, Clause, ItemsOf, Absent, LiteralsSize;
    var items, at, end := ItemsOf(pool, rest.items), |code| + LiteralsSize(rest.items) + 2, |code| + ClausesSize(rest);
    var body := BlockBody(pool, rest.body, at, c);
    ClauseSize(pool, rest.items, |code|, Hole(CaseNext(k)));
    var next := at + BlockSize(rest.body) + 1;
    forall l, pc | l == CaseNext(k) || l == SelectEnd(k) ensures Bind(body, l, pc) == body { BlockUnbound(pool,
      rest.body, at, c, l, pc); }
    CaseBinds(code, items, body, k, end);
    ClausesRegroup(Bind(code, SelectEnd(k), end), Clause(items, |code|, At(next)), body, [Jump(At(end))],
        ClausesBody(pool, rest.rest, next, end, c));
  }

  lemma {:induction false} ClausesRegroup(a: seq<Sym>, b: seq<Sym>, c: seq<Sym>, d: seq<Sym>, e: seq<Sym>)
    ensures a + (b + c + d) + e == a + (b + c + (d + e))
  {}

  lemma {:induction false} NextCase(pool: seq<Num>, rest: Clauses, d: Draft)
    requires rest.When? && ClausesShaped(rest) && Inv(d, {}) && Between(d)
    requires CompileAll(d, WrittenClauses(pool, rest) + [EndSelect]).Some?
    ensures var k, n, c := |d.selects| - 1, |d.code|, ContextOf(d);
            var end := n + 1 + ClausesSize(rest);
            CompileAll(d, WrittenClauses(pool, rest) + [EndSelect]).value
            == d.(code := Bind(Turned(d.code, k), SelectEnd(k), end) + ClausesBody(pool, rest, n + 1, end, c),
                selects := Front(d.selects))
    decreases rest, 2
  {
    hide Inv, Bind, CompileAll, WrittenClauses, ClausesBody, ClausesSize, Turned, Absent;
    TurnedLength(d.code, |d.selects| - 1);
    ClauseAndRest(pool, rest, d);
  }

  lemma {:induction false} SelectOpens(pool: seq<Num>, e: Expr, d: Draft)
    requires InClause(d) && Compile(true, d, Select(Ops(pool, e)), 0).Some?
    ensures Compile(true, d, Select(Ops(pool, e)), 0).value
            == Grow(d, PlainOps(Ops(pool, e))).(selects := d.selects + [SelectBlock(false, false, false, DepthsOf(d))])
  {
    hide Ops, PlainOps;
  }

  lemma {:induction false} SelectCompiles(pool: seq<Num>, s: Stmt, d: Draft)
    requires s.SelectCase? && Shaped(s) && Ready(d, {}) && CompileAll(d, Written(pool, s)).Some?
    ensures CompileAll(d, Written(pool, s)).value == Grow(d, Body(pool, s, |d.code|, ContextOf(d)))
    decreases s, 0
  {
    hide Inv, Bind, CompileAll, WrittenClauses, ClausesBody, Turned, Absent, Ops, PlainOps, NoBranches, ClausesSize,
        ClausesShaped, Compile;
    var ops, k, c := Ops(pool, s.e), |d.selects|, ContextOf(d);
    assert Written(pool, s) == [Select(ops)] + (WrittenClauses(pool, s.clauses) + [EndSelect]);
    CompileConcat(d, [Select(ops)], WrittenClauses(pool, s.clauses) + [EndSelect]);
    CompileOne(d, Select(ops));
    SelectOpens(pool, s.e, d);
    OpsBranchless(pool, s.e);
    IfSound(ops);
    CompileKeeps(true, d, Select(ops), 0, {});
    var e := Compile(true, d, Select(ops), 0).value;
    FrontPush(d.selects, SelectBlock(false, false, false, DepthsOf(d)));
    NotOpenAbsent(d, {}, SelectEnd(k));
    NotOpenAbsent(e, {}, CaseNext(k));
    FirstClause(pool, s.clauses, e);
    var end := |e.code| + ClausesSize(s.clauses);
    HeadAbsent(ops, SelectEnd(k));
    AbsentConcat(d.code, PlainOps(ops), SelectEnd(k));
    BindAbsent(e.code, SelectEnd(k), end);
    RegroupThree(d.code, PlainOps(ops), ClausesBody(pool, s.clauses, |e.code|, end, c));
  }

  lemma {:induction false} HeadAbsent(ops: seq<Op>, l: Label)
    ensures Absent(PlainOps(ops), l)
  {}

  lemma {:induction false} FirstClause(pool: seq<Num>, cs: Clauses, d: Draft)
    requires (cs.When? || cs.other.Some?) && ClausesShaped(cs) && Inv(d, {}) && |d.selects| > 0
    requires !Last(d.selects).seenElse && !Last(d.selects).seenCase && Absent(d.code, CaseNext(|d.selects| - 1))
    requires CompileAll(d, WrittenClauses(pool, cs) + [EndSelect]).Some?
    ensures var k, c := |d.selects| - 1, ContextOf(d);
            var end := |d.code| + ClausesSize(cs);
            CompileAll(d, WrittenClauses(pool, cs) + [EndSelect]).value
            == d.(code := Bind(d.code, SelectEnd(k), end) + ClausesBody(pool, cs, |d.code|, end, c), selects :=
                Front(d.selects))
    decreases cs, 4
  {
    hide Inv, Bind, CompileAll, ClausesBody, ClausesSize, Turned, Absent, WrittenBlock, BlockShaped;
    if cs.When? {
      ClauseAndRest(pool, cs, d);
    } else {
      LastCase(pool, cs, d);
    }
  }

  /** Compiling the statements a structured program is written as gives the code of its tree, so the
      blocks nest as written and every jump lands where the tree says. */
  lemma {:induction false} ProgramCompiles(pool: seq<Num>, b: Block)
    requires BlockShaped(b) && CompileAll(EMPTY, WrittenBlock(pool, b)).Some?
    ensures CompileAll(EMPTY, WrittenBlock(pool, b)).value
            == EMPTY.(code := BlockBody(pool, b, 0, Context(At(-1), At(-1), 0, 0)))
  {
    BlockCompiles(pool, b, EMPTY);
    assert [] + BlockBody(pool, b, 0, ContextOf(EMPTY)) == BlockBody(pool, b, 0, ContextOf(EMPTY));
  }
}
