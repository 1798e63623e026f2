/** The two superinstructions that cross statements keep the values they read before storing.
    They mean what the original operations mean exactly when no store lands on a reused value. */
module Aliasing {
  import opened Wrappers
  import opened Il
  import opened Machine
  import opened Spelling
  import opened Justification
  import opened Fusion
  import opened OptimizerProof

  // ---------- a machine on which any reuse of a stale value shows ----------

  function PlusOne(op: BinOp, x: Num, y: Num): Num { if x.Whole? && y.Whole? then Whole(x.n + y.n + 1) else ZERO }

  function IsZero(x: Num): bool { x == ZERO }
  function Same(x: Num): Num { x }
  function NoText(s: string): Num { ZERO }
  function NoFunction(id: int, args: seq<Num>, rest: map<nat, int>): Option<(Num, map<nat, int>)> { None }
  function NoOther(pc: int, op: Op, st: State): Outcome { Failed(Leaves(st)) }

  /** Arithmetic in which only the number `d` exceeds anything. */
  function Witness(symbols: nat, d: int): Machine {
    Machine(Arith(PlusOne,
                  (op: BinOp, x: Num, y: Num) => (op == Gt && x == Whole(d)) || (op == Lt && y == Whole(d)),
                  IsZero, Same, NoText, NoFunction),
            [], symbols, 100, NoOther)
  }

  const START := State(0, [], map[], None, [], 0, [], map[])

  lemma {:induction false} WitnessIsLawful(symbols: nat, d: int)
    ensures Lawful(Witness(symbols, d).arith) && Witness(symbols, d).symbols == symbols
  {}

  // ---------- with stack to spare the original operations do not overflow ----------

  predicate Simple(i: Instr) { Straight(i) || i.IJz? }

  lemma {:induction false} SimpleStep(m: Machine, code: seq<Op>, st: State, i: Instr)
    requires Simple(i) && |st.stack| < m.limit
    ensures var o := StepInstr(m, code, st, i);
            o != Overflow && (o.Run? ==> |o.st.stack| <= |st.stack| + 1)
  {
    hide BinValue;
  }

  lemma {:induction false} NoOverflow(m: Machine, code: seq<Op>, ins: seq<Instr>, st: State)
    requires |st.stack| + |ins| <= m.limit && forall k :: 0 <= k < |ins| ==> Simple(ins[k])
    ensures Exec(m, code, ins, st) != Overflow
    decreases |ins|
  {
    hide StepInstr;
    if ins != [] {
      SimpleStep(m, code, st, ins[0]);
      var o := StepInstr(m, code, st, ins[0]);
      if o.Run? { NoOverflow(m, code, ins[1..], o.st); }
    }
  }

  lemma {:induction false} MinMulIsShort(f: Instr, w: Order)
    requires f.FMinMul?
    ensures |Spell(f, w)| == 25
  {
    ChannelLength(f.cap, f.src, f.k.0, w.first);
    ChannelLength(f.cap, f.src, f.k.1, w.second);
    ChannelLength(f.cap, f.src, f.k.2, w.third);
  }

  lemma {:induction false} ChannelLength(cap: int, src: int, k: int, swapped: bool)
    ensures |Code(Channel(cap, src, k, swapped))| == 5
  {
    assert CodeLength(Product(G(src), C(Whole(k)), swapped)) == 3 by {
      assert CodeLength(G(src)) == 1 && CodeLength(C(Whole(k))) == 1;
    }
  }

  // ---------- the capped-channel pixel ----------

  lemma {:induction false} MinMulDiffers(symbols: nat, f: Instr, w: Order)
    requires f.FMinMul? && OperandsOk(symbols, f) && !AliasFree(f) && f.k.0 >= 0 && f.k.1 >= 0 && f.k.2 >= 0
    ensures !SameOrOverflow(Exec(Witness(symbols, -1), [], Spell(f, w), START), StepInstr(Witness(symbols, -1), [],
        START, f))
  {
    hide Exec, Spell;
    var m := Witness(symbols, -1);
    WitnessIsLawful(symbols, -1);
    MinMulSpelling(m, [], f, w, START);
    MinMulIsStraight(f, w);
    MinMulIsShort(f, w);
    NoOverflow(m, [], Spell(f, w), START);
    var raw, fused := MinMulSpelled(m, START, f), StepMinMul(m, START, f);
    assert raw.st.out[0].Color? && fused.st.out[0].Color?;
    assert raw.st.out[0] != fused.st.out[0];
  }

  // ---------- the loop superinstruction ----------

  lemma {:induction false} ComplexIsShort(f: Instr)
    requires f.FComplex?
    ensures |ComplexCode(f)| <= 34
  {
    hide Code;
    assert |Code(RealPart(f))| == 9 && |Code(ImagPart(f))| == 7 && |Code(G(f.t))| == 1 by { PartLengths(f); }
    EscapeLength(f.either, f.zx, f.zy, f.limit);
    if f.move.Some? { assert CodeLength(G(f.move.value.1)) == 1; }
  }

  lemma {:induction false} PartLengths(f: Instr)
    requires f.FComplex?
    ensures CodeLength(RealPart(f)) == 9 && CodeLength(ImagPart(f)) == 7 && CodeLength(G(f.t)) == 1
  {
    assert CodeLength(Bin(Mul, G(f.zx), G(f.zx))) == 3 && CodeLength(Bin(Mul, G(f.zy), G(f.zy))) == 3;
    assert CodeLength(Bin(Mul, C(TWO), G(f.zx))) == 3;
    assert CodeLength(Bin(Mul, Bin(Mul, C(TWO), G(f.zx)), G(f.zy))) == 5;
  }

  lemma {:induction false} EscapeLength(either: bool, x: int, y: int, limit: Num)
    ensures CodeLength(EscapeTest(either, x, y, limit)) <= 11
  {
    var xx, yy := Bin(Mul, G(x), G(x)), Bin(Mul, G(y), G(y));
    assert CodeLength(xx) == 3 && CodeLength(yy) == 3 && CodeLength(C(limit)) == 1;
    assert CodeLength(Bin(Gt, xx, C(limit))) == 5 && CodeLength(Bin(Gt, yy, C(limit))) == 5;
    assert CodeLength(Bin(Add, xx, yy)) == 7;
  }

  /** The number that tells the fused escape test, on 4 and 5, from the original one on x and y. */
  function Tell(either: bool, x: Num, y: Num): int {
    if !either then 21 else if x != Whole(4) && y != Whole(4) then 9 else 11
  }

  /** The variables after the original operations, from all zeros. */
  function Spelled(m: Machine, f: Instr): map<int, Num>
    requires f.FComplex?
  {
    ComplexMove(Iterated(m, START, f), f.move)
  }

  lemma {:induction false} IteratedFromZero(symbols: nat, d: int, f: Instr)
    requires f.FComplex?
    ensures var imag := Whole(5 + (if f.t == f.zx then 4 else 0) + (if f.t == f.zy then 4
        else 0) + (if f.t == f.im then 4 else 0));
            Iterated(Witness(symbols, d), START, f)
            == var g2 := map[f.t := Whole(4)][f.zy := imag]; g2[f.zx := Get(g2, f.t)]
    ensures ComplexReal(Witness(symbols, d), START, f) == Whole(4) &&
        ComplexImag(Witness(symbols, d), START, f) == Whole(5)
  {
    assert START.globals[f.t := Whole(4)] == map[f.t := Whole(4)];
  }

  lemma {:induction false} SpelledDiffers(symbols: nat, d: int, f: Instr)
    requires f.FComplex? && !AliasFree(f)
    ensures var vars := Spelled(Witness(symbols, d), f);
            var x, y := Get(vars, f.zx), Get(vars, f.zy);
            x.Whole? && y.Whole? && !(x.n == 4 && y.n == 5) && !(x.n == 5 && y.n == 4) &&
            (x.n + y.n == 9 ==> vars != ComplexVars(Witness(symbols, d), START, f))
  {
    IteratedFromZero(symbols, d, f);
  }

  lemma {:induction false} FusedEscapes(symbols: nat, f: Instr, x: Num, y: Num)
    requires f.FComplex? && x.Whole? && y.Whole? && !(x.n == 4 && y.n == 5) && !(x.n == 5 && y.n == 4)
    ensures var a := Witness(symbols, Tell(f.either, x, y)).arith;
            Escapes(a, f.either, Whole(4), Whole(5), f.limit) &&
            (Escapes(a, f.either, x, y, f.limit) ==> !f.either && x.n + y.n == 9)
  {
    assert PlusOne(Mul, x, x) == Whole(2 * x.n + 1) && PlusOne(Mul, y, y) == Whole(2 * y.n + 1);
    assert PlusOne(Mul, Whole(4), Whole(4)) == Whole(9) && PlusOne(Mul, Whole(5), Whole(5)) == Whole(11);
  }

  lemma {:induction false} ComplexDiffers(symbols: nat, f: Instr) returns (d: int)
    requires f.FComplex? && OperandsOk(symbols, f) && !AliasFree(f)
    ensures !SameOrOverflow(Exec(Witness(symbols, d), [], ComplexCode(f), START),
                            StepInstr(Witness(symbols, d), [], START, Core(f)))
  {
    hide Exec, ComplexCode, OperandsOk, AliasFree, Witness, Escapes;
    var vars := Spelled(Witness(symbols, 0), f);
    var x, y := Get(vars, f.zx), Get(vars, f.zy);
    d := Tell(f.either, x, y);
    var m := Witness(symbols, d);
    IteratedFromZero(symbols, 0, f);
    IteratedFromZero(symbols, d, f);
    SpelledDiffers(symbols, d, f);
    FusedEscapes(symbols, f, x, y);
    WitnessIsLawful(symbols, d);
    ComplexSpelling(m, [], f, START);
    ComplexDoesNotOverflow(symbols, d, f);
    CoreVars(m, START, f);
    assert ComplexSpelled(m, [], START, f) != StepComplex(m, [], START, Core(f)) by {
      assert ComplexReal(m, START, Core(f)) == Whole(4) && ComplexImag(m, START, Core(f)) == Whole(5);
    }
  }

  lemma {:induction false} ComplexDoesNotOverflow(symbols: nat, d: int, f: Instr)
    requires f.FComplex?
    ensures Exec(Witness(symbols, d), [], ComplexCode(f), START) != Overflow
  {
    hide Exec, StraightBut, ComplexCode;
    ComplexIsShort(f);
    ComplexIsStraight(f);
    EndsInJump(f);
    AllSimple(ComplexCode(f), f.target);
    NoOverflow(Witness(symbols, d), [], ComplexCode(f), START);
  }

  lemma {:induction false} AllSimple(ins: seq<Instr>, target: int)
    requires StraightBut(ins) && |ins| > 0 && ins[|ins| - 1] == IJz(target)
    ensures forall k :: 0 <= k < |ins| ==> Simple(ins[k])
  {}

  lemma {:induction false} EndsInJump(f: Instr)
    requires f.FComplex?
    ensures |ComplexCode(f)| > 0 && ComplexCode(f)[|ComplexCode(f)| - 1] == IJz(f.target)
  {
    hide Code, EscapeTest, IterationCode, MoveCode;
  }

  // ---------- exactly when ----------

  /** Fusing is right: on every machine, from every state, the fused operation does what its
      original operations do, whichever way round their constant products were written. */
  ghost predicate AlwaysMeans(symbols: nat, f: Instr) {
    forall m: Machine, code: seq<Op>, w: Order, st: State ::
      m.symbols == symbols && Lawful(m.arith) && !HandsOver(m, st, f) ==>
      SameOrOverflow(Exec(m, code, Spell(f, w), st), StepInstr(m, code, st, Core(f)))
  }

  /** A fused operation means its original operations if and only if it is free of aliasing. */
  lemma {:induction false} RightExactlyWhenAliasFree(symbols: nat, f: Instr)
    requires FusedInstr(f) && OperandsOk(symbols, f) && (f.FBinJz? ==> f.op != Min)
    requires f.FMinMul? ==> f.k.0 >= 0 && f.k.1 >= 0 && f.k.2 >= 0
    ensures AlwaysMeans(symbols, f) <==> AliasFree(f)
  {
    hide Exec, Spell, StepInstr, Lawful, OperandsOk, HandsOver;
    if AliasFree(f) {
      forall m: Machine, code: seq<Op>, w: Order, st: State | m.symbols == symbols && Lawful(m.arith) &&
        !HandsOver(m, st, f)
        ensures SameOrOverflow(Exec(m, code, Spell(f, w), st), StepInstr(m, code, st, Core(f)))
      {
        SpanMeaning(m, code, f, w, st);
      }
    } else if f.FMinMul? {
      MinMulDiffers(symbols, f, PLAIN);
      NotAlways(symbols, -1, f);
    } else {
      var d := ComplexDiffers(symbols, f);
      ComplexSpells(f);
      NotAlways(symbols, d, f);
    }
  }

  lemma {:induction false} ComplexSpells(f: Instr)
    requires f.FComplex?
    ensures Spell(f, PLAIN) == ComplexCode(f)
  {}

  lemma {:induction false} NotAlways(symbols: nat, d: int, f: Instr)
    requires !f.FGray?
    requires !SameOrOverflow(Exec(Witness(symbols, d), [], Spell(f, PLAIN), START), StepInstr(Witness(symbols, d),
        [], START, Core(f)))
    ensures !AlwaysMeans(symbols, f)
  {
    hide Exec, Spell, StepInstr;
    WitnessIsLawful(symbols, d);
  }
}
