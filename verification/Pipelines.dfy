/** The passes that work across statements justify what they fuse, reading slots that earlier
    passes may already have overwritten. */
module Pipelines {
  import opened Wrappers
  import opened Il
  import opened Optimizer
  import opened Spelling
  import opened Justification

  // ---------- the complex iteration ----------

  lemma {:induction false} DecodesComplex(pool: seq<Num>, either: bool, x: int, y: int, re: int, im: int, t: int,
                       target: int, limit: int, move: Option<(int, int)>, next: bool)
    requires Slot6(x) && Slot6(y) && Slot6(re) && Slot6(im) && Slot6(t)
    requires move.Some? ==> Slot6(move.value.0) && Slot6(move.value.1)
    requires 0 <= target <= 4095 && 0 <= limit <= 4095 && limit < |pool|
    ensures Decode(pool, Op(if either then ComplexIterOrJz else ComplexIterSumSqJz,
                            (if move.Some? then 1 else 0) + (if next then 2 else 0),
                            if move.Some? then Pack6(move.value.0, move.value.1, 0, 0, 0) else 0,
                            Pack6(x, y, re, im, t), target + 4096 * limit))
            == FComplex(x, y, re, im, t, either, pool[limit], target, move, next)
  {
    hide ComplexInstr;
    DecodesIteration(pool, either, x, y, re, im, t, target, limit, move, next);
  }

  lemma {:induction false} DecodesIteration(pool: seq<Num>, either: bool, x: int, y: int, re: int, im: int, t: int,
                         target: int, limit: int, move: Option<(int, int)>, next: bool)
    requires Slot6(x) && Slot6(y) && Slot6(re) && Slot6(im) && Slot6(t)
    requires move.Some? ==> Slot6(move.value.0) && Slot6(move.value.1)
    requires 0 <= target <= 4095 && 0 <= limit <= 4095 && limit < |pool|
    ensures ComplexInstr(pool, Op(if either then ComplexIterOrJz else ComplexIterSumSqJz,
                                  (if move.Some? then 1 else 0) + (if next then 2 else 0),
                                  if move.Some? then Pack6(move.value.0, move.value.1, 0, 0, 0) else 0,
                                  Pack6(x, y, re, im, t), target + 4096 * limit), either)
            == FComplex(x, y, re, im, t, either, pool[limit], target, move, next)
  {
    hide Field6, Pack6, Decode;
    Unpack6(x, y, re, im, t);
    if move.Some? { Unpack6(move.value.0, move.value.1, 0, 0, 0); }
    assert (target + 4096 * limit) % 4096 == target && (target + 4096 * limit) / 4096 == limit;
  }

  lemma {:induction false} ComplexCodeSpelled(d: seq<Instr>, i: nat, f: Instr)
    requires f.FComplex?
    requires SpellsAt(d, i, Assignment(Global(f.t), RealPart(f)))
    requires SpellsAt(d, i + 10, Assignment(Global(f.zy), ImagPart(f)))
    requires SpellsAt(d, i + 18, Assignment(Global(f.zx), G(f.t)))
    requires f.move.Some? ==> SpellsAt(d, i + 20, MoveCode(f.move))
    requires SpellsAt(d, if f.move.Some? then i + 22
        else i + 20, BranchCode(EscapeTest(f.either, f.zx, f.zy, f.limit), f.target))
    ensures SpellsAt(d, i, ComplexCode(f))
  {
    var a, b := Assignment(Global(f.t), RealPart(f)), Assignment(Global(f.zy), ImagPart(f));
    var c := Assignment(Global(f.zx), G(f.t));
    PartLengths(f);
    SpellsConcat(d, i, a, b);
    SpellsConcat(d, i, a + b, c);
    if f.move.None? { assert IterationCode(f) + MoveCode(f.move) == IterationCode(f); }
    else { SpellsConcat(d, i, IterationCode(f), MoveCode(f.move)); }
    SpellsConcat(d, i, IterationCode(f) + MoveCode(f.move), BranchCode(EscapeTest(f.either, f.zx, f.zy, f.limit),
        f.target));
  }

  lemma {:induction false} PartLengths(f: Instr)
    requires f.FComplex?
    ensures |Assignment(Global(f.t), RealPart(f))| == 10 && |Assignment(Global(f.zy), ImagPart(f))| == 8
    ensures |Assignment(Global(f.zx), G(f.t))| == 2 && (f.move.Some? ==> |MoveCode(f.move)| == 2)
  {
    var xx, yy := Bin(Mul, G(f.zx), G(f.zx)), Bin(Mul, G(f.zy), G(f.zy));
    assert CodeLength(xx) == 3 && CodeLength(yy) == 3;
    assert CodeLength(Bin(Sub, xx, yy)) == 7;
    var twice := Bin(Mul, C(TWO), G(f.zx));
    assert CodeLength(twice) == 3;
    assert CodeLength(Bin(Mul, twice, G(f.zy))) == 5;
  }

  /** The condition half of the match, once the iteration half has named its slots. */
  lemma {:induction false} ConditionHalf(
      p: Program, t: seq<Mark>, code: seq<Op>, d: seq<Instr>, i: nat, x: int, y: int, re: int, im: int, temp: int)
    requires Faithful(p, d, code) && SlotsFit(p) && i + 20 < |code|
    requires NumericSlot(p, x) && NumericSlot(p, y) && NumericSlot(p, re) && NumericSlot(p, im) && NumericSlot(p, temp)
    requires ComplexCondition(p, t, code, i, Pack6(x, y, re, im, temp)).Fuse?
    ensures var f := Decode(p.pool, ComplexCondition(p, t, code, i, Pack6(x, y, re, im, temp)).op);
            f.FComplex? && f.zx == x && f.zy == y && f.re == re && f.im == im && f.t == temp &&
            OperandsOk(Symbols(p), f) && (f.move.Some? ==> SpellsAt(d, i + 20, MoveCode(f.move))) &&
            SpellsAt(d, if f.move.Some? then i + 22
                else i + 20, BranchCode(EscapeTest(f.either, f.zx, f.zy, f.limit), f.target))
  {
    hide Decode, Field6, Pack6, EscapeTest, BranchCode, Stands;
    assert Field6(Pack6(x, y, re, im, temp), 0) == x &&
        Field6(Pack6(x, y, re, im, temp), 1) == y by { Unpack6(x, y, re, im, temp); }
    var extra := code[i + 20].code == MovNum;
    var pc := if extra then i + 22 else i + 20;
    var condition := code[pc];
    var either := condition.code == Sq2GtOrJz;
    var move := if extra then Some((code[i + 20].a, code[i + 20].b)) else None;
    ReadsEscape(p, d, pc, condition);
    if extra { ReadsMove(p, d, i + 20, code[i + 20]); }
    DecodesComplex(p.pool, either, x, y, re, im, temp, condition.a, condition.b, move, code[condition.a].code ==
        ForIncr);
  }

  lemma {:induction false} ComplexJustified(p: Program, t: seq<Mark>, code: seq<Op>, d: seq<Instr>, i: nat)
    requires Faithful(p, d, code) && SlotsFit(p) && ComplexAt(p, t, code, i).Fuse?
    ensures Justified(Symbols(p), d, i, Decode(p.pool, ComplexAt(p, t, code, i).op))
  {
    hide Decode, Field6, Pack6, ComplexCondition, EscapeTest, Stands;
    var temp, x, y, re := Field6(code[i].a, 0), Field6(code[i].a, 1), Field6(code[i].a, 3), Field6(code[i].b, 0);
    var im := Field6(code[i + 10].a, 3);
    var f := Decode(p.pool, ComplexCondition(p, t, code, i, Pack6(x, y, re, im, temp)).op);
    ConditionHalf(p, t, code, d, i, x, y, re, im, temp);
    ReadsMulSubAdd(p, d, i, code[i]);
    ReadsMulCvvAdd(p, d, i + 10, code[i + 10]);
    ReadsMove(p, d, i + 18, code[i + 18]);
    ComplexCodeSpelled(d, i, f);
    JustifiedBy(Symbols(p), d, i, f, PLAIN);
  }

  // ---------- the gray pixel pipeline ----------

  lemma {:induction false} DecodesGray(pool: seq<Num>, gray: int, lhs: int, rhs: int, x: int, y: int)
    requires Slot6(gray) && Slot6(lhs) && Slot6(rhs) && Slot6(x) && Slot6(y)
    ensures Decode(pool, Op(GrayPsetMulInt, 0, 0, Pack6(gray, lhs, rhs, x, y), 0))
            == FGray(Global(gray), Global(lhs), Global(rhs), Global(x), Global(y))
  {
    Unpack6(gray, lhs, rhs, x, y);
    hide Field6;
  }

  lemma {:induction false} DecodesGrayTail(pool: seq<Num>, gray: int, x: int, y: int)
    requires Slot6(gray) && Slot6(x) && Slot6(y)
    ensures Decode(pool, Op(GrayPsetIntStack, 0, 0, Pack6(gray, x, y, 0, 0), 0))
            == FGrayStack(Global(gray), Global(x), Global(y))
  {
    Unpack6(gray, x, y, 0, 0);
    hide Field6;
  }

  /** INT, store, load three times, COLOR, load twice, PSET. */
  lemma {:induction false} GrayTailSpelled(d: seq<Instr>, i: nat, g: Operand, x: Operand, y: Operand)
    requires i + 8 < |d| && d[i] == IInt && d[i + 1] == IStore(g)
    requires d[i + 2] == ILoad(g) && d[i + 3] == ILoad(g) && d[i + 4] == ILoad(g) && d[i + 5] == IColor
    requires d[i + 6] == ILoad(x) && d[i + 7] == ILoad(y) && d[i + 8] == IPset
    ensures SpellsAt(d, i, [IInt, IStore(g)] + Painting(g, g, g, x, y))
  {
    SpellsPainting(d, i + 2, g, g, g, x, y);
    SpellsConcat(d, i, [IInt, IStore(g)], Painting(g, g, g, x, y));
  }

  lemma {:induction false} GraySpelled(symbols: nat, d: seq<Instr>, i: nat, f: Instr)
    requires f.FGray? && OperandsOk(symbols, f) && i + 11 < |d|
    requires SpellsAt(d, i, Code(Bin(Mul, Leaf(f.lhs), Leaf(f.rhs))))
    requires SpellsAt(d, i + 3, [IInt, IStore(f.dst)] + Painting(f.dst, f.dst, f.dst, f.px, f.py))
    ensures Justified(symbols, d, i, f)
  {
    assert CodeLength(Bin(Mul, Leaf(f.lhs), Leaf(f.rhs))) == 3;
    SpellsConcat(d, i, Code(Bin(Mul, Leaf(f.lhs), Leaf(f.rhs))),
                 [IInt, IStore(f.dst)] + Painting(f.dst, f.dst, f.dst, f.px, f.py));
    JustifiedBy(symbols, d, i, f, PLAIN);
  }

  lemma {:induction false} ProductRead(p: Program, code: seq<Op>, d: seq<Instr>, i: nat)
    requires Faithful(p, d, code) && ProductSlots(code, i).Some?
    ensures SpellsAt(d, i, Code(Bin(Mul, G(ProductSlots(code, i).value.0), G(ProductSlots(code, i).value.1))))
  {
    hide Stands;
    var v := ProductSlots(code, i).value;
    if code[i].code == MulVvPush {
      ReadsProduct(p, d, i, code[i]);
    } else {
      FaithfulReads(p, d, code);
      SpellsPair(d, i, Mul, Global(v.0), Global(v.1));
    }
  }

  lemma {:induction false} FirstColorRead(p: Program, code: seq<Op>, d: seq<Instr>, i: nat, gray: int)
    requires Faithful(p, d, code) && i + 7 <= |code| && ColorsWith(code, i, gray)
    ensures d[i] == ILoad(Global(gray))
  {
    hide Stands, Field6;
    if code[i].code == LoadNum { FaithfulReads(p, d, code); } else { ReadsPainting(p, d, i, code[i]); }
  }

  lemma {:induction false} PaintTailRead(pool: seq<Num>, code: seq<Op>, d: seq<Instr>, i: nat, gray: int)
    requires Reads(pool, code, d) && PaintTail(code, i, gray)
    ensures i + 5 < |d| && d[i] == ILoad(Global(gray)) && d[i + 1] == ILoad(Global(gray)) && d[i + 2] == IColor
    ensures d[i + 3] == ILoad(Global(code[i + 3].a)) && d[i + 4] == ILoad(Global(code[i + 4].a)) && d[i + 5] == IPset
  {}

  lemma {:induction false} IntRead(pool: seq<Num>, code: seq<Op>, d: seq<Instr>, i: nat)
    requires Reads(pool, code, d) && IsIntCall(code, i)
    ensures i < |d| && d[i] == IInt
  {}

  /** Both gray matches end here: product, INT, store, color, pixel. */
  lemma {:induction false} GrayWhole(p: Program, code: seq<Op>, d: seq<Instr>, i: nat)
    requires Faithful(p, d, code) && SlotsFit(p) && i + 12 <= |code| && ProductSlots(code, i).Some? &&
        IsIntCall(code, i + 3)
    requires code[i + 4].code == StoreNum && d[i + 5] == ILoad(Global(code[i + 4].a)) &&
        PaintTail(code, i + 6, code[i + 4].a)
    requires GrayOp(p, ProductSlots(code, i).value, code[i + 4].a, code[i + 9].a, code[i + 10].a).Fuse?
    ensures Justified(Symbols(p), d, i, Decode(p.pool,
              GrayOp(p, ProductSlots(code, i).value, code[i + 4].a, code[i + 9].a, code[i + 10].a).op))
  {
    hide Stands, Decode, Field6, Pack6, Justified, IsIntCall, PaintTail, Reads, ProductSlots, SpellsAt, Code, Painting;
    var v, gray, x, y := ProductSlots(code, i).value, code[i + 4].a, code[i + 9].a, code[i + 10].a;
    FaithfulReads(p, d, code);
    ProductRead(p, code, d, i);
    IntRead(p.pool, code, d, i + 3);
    StoreAt(p.pool, code, d, i + 4);
    PaintTailRead(p.pool, code, d, i + 6, gray);
    GrayTailSpelled(d, i + 3, Global(gray), Global(x), Global(y));
    DecodesGray(p.pool, gray, v.0, v.1, x, y);
    GraySpelled(Symbols(p), d, i, FGray(Global(gray), Global(v.0), Global(v.1), Global(x), Global(y)));
  }

  lemma {:induction false} GrayJustified(p: Program, t: seq<Mark>, code: seq<Op>, d: seq<Instr>, i: nat)
    requires Faithful(p, d, code) && SlotsFit(p) && GrayAt(p, t, code, i).Fuse?
    ensures Justified(Symbols(p), d, i, Decode(p.pool, GrayAt(p, t, code, i).op))
  {
    hide Stands, Decode, Justified, ColorsWith, PaintTail, GrayOp, ProductSlots;
    FirstColorRead(p, code, d, i + 5, code[i + 4].a);
    GrayWhole(p, code, d, i);
  }

  lemma {:induction false} GrayAgainJustified(p: Program, t: seq<Mark>, code: seq<Op>, d: seq<Instr>, i: nat)
    requires Faithful(p, d, code) && SlotsFit(p) && GrayAgainAt(p, t, code, i).Fuse?
    ensures Justified(Symbols(p), d, i, Decode(p.pool, GrayAgainAt(p, t, code, i).op))
  {
    hide Stands, Decode, Justified, PaintTail, GrayOp, ProductSlots, IsIntCall;
    FaithfulReads(p, d, code);
    assert PlainSlot(p.pool, code[i + 5], d[i + 5]);
    GrayWhole(p, code, d, i);
  }

  lemma {:induction false} GrayTailJustified(p: Program, t: seq<Mark>, code: seq<Op>, d: seq<Instr>, i: nat)
    requires Faithful(p, d, code) && SlotsFit(p) && GrayTailAt(p, t, code, i).Fuse?
    ensures Justified(Symbols(p), d, i, Decode(p.pool, GrayTailAt(p, t, code, i).op))
  {
    hide Stands, Decode, Field6, Pack6, PaintTail;
    var gray, x, y := code[i + 1].a, code[i + 6].a, code[i + 7].a;
    FaithfulReads(p, d, code);
    PaintTailRead(p.pool, code, d, i + 3, gray);
    GrayTailSpelled(d, i, Global(gray), Global(x), Global(y));
    DecodesGrayTail(p.pool, gray, x, y);
    JustifiedBy(Symbols(p), d, i, FGrayStack(Global(gray), Global(x), Global(y)), PLAIN);
  }

  // ---------- the capped color pipeline ----------

  lemma {:induction false} DecodesMinMul(
      pool: seq<Num>, src: int, d0: int, d1: int, d2: int, x: int, y: int, k0: int, k1: int, k2: int, cap: int)
    requires Slot6(src) && Slot6(d0) && Slot6(d1) && Slot6(d2) && Slot6(x) && Slot6(y)
    requires IsByte(k0) && IsByte(k1) && IsByte(k2) && IsByte(cap)
    ensures Decode(pool, Op(RgbPsetMinMul, 0, y, Pack6(src, d0, d1, d2, x), PackBytes(k0, k1, k2, cap)))
            == FMinMul(src, (d0, d1, d2), (k0, k1, k2), cap, x, y)
  {
    Unpack6(src, d0, d1, d2, x);
    UnpackBytes(k0, k1, k2, cap);
    assert Field6(y, 0) == y;
    hide Field6, Byte;
  }

  lemma {:induction false} MinAt(pool: seq<Num>, code: seq<Op>, d: seq<Instr>, i: nat)
    requires Reads(pool, code, d) && Calls(code, i, FN_MIN, 2)
    ensures d[i] == IBin(Min)
  {}

  lemma {:induction false} PlainFactor(p: Program, code: seq<Op>, d: seq<Instr>, i: nat, k: int)
    requires Reads(p.pool, code, d) && Is(code, i, LoadNum) && Is(code, i + 1, PushNum) && Is(code, i + 2, MulNum)
    requires ConstantIndex(p, code[i + 1].a) && p.pool[code[i + 1].a] == Whole(k)
    ensures SpellsAt(d, i, Code(Product(G(code[i].a), C(Whole(k)), false)))
  {
    hide PlainSlot;
    LoadAt(p.pool, code, d, i);
    ConstantAt(p, code, d, i + 1);
    MathAt(p.pool, code, d, i + 2);
    SpellsPair(d, i, Mul, Global(code[i].a), Literal(Whole(k)));
  }

  /** The product inside a channel, fused by the first pass or not. */
  lemma {:induction false} FactorRead(p: Program, code: seq<Op>, d: seq<Instr>, i: nat) returns (swapped: bool)
    requires Faithful(p, d, code) && ChannelAt(p, code, i).Some?
    ensures var c := ChannelAt(p, code, i).value;
            SpellsAt(d, i + 1, Code(Product(G(c.src), C(Whole(c.k)), swapped)))
  {
    hide Stands, Reads, Spell, Decode, Code, Product, SpellsAt;
    var c := ChannelAt(p, code, i).value;
    if code[i + 1].code == MulCvPush {
      swapped := ReadsConstantTimes(p, d, i + 1, code[i + 1]);
    } else {
      swapped := false;
      FaithfulReads(p, d, code);
      PlainFactor(p, code, d, i + 1, c.k);
    }
  }

  lemma {:induction false} ChannelRead(p: Program, code: seq<Op>, d: seq<Instr>, i: nat) returns (swapped: bool)
    requires Faithful(p, d, code) && ChannelAt(p, code, i).Some?
    ensures var c := ChannelAt(p, code, i).value;
            SpellsAt(d, i, Assignment(Global(c.dst), Channel(c.cap, c.src, c.k, swapped))) && IsByte(c.cap) &&
                IsByte(c.k) &&
            |Assignment(Global(c.dst), Channel(c.cap, c.src, c.k, swapped))| == 6
  {
    hide Stands, PlainSlot, Product, Assignment, Channel;
    FaithfulReads(p, d, code);
    var c := ChannelAt(p, code, i).value;
    ConstantAt(p, code, d, i);
    MinAt(p.pool, code, d, i + 4);
    StoreAt(p.pool, code, d, i + 5);
    swapped := FactorRead(p, code, d, i);
    ChannelSpelled(d, i, c, swapped);
  }

  lemma {:induction false} ChannelSpelled(d: seq<Instr>, i: nat, c: ChannelMatch, swapped: bool)
    requires i + 5 < |d| && d[i] == ILoad(Literal(Whole(c.cap))) && d[i + 4] == IBin(Min) &&
        d[i + 5] == IStore(Global(c.dst))
    requires SpellsAt(d, i + 1, Code(Product(G(c.src), C(Whole(c.k)), swapped)))
    ensures SpellsAt(d, i, Assignment(Global(c.dst), Channel(c.cap, c.src, c.k, swapped)))
    ensures |Assignment(Global(c.dst), Channel(c.cap, c.src, c.k, swapped))| == 6
  {
    var product := Product(G(c.src), C(Whole(c.k)), swapped);
    assert CodeLength(product) == 3;
    SpellsAfter(d, i, Literal(Whole(c.cap)), Min, product);
    SpellsStore(d, i, Bin(Min, C(Whole(c.cap)), product), Global(c.dst));
  }

  lemma {:induction false} MinMulSpelled(symbols: nat, d: seq<Instr>, i: nat, f: Instr, w: Order)
    requires f.FMinMul? && OperandsOk(symbols, f)
    requires SpellsAt(d, i, Assignment(Global(f.d.0), Channel(f.cap, f.src, f.k.0, w.first)))
    requires SpellsAt(d, i + 6, Assignment(Global(f.d.1), Channel(f.cap, f.src, f.k.1, w.second)))
    requires SpellsAt(d, i + 12, Assignment(Global(f.d.2), Channel(f.cap, f.src, f.k.2, w.third)))
    requires SpellsAt(d, i + 18, Painting(Global(f.d.0), Global(f.d.1), Global(f.d.2), Global(f.column), Global(f.row)))
    requires |Assignment(Global(f.d.0), Channel(f.cap, f.src, f.k.0, w.first))| == 6
    requires |Assignment(Global(f.d.1), Channel(f.cap, f.src, f.k.1, w.second))| == 6
    requires |Assignment(Global(f.d.2), Channel(f.cap, f.src, f.k.2, w.third))| == 6
    ensures Justified(symbols, d, i, f)
  {
    hide Assignment, Channel, Painting;
    var a := Assignment(Global(f.d.0), Channel(f.cap, f.src, f.k.0, w.first));
    var b := Assignment(Global(f.d.1), Channel(f.cap, f.src, f.k.1, w.second));
    var c := Assignment(Global(f.d.2), Channel(f.cap, f.src, f.k.2, w.third));
    SpellsConcat(d, i, a, b);
    SpellsConcat(d, i, a + b, c);
    SpellsConcat(d, i, a + b + c, Painting(Global(f.d.0), Global(f.d.1), Global(f.d.2), Global(f.column),
        Global(f.row)));
    JustifiedBy(symbols, d, i, f, w);
  }

  lemma {:induction false} MinMulJustified(p: Program, t: seq<Mark>, code: seq<Op>, d: seq<Instr>, i: nat)
    requires Faithful(p, d, code) && SlotsFit(p) && MinMulAt(p, t, code, i).Fuse?
    ensures Justified(Symbols(p), d, i, Decode(p.pool, MinMulAt(p, t, code, i).op))
  {
    hide Stands, Decode, Field6, Pack6, PackBytes, ChannelAt, Justified, Assignment, Channel, Painting;
    var r, g, b := ChannelAt(p, code, i).value, ChannelAt(p, code, i + 6).value, ChannelAt(p, code, i + 12).value;
    var w0 := ChannelRead(p, code, d, i);
    var w1 := ChannelRead(p, code, d, i + 6);
    var w2 := ChannelRead(p, code, d, i + 12);
    FaithfulReads(p, d, code);
    PaintsRead(p.pool, code, d, i + 18);
    var x, y := code[i + 22].a, code[i + 23].a;
    DecodesMinMul(p.pool, r.src, r.dst, g.dst, b.dst, x, y, r.k, g.k, b.k, r.cap);
    MinMulSpelled(Symbols(p), d, i, FMinMul(r.src, (r.dst, g.dst, b.dst), (r.k, g.k, b.k), r.cap, x, y), Order(w0,
        w1, w2));
  }

  lemma {:induction false} PaintsRead(pool: seq<Num>, code: seq<Op>, d: seq<Instr>, i: nat)
    requires Reads(pool, code, d) && PaintsFrom(code, i)
    ensures SpellsAt(d, i, Painting(Global(code[i].a), Global(code[i + 1].a), Global(code[i + 2].a),
                                    Global(code[i + 4].a), Global(code[i + 5].a)))
  {
    SpellsPainting(d, i, Global(code[i].a), Global(code[i + 1].a), Global(code[i + 2].a), Global(code[i + 4].a),
        Global(code[i + 5].a));
  }

  // ---------- the residual pass ----------

  lemma {:induction false} StoreConstantJustified(p: Program, t: seq<Mark>, code: seq<Op>, d: seq<Instr>, i: nat)
    requires Reads(p.pool, code, d) && StoreConstantAt(p, t, code, i).Fuse?
    ensures Justified(Symbols(p), d, i, Decode(p.pool, StoreConstantAt(p, t, code, i).op))
  {
    hide Decode;
    var k, dst := code[i].a, code[i + 1].a;
    DecodesStoreConstant(p.pool, dst, k);
    SpellsLeaf(d, i, Literal(p.pool[k]));
    AssignJustified(Symbols(p), d, i, C(p.pool[k]), dst);
  }

  lemma {:induction false} DecodesStoreConstant(pool: seq<Num>, dst: int, k: int)
    requires 0 <= k < |pool|
    ensures Decode(pool, Op(StoreConstNum, 0, 0, dst, k)) == FAssign(Global(dst), C(pool[k]))
  {}

  lemma {:induction false} DecodesVcPush(pool: seq<Num>, op: BinOp, v: int, k: int)
    requires 0 <= k < |pool| && (op == Add || op == Sub || op == Div)
    ensures Decode(pool, Op(if op == Add then AddVcPush else if op == Sub then SubVcPush else DivVcPush, 0, 0, v, k))
            == FPush(Bin(op, G(v), C(pool[k])))
  {}

  lemma {:induction false} VcPushSpelled(symbols: nat, d: seq<Instr>, i: nat, op: BinOp, v: int, k: Num)
    requires SlotOk(symbols, v) && i + 2 < |d| && d[i] == ILoad(Global(v)) && d[i + 1] == ILoad(Literal(k)) &&
        d[i + 2] == IBin(op)
    ensures Justified(symbols, d, i, FPush(Bin(op, G(v), C(k))))
  {
    SpellsPair(d, i, op, Global(v), Literal(k));
    PairOk(symbols, op, Global(v), Literal(k));
    JustifiedBy(symbols, d, i, FPush(Bin(op, G(v), C(k))), PLAIN);
  }

  lemma {:induction false} VariableConstantJustified(p: Program, t: seq<Mark>, code: seq<Op>, d: seq<Instr>, i: nat)
    requires Reads(p.pool, code, d) && VariableConstantAt(p, t, code, i).Fuse?
    ensures Justified(Symbols(p), d, i, Decode(p.pool, VariableConstantAt(p, t, code, i).op))
  {
    hide Decode, Justified;
    var v, k := code[i].a, code[i + 1].a;
    if code[i + 2].code == MulNum {
      DecodesMulCv(p.pool, k, v);
      ConstantTimesJustified(Symbols(p), d, i, p.pool[k], v);
    } else {
      var op := if code[i + 2].code == AddNum then Add else if code[i + 2].code == SubNum then Sub else Div;
      DecodesVcPush(p.pool, op, v, k);
      VcPushSpelled(Symbols(p), d, i, op, v, p.pool[k]);
    }
  }

  lemma {:induction false} ResidualJustified(p: Program, t: seq<Mark>, code: seq<Op>, d: seq<Instr>, i: nat)
    requires Reads(p.pool, code, d) && SlotsFit(p) && ResidualMatch(p, t, code, i).Fuse?
    ensures Justified(Symbols(p), d, i, Decode(p.pool, ResidualMatch(p, t, code, i).op))
  {
    hide Decode, Justified, Reads, AddProductAt, StoreConstantAt, VariableConstantAt;
    if AddProductAt(p, t, code, i).Fuse? { AddProductJustified(p, t, code, d, i); }
    else if StoreConstantAt(p, t, code, i).Fuse? { StoreConstantJustified(p, t, code, d, i); }
    else { VariableConstantJustified(p, t, code, d, i); }
  }
}
