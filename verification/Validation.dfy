/** The static check a compiled program must pass before it runs: slots, constants and jump
    targets in range, every jump inside one function, every local operation inside a function. */
module Validation {
  import opened Wrappers
  import opened Il
  import opened Optimizer

  const MAX_SYMBOLS := 64
  const MAX_FUNCTIONS := 32
  const MAX_LOCALS := 128
  const MAX_PARAMETERS := 8
  const MAX_LINES := 4096

  // ---------- functions ----------

  predicate InFunction(fn: Function, pc: int) { fn.entry <= pc < fn.end }

  /** The first function from `f` on that holds `pc`; -1 at module level. */
  function OwnerFrom(functions: seq<Function>, pc: int, f: nat): int
    decreases |functions| - f
  {
    if f >= |functions| then -1
    else if InFunction(functions[f], pc) then f
    else OwnerFrom(functions, pc, f + 1)
  }

  function Owner(p: Program, pc: int): int { OwnerFrom(p.functions, pc, 0) }

  predicate PcOk(n: nat, pc: int) { 0 <= pc < n }

  /** A jump that stays in the program and in its function. */
  predicate LocalEdge(p: Program, n: nat, from: int, to: int) { PcOk(n, to) && Owner(p, from) == Owner(p, to) }

  predicate FunctionOk(fn: Function, n: nat) {
    fn.numericLocals >= 0 && fn.stringLocals >= 0 && fn.numericLocals + fn.stringLocals <= MAX_LOCALS &&
    0 <= fn.parameters <= MAX_PARAMETERS && fn.parameters <= fn.numericLocals + fn.stringLocals &&
    0 <= fn.entry < fn.end <= n
  }

  predicate FunctionsOk(p: Program, n: nat) {
    (forall f :: 0 <= f < |p.functions| ==> FunctionOk(p.functions[f], n)) &&
    (forall f {:trigger p.functions[f].entry} :: 1 <= f < |p.functions| ==>
        p.functions[f - 1].end <= p.functions[f].entry)
  }

  // ---------- local superinstructions ----------

  datatype Shape = Shape(slots: nat, length: nat, constant: bool)

  /** How many slots a local pattern packs, how many operations it covers, whether it has a constant. */
  function PatternShape(pattern: int): Option<Shape> {
    match pattern
    case 0 => Some(Shape(2, 2, false))
    case 1 => Some(Shape(1, 2, true))
    case 2 => Some(Shape(2, 3, false))
    case 3 => Some(Shape(2, 3, false))
    case 4 => Some(Shape(2, 3, false))
    case 5 => Some(Shape(3, 4, false))
    case 6 => Some(Shape(3, 4, false))
    case 7 => Some(Shape(3, 4, false))
    case 8 => Some(Shape(4, 6, false))
    case 9 => Some(Shape(4, 6, false))
    case 10 => Some(Shape(6, 10, false))
    case 11 => Some(Shape(4, 8, true))
    case 12 => Some(Shape(1, 3, true))
    case 13 => Some(Shape(1, 3, true))
    case 14 => Some(Shape(1, 3, true))
    case 15 => Some(Shape(1, 3, true))
    case 16 => Some(Shape(3, 6, true))
    case _ => None
  }

  function Capacity(slots: nat): int {
    if slots == 0 then 1 else if slots == 1 then 128 else if slots == 2 then 16384 else if slots == 3
        then 2097152 else 268435456
  }

  function LocalOperand(op: Op, k: nat): int { if k < 4 then Field7(op.a, k) else Field7(op.b, k - 4) }

  predicate ValidLocalNumeric(op: Op, slots: int, constants: nat) {
    var s := PatternShape(op.flags);
    s.Some? && op.s == s.value.length && 0 <= op.a < Capacity(s.value.slots) &&
    (if s.value.constant then 0 <= op.b < constants
     else if s.value.slots <= 4 then op.b == 0 else 0 <= op.b < Capacity(s.value.slots - 4)) &&
    forall k :: 0 <= k < s.value.slots ==> LocalOperand(op, k) < slots
  }

  predicate ValidLocalGray(op: Op, slots: int) {
    op.flags == 0 && op.s == 12 && 0 <= op.a < 268435456 && 0 <= op.b <= 127 &&
    (forall k :: 0 <= k < 4 ==> LocalOperand(op, k) < slots) && op.b < slots
  }

  predicate LoadsLocal(op: Op, slot: int) { op.code == LoadLocalNum && op.a == slot }

  /** The retained tail behind a local gray pipeline. */
  predicate GrayTail(code: seq<Op>, i: nat) {
    i + 12 <= |code| &&
    var op := code[i];
    LoadsLocal(code[i + 1], LocalOperand(op, 2)) && code[i + 2].code == MulNum && IsIntCall(code, i + 3) &&
    code[i + 4].code == StoreLocalNum && code[i + 4].a == LocalOperand(op, 0) &&
    LoadsLocal(code[i + 5], LocalOperand(op, 0)) && LoadsLocal(code[i + 6], LocalOperand(op, 0)) &&
    LoadsLocal(code[i + 7], LocalOperand(op, 0)) && Calls(code, i + 8, FN_COLOR, 3) &&
    LoadsLocal(code[i + 9], LocalOperand(op, 3)) && LoadsLocal(code[i + 10], op.b) && Calls(code, i + 11, FN_PSET, 2)
  }

  // ---------- operations ----------

  predicate Plain(op: Op) { op.flags == 0 && op.s == 0 && op.a == 0 && op.b == 0 }

  predicate SlotValid(p: Program, slot: int) { 0 <= slot < |p.symbolIsString| }

  /** Operations that only make sense inside a function. */
  predicate NeedsFunction(c: OpCode) {
    match c
    case LoadLocalNum | StoreLocalNum | LoadLocalStr | StoreLocalStr | ForLocalInit | ForLocalCheck | ForLocalIncr
      | InputLocal | LocalNumFused | LocalGrayPsetMulInt => true
    case _ => false
  }

  predicate IsJump(c: OpCode) {
    match c
    case Jmp | Jz | Gosub | CeqNumJz | CneNumJz | CltNumJz | CleNumJz | CgtNumJz | CgeNumJz | NotNumJz | AndNumJz
      | OrNumJz | Sq2GtOrJz | SumSqGtJz => true
    case _ => false
  }

  predicate UsesSlot(c: OpCode) {
    match c
    case Load | Store | LoadNum | StoreNum | LoadStr | StoreStr | LoadArr | StoreArr | DimArr | ForInit => true
    case _ => false
  }

  predicate MustBePlain(c: OpCode) {
    match c
    case Dup | Drop | ReadDataNum | ReadDataStr | RestoreData | IdivNum | ShlNum | ShrNum | BxorNum => true
    case _ => false
  }

  /** What is asked of an operation inside `fn`. */
  predicate LocalOpOk(p: Program, fn: Function, n: nat, i: nat, op: Op) {
    match op.code
    case LoadLocalNum => 0 <= op.a < fn.numericLocals
    case StoreLocalNum => 0 <= op.a < fn.numericLocals
    case ForLocalInit => 0 <= op.a < fn.numericLocals
    case ForLocalCheck => 0 <= op.a < fn.numericLocals && LocalEdge(p, n, i, op.b)
    case ForLocalIncr => op.a == -1 || 0 <= op.a < fn.numericLocals
    case LoadLocalStr => 0 <= op.a < fn.stringLocals
    case StoreLocalStr => 0 <= op.a < fn.stringLocals
    case InputLocal => (op.b == 0 && 0 <= op.a < fn.numericLocals) || (op.b == 1 && 0 <= op.a < fn.stringLocals)
    case LocalGrayPsetMulInt => ValidLocalGray(op, fn.numericLocals) && i + op.s <= n && i + op.s <= fn.end
    case LocalNumFused => ValidLocalNumeric(op, fn.numericLocals, |p.pool|) && i + op.s <= fn.end
    case _ => true
  }

  /** What is asked of an operation by itself; `texts` are the offsets of terminated pool strings. */
  predicate GlobalOpOk(p: Program, texts: set<int>, n: nat, i: nat, op: Op) {
    (MustBePlain(op.code) ==> Plain(op)) &&
    (op.code == ExitLoop ==> p.structured && op.flags == 0 && op.s <= 16 && 0 <= op.b <= op.s && LocalEdge(p, n, i, op.a)) &&
    (op.code == PushNum ==> ConstantIndex(p, op.a)) &&
    (op.code == PushStr ==> op.s in texts) &&
    (UsesSlot(op.code) ==> SlotValid(p, op.a)) &&
    (op.code == ForIncr ==> op.a == -1 || SlotValid(p, op.a)) &&
    (IsJump(op.code) ==> LocalEdge(p, n, i, op.a)) &&
    (op.code == ForCheck ==> SlotValid(p, op.a) && LocalEdge(p, n, i, op.b)) &&
    (op.code == ComplexIterOrJz || op.code == ComplexIterSumSqJz ==>
      LocalEdge(p, n, i, op.b % 4096) && op.b / 4096 % 4096 < |p.pool|) &&
    (op.code == OnGoto || op.code == OnGosub ==> 0 < op.a && i + op.a < n) &&
    (op.code == CallUser ==> 0 <= op.a < |p.functions| && op.b == p.functions[op.a].parameters)
  }

  predicate OpOk(p: Program, texts: set<int>, n: nat, i: nat, op: Op) {
    GlobalOpOk(p, texts, n, i, op) &&
    (NeedsFunction(op.code) ==> Owner(p, i) >= 0 && Owner(p, i) < |p.functions| && LocalOpOk(p, p.functions[Owner(p, i)], n, i, op))
  }

  predicate SlotOk(p: Program, texts: set<int>, code: seq<Op>, i: nat)
    requires i < |code|
  {
    OpOk(p, texts, |code|, i, code[i]) && (code[i].code == LocalGrayPsetMulInt ==> GrayTail(code, i))
  }

  predicate HeaderOk(p: Program, n: nat) {
    n <= MAX_OPS && |p.pool| <= MAX_OPS && |p.symbolIsString| <= MAX_SYMBOLS && |p.linePcs| <= MAX_LINES &&
    |p.functions| <= MAX_FUNCTIONS && FunctionsOk(p, n) && forall k :: 0 <= k < |p.linePcs| ==> 0 <= p.linePcs[k] <= n
  }

  predicate Valid(p: Program, texts: set<int>, code: seq<Op>) {
    HeaderOk(p, |code|) && forall i :: 0 <= i < |code| ==> SlotOk(p, texts, code, i)
  }

  // ---------- the check as it runs ----------

  method FindOwner(p: Program, pc: int) returns (owner: int)
    ensures owner == Owner(p, pc)
    ensures owner >= 0 ==> owner < |p.functions| && InFunction(p.functions[owner], pc)
    ensures owner < 0 ==> forall f :: 0 <= f < |p.functions| ==> !InFunction(p.functions[f], pc)
  {
    owner := -1;
    for f := 0 to |p.functions|
      invariant OwnerFrom(p.functions, pc, f) == Owner(p, pc)
      invariant forall g :: 0 <= g < f ==> !InFunction(p.functions[g], pc)
    {
      if InFunction(p.functions[f], pc) { return f; }
    }
  }

  method CheckFunctions(p: Program, n: nat) returns (ok: bool)
    ensures ok <==> FunctionsOk(p, n)
  {
    for f := 0 to |p.functions|
      invariant forall g :: 0 <= g < f ==> FunctionOk(p.functions[g], n)
      invariant forall g {:trigger p.functions[g].entry} :: 1 <= g < f ==>
          p.functions[g - 1].end <= p.functions[g].entry
    {
      if !FunctionOk(p.functions[f], n) { return false; }
      if f > 0 && p.functions[f - 1].end > p.functions[f].entry { return false; }
    }
    return true;
  }

  method CheckOp(p: Program, texts: set<int>, code: seq<Op>, i: nat) returns (ok: bool)
    requires i < |code|
    ensures ok <==> SlotOk(p, texts, code, i)
  {
    hide GlobalOpOk, LocalOpOk, GrayTail;
    var op := code[i];
    if NeedsFunction(op.code) {
      var owner := FindOwner(p, i);
      if owner < 0 || !LocalOpOk(p, p.functions[owner], |code|, i, op) { return false; }
    }
    if op.code == LocalGrayPsetMulInt && !GrayTail(code, i) { return false; }
    ok := GlobalOpOk(p, texts, |code|, i, op);
  }

  method Validate(p: Program, texts: set<int>, code: array<Op>) returns (ok: bool)
    ensures ok <==> Valid(p, texts, code[..])
  {
    hide SlotOk, FunctionsOk;
    if code.Length > MAX_OPS || |p.pool| > MAX_OPS || |p.symbolIsString| > MAX_SYMBOLS || |p.linePcs| > MAX_LINES ||
       |p.functions| > MAX_FUNCTIONS { return false; }
    var functions := CheckFunctions(p, code.Length);
    if !functions { return false; }
    for k := 0 to |p.linePcs|
      invariant forall j :: 0 <= j < k ==> 0 <= p.linePcs[j] <= code.Length
    {
      if !(0 <= p.linePcs[k] <= code.Length) { return false; }
    }
    for i := 0 to code.Length
      invariant forall k :: 0 <= k < i ==> SlotOk(p, texts, code[..], k)
    {
      var good := CheckOp(p, texts, code[..], i);
      if !good { return false; }
    }
    return true;
  }
}
