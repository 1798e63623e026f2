/** What a structured program means, with no stack, no jumps and no slots: each construct by the
    rule a BASIC programmer would give. Fuel bounds the rounds of loops. */
module Semantics {
  import opened Wrappers
  import opened Il
  import opened Machine
  import opened Blocks

  datatype World = World(vars: map<int, Num>, out: seq<Event>)

  datatype Result =
    | Normal(s: World)
    | ToFor(s: World) // EXIT FOR under way
    | ToDo(s: World) // EXIT DO under way
    | Halted(s: World)
    | Stuck(s: World) // division by zero, a zero STEP
    | Running // out of fuel

  function Valued(a: Arith, s: World, e: Expr): Option<Num> {
    Eval(a, State(0, [], s.vars, None, [], 0, s.out, map[]), e)
  }

  function Assign(s: World, slot: int, v: Num): World { s.(vars := s.vars[slot := v]) }

  predicate MatchesOne(a: Arith, v: Num, item: Literals) {
    match item
    case OneOf(w) => a.holds(Eq, v, w)
    case Between(low, high) => a.holds(Ge, v, low) && a.holds(Le, v, high)
  }

  /** A clause matches when some item of its list equals the selector or holds it in its range. */
  predicate Matches(
      a: Arith, v: Num, items: seq<Literals>) { exists k :: 0 <= k < |items| && MatchesOne(a, v, items[k]) }

  /** The loop goes on while the variable has not passed the limit in the direction of the step. */
  predicate GoesOn(a: Arith, current: Num, limit: Num, step: Num) {
    if a.holds(Ge, step, ZERO) then a.holds(Le, current, limit) else a.holds(Ge, current, limit)
  }

  function RunSimple(a: Arith, s: Stmt, st: World): Result {
    match s
    case Let(slot, e) =>
      var v := Valued(a, st, e);
      if v.None? then Stuck(st) else Normal(Assign(st, slot, v.value))
    case SetColor(r, g, b) =>
      var x, y, z := Valued(a, st, r), Valued(a, st, g), Valued(a, st, b);
      if x.None? || y.None? || z.None? then Stuck(st) else Normal(st.(out :=
          st.out + [Color(x.value, y.value, z.value)]))
    case SetPixel(x, y) =>
      var u, v := Valued(a, st, x), Valued(a, st, y);
      if u.None? || v.None? then Stuck(st) else Normal(st.(out := st.out + [Pixel(u.value, v.value)]))
    case LeaveFor => ToFor(st)
    case LeaveDo => ToDo(st)
    case _ => Halted(st)
  }

  function RunStmt(a: Arith, s: Stmt, st: World, fuel: nat): Result
    decreases fuel, s, 0
  {
    match s
    case OneLine(test, yes, no) =>
      var v := Valued(a, st, test);
      if v.None? then Stuck(st)
      else if !a.isZero(v.value) then RunStmt(a, yes, st, fuel)
      else if no.Some? then RunStmt(a, no.value, st, fuel)
      else Normal(st)
    case Choose(arms) => RunArms(a, arms, st, fuel)
    case WhileLoop(test, body) => RunWhile(a, test, body, st, fuel)
    case DoLoop(entry, body, until) => RunDo(a, entry, body, until, st, fuel)
    case ForLoop(slot, first, limit, step, body, _) => RunFor(a, slot, first, limit, step, body, st, fuel)
    case SelectCase(e, clauses) =>
      var v := Valued(a, st, e);
      if v.None? then Stuck(st) else RunClauses(a, v.value, clauses, st, fuel)
    case _ => RunSimple(a, s, st)
  }

  function RunBlock(a: Arith, b: Block, st: World, fuel: nat): Result
    decreases fuel, b, 0
  {
    if b.Nil? then Normal(st)
    else
      var r := RunStmt(a, b.head, st, fuel);
      if r.Normal? then RunBlock(a, b.tail, r.s, fuel) else r
  }

  function RunArms(a: Arith, arms: Arms, st: World, fuel: nat): Result
    decreases fuel, arms, 0
  {
    match arms
    case Arm(test, body, rest) =>
      var v := Valued(a, st, test);
      if v.None? then Stuck(st)
      else if !a.isZero(v.value) then RunBlock(a, body, st, fuel)
      else RunArms(a, rest, st, fuel)
    case Otherwise(other) => if other.None? then Normal(st) else RunBlock(a, other.value, st, fuel)
  }

  function RunClauses(a: Arith, v: Num, clauses: Clauses, st: World, fuel: nat): Result
    decreases fuel, clauses, 0
  {
    match clauses
    case When(items, body, rest) =>
      if Matches(a, v, items) then RunBlock(a, body, st, fuel) else RunClauses(a, v, rest, st, fuel)
    case Rest(other) => if other.None? then Normal(st) else RunBlock(a, other.value, st, fuel)
  }

  function RunWhile(a: Arith, test: Expr, body: Block, st: World, fuel: nat): Result
    decreases fuel, body, 1
  {
    if fuel == 0 then Running
    else
      var v := Valued(a, st, test);
      if v.None? then Stuck(st)
      else if a.isZero(v.value) then Normal(st)
      else
        var r := RunBlock(a, body, st, fuel);
        if r.Normal? then RunWhile(a, test, body, r.s, fuel - 1) else r
  }

  function RunDo(a: Arith, entry: Option<Expr>, body: Block, until: Option<Expr>, st: World, fuel: nat): Result
    decreases fuel, body, 1
  {
    if fuel == 0 then Running
    else
      var v := if entry.None? then Some(TRUTH) else Valued(a, st, entry.value);
      if v.None? then Stuck(st)
      else if entry.Some? && a.isZero(v.value) then Normal(st)
      else
        var r := RunBlock(a, body, st, fuel);
        match r
        case Normal(s) =>
          if until.None? then RunDo(a, entry, body, until, s, fuel - 1)
          else
            var u := Valued(a, s, until.value);
            if u.None? then Stuck(s)
            else if a.isZero(u.value) then RunDo(a, entry, body, until, s, fuel - 1)
            else Normal(s)
        case ToDo(s) => Normal(s)
        case _ => r
  }

  function RunFor(a: Arith, slot: int, first: Expr, limit: Expr, step: Expr, body: Block, st: World, fuel: nat): Result
    decreases fuel, body, 2
  {
    var v := Valued(a, st, first);
    if v.None? then Stuck(st)
    else
      var s := Assign(st, slot, v.value);
      var l, d := Valued(a, s, limit), Valued(a, s, step);
      if l.None? || d.None? || a.isZero(d.value) then Stuck(s)
      else if GoesOn(a, v.value, l.value, d.value) then RunRounds(a, slot, l.value, d.value, body, s, fuel)
      else Normal(s)
  }

  /** One round of a FOR loop, the increment, and the rounds after it. */
  function RunRounds(a: Arith, slot: int, limit: Num, step: Num, body: Block, st: World, fuel: nat): Result
    decreases fuel, body, 1
  {
    if fuel == 0 then Running
    else
      var r := RunBlock(a, body, st, fuel);
      match r
      case Normal(s) =>
        var current := a.apply(Add, Get(s.vars, slot), step);
        if GoesOn(a, current, limit, step) then RunRounds(a, slot, limit, step, body, Assign(s, slot, current),
            fuel - 1)
        else Normal(Assign(s, slot, current))
      case ToFor(s) => Normal(s)
      case _ => r
  }
}
