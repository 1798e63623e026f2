/** What the one-pass compiler reads: a program as a stream of statements. An expression is the
    code that pushes its value; other statements that do not branch are the code they emit. */
module Statements {
  import opened Wrappers
  import opened Il

  datatype Item = One(value: Op) | Range(low: Op, high: Op)

  datatype Statement =
    | Straight(ops: seq<Op>)
    | Goto(line: int)
    | Gosub(line: int)
    | InlineIf(cond: seq<Op>, yes: Statement, no: Option<Statement>)
    | If(cond: seq<Op>)
    | ElseIf(cond: seq<Op>)
    | Else
    | EndIf
    | For(slot: int, start: seq<Op>, limit: seq<Op>, step: seq<Op>)
    | Next(slot: int) // -1 when NEXT names no variable
    | While(cond: seq<Op>)
    | Wend
    | Do(test: Option<seq<Op>>)
    | Loop(test: Option<seq<Op>>)
    | ExitFor
    | ExitDo
    | Select(cond: seq<Op>)
    | Case(items: seq<Item>)
    | CaseElse
    | EndSelect
    | Return(cond: seq<Op>)

  /** A source row: a numbered line, a function header or footer, or one statement of a row. */
  datatype Row = Numbered(line: int) | Function | EndFunction | Of(statement: Statement)

  /** Code that does not branch, as expressions and simple statements emit it. */
  predicate NoBranches(ops: seq<Op>) { forall k :: 0 <= k < |ops| ==> Branchless(ops[k]) }

  predicate Branchless(op: Op) {
    match op.code
    case Jmp | Jz | Gosub | ExitLoop | ForCheck => false
    case _ => true
  }

  /** The parts of a statement that stand for expressions and simple statements do not branch. */
  predicate Sound(t: Statement) {
    match t
    case Straight(ops) => NoBranches(ops)
    case InlineIf(cond, yes, no) => NoBranches(cond) && Sound(yes) && (no.Some? ==> Sound(no.value))
    case If(cond) => NoBranches(cond)
    case ElseIf(cond) => NoBranches(cond)
    case For(_, start, limit, step) => NoBranches(start) && NoBranches(limit) && NoBranches(step)
    case While(cond) => NoBranches(cond)
    case Do(test) => test.Some? ==> NoBranches(test.value)
    case Loop(test) => test.Some? ==> NoBranches(test.value)
    case Select(cond) => NoBranches(cond)
    case Case(items) => forall k :: 0 <= k < |items| ==> ItemSound(items[k])
    case Return(cond) => NoBranches(cond)
    case _ => true
  }

  predicate ItemSound(item: Item) {
    match item case One(v) => Branchless(v) case Range(low, high) => Branchless(low) && Branchless(high)
  }

  predicate RowSound(row: Row) { row.Of? ==> Sound(row.statement) }
}
