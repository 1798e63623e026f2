/** The line editor's undo history: edits are grouped while typing goes on, every state of the text has an
    identity, and `changed` compares the identity of the text with that of the last save. */
module EditorHistory {
  import opened Wrappers

  type Text = seq<char>

  /** A program: numbered lines, or plain rows (row `n` is `rows[n - 1]`). */
  datatype Doc = Numbered(lines: map<int, Text>) | Rows(rows: seq<Text>)

  function Get(d: Doc, n: int): Option<Text> {
    match d
    case Numbered(lines) => if n in lines then Some(lines[n]) else None
    case Rows(rows) => if 1 <= n <= |rows| then Some(rows[n - 1]) else None
  }

  predicate Has(d: Doc, n: int) { Get(d, n) != None }

  /** A line set, or taken away. Rows cannot be taken away one at a time. */
  function Put(d: Doc, n: int, body: Option<Text>): Doc
    requires d.Rows? ==> Has(d, n) && body.Some?
  {
    match d
    case Numbered(lines) => Numbered(if body.Some? then lines[n := body.value] else lines - {n})
    case Rows(rows) => Rows(rows[n - 1 := body.value])
  }

  // ---------- what a history record puts back ----------

  datatype Patch =
    | OneLine(number: int, body: Option<Text>)
    | TwoLines(number: int, body: Option<Text>, other: int, otherBody: Option<Text>)
    | RowRun(first: nat, replace: nat, rows: seq<Text>)

  /** A record has room for two lines. */
  predicate Fits(d: Doc, p: Patch) {
    match p
    case OneLine(n, body) => d.Rows? ==> Has(d, n) && body.Some?
    case TwoLines(n, _, m, _) => d.Numbered? && n != m
    case RowRun(first, replace, rows) => d.Rows? && first + replace <= |d.rows| && replace <= 2 && |rows| <= 2
  }

  function Apply(d: Doc, p: Patch): Doc
    requires Fits(d, p)
  {
    match p
    case OneLine(n, body) => Put(d, n, body)
    case TwoLines(n, body, m, otherBody) => Put(Put(d, n, body), m, otherBody)
    case RowRun(first, replace, rows) => Rows(d.rows[..first] + rows + d.rows[first + replace..])
  }

  /** What has to be recorded before `p` is applied. */
  function Inverse(d: Doc, p: Patch): Patch
    requires Fits(d, p)
  {
    match p
    case OneLine(n, _) => OneLine(n, Get(d, n))
    case TwoLines(n, _, m, _) => TwoLines(n, Get(d, n), m, Get(d, m))
    case RowRun(first, replace, rows) => RowRun(first, |rows|, d.rows[first..first + replace])
  }

  lemma {:induction false} LinesPutBack(d: Doc, p: Patch)
    requires Fits(d, p) && !p.RowRun?
    ensures Fits(Apply(d, p), Inverse(d, p)) && Apply(Apply(d, p), Inverse(d, p)) == d
  {
    var e := Apply(Apply(d, p), Inverse(d, p));
    if d.Numbered? { assert e.lines == d.lines; } else { assert e.rows == d.rows; }
  }

  lemma {:induction false} RowsPutBack(d: Doc, p: Patch)
    requires Fits(d, p) && p.RowRun?
    ensures Fits(Apply(d, p), Inverse(d, p)) && Apply(Apply(d, p), Inverse(d, p)) == d
    ensures Inverse(Apply(d, p), Inverse(d, p)) == p
  {
    var d' := Apply(d, p);
    assert d'.rows[p.first + |p.rows|..] == d.rows[p.first + p.replace..];
    assert d'.rows[..p.first] == d.rows[..p.first];
    assert d'.rows[p.first..p.first + |p.rows|] == p.rows;
    assert Apply(d', Inverse(d, p)).rows == d.rows;
  }

  /** A record taken before an edit puts the text back as it was; the record taken then is the edit again. */
  lemma {:induction false} InversePutsBack(d: Doc, p: Patch)
    requires Fits(d, p)
    ensures Fits(Apply(d, p), Inverse(d, p)) && Apply(Apply(d, p), Inverse(d, p)) == d
    ensures Inverse(Apply(d, p), Inverse(d, p)) == p
  {
    if p.RowRun? { RowsPutBack(d, p); } else { LinesPutBack(d, p); }
  }

  /** A line set twice is set by the second. */
  lemma {:induction false} LastPutWins(d: Doc, n: int, body: Option<Text>, later: Option<Text>)
    requires d.Rows? ==> Has(d, n) && body.Some? && later.Some?
    ensures Put(Put(d, n, body), n, later) == Put(d, n, later)
  {
    if d.Numbered? {
      assert Put(Put(d, n, body), n, later).lines == Put(d, n, later).lines;
    }
  }

  // ---------- records on a bounded stack ----------

  /** A record restores the state `id` by applying `patch`. */
  datatype Snapshot = Snapshot(id: nat, patch: Patch)

  /** Where place `i` of a ring of `n` slots is; `i` has gone round at most once. */
  function Wrap(i: nat, n: nat): nat { if i < n then i else i - n }

  lemma {:induction false} WrapIsModulo(i: nat, n: nat)
    requires 0 < n && i < 2 * n
    ensures i % n == Wrap(i, n)
  {
    if i >= n {
      assert i == n * 1 + (i - n);
      assert i / n == 1;
    }
  }

  /** The records on a ring, oldest first. */
  function Ring(slots: seq<Snapshot>, start: nat, count: nat): (s: seq<Snapshot>)
    requires start < |slots| && count <= |slots|
    ensures |s| == count
  {
    seq(count, k requires 0 <= k < count => slots[Wrap(start + k, |slots|)])
  }

  function Pushed(stack: seq<Snapshot>, s: Snapshot, capacity: nat): seq<Snapshot> {
    (if |stack| < capacity || stack == [] then stack else stack[1..]) + [s]
  }

  lemma {:induction false} RingTakesOneMore(slots: seq<Snapshot>, start: nat, count: nat, s: Snapshot)
    requires start < |slots| && count < |slots|
    ensures Ring(slots[Wrap(start + count, |slots|) := s], start, count + 1) == Ring(slots, start, count) + [s]
  {
    var n := |slots|;
    var after, before := Ring(slots[Wrap(start + count, n) := s], start, count + 1), Ring(slots, start, count);
    forall k | 0 <= k < count
      ensures after[k] == before[k]
    {
      assert Wrap(start + k, n) != Wrap(start + count, n);
    }
    assert after == before + [s];
  }

  lemma {:induction false} FullRingForgetsOldest(slots: seq<Snapshot>, start: nat, s: Snapshot)
    requires start < |slots|
    ensures Ring(slots[start := s], Wrap(start + 1, |slots|), |slots|) == Ring(slots, start, |slots|)[1..] + [s]
  {
    var n := |slots|;
    var after, before := Ring(slots[start := s], Wrap(start + 1, n), n), Ring(slots, start, n);
    forall k | 0 <= k < n - 1
      ensures after[k] == before[1..][k]
    {
      assert Wrap(Wrap(start + 1, n) + k, n) == Wrap(start + (k + 1), n) != start;
    }
    assert Wrap(Wrap(start + 1, n) + (n - 1), n) == start;
    assert after == before[1..] + [s];
  }

  /** A ring of records: a full one forgets its oldest. */
  class HistoryStack {
    const records: array<Snapshot>
    var start: nat
    var count: nat

    ghost predicate Valid()
      reads this
    {
      start < records.Length && count <= records.Length
    }

    ghost function Contents(): (s: seq<Snapshot>)
      requires Valid()
      reads this, records
    {
      Ring(records[..], start, count)
    }

    constructor (capacity: nat)
      requires capacity > 0
      ensures Valid() && Contents() == [] && fresh(records) && records.Length == capacity
    {
      records := new Snapshot[capacity](_ => Snapshot(0, OneLine(0, None)));
      start, count := 0, 0;
    }

    method Clear()
      requires Valid()
      modifies this
      ensures Valid() && Contents() == []
    {
      start, count := 0, 0;
    }

    method Push(s: Snapshot)
      requires Valid()
      modifies this, records
      ensures Valid() && Contents() == Pushed(old(Contents()), s, records.Length)
    {
      ghost var slots := records[..];
      var index := start;
      if count < records.Length {
        WrapIsModulo(start + count, records.Length);
        RingTakesOneMore(slots, start, count, s);
        index := (start + count) % records.Length;
        count := count + 1;
      } else {
        WrapIsModulo(start + 1, records.Length);
        FullRingForgetsOldest(slots, start, s);
        start := (start + 1) % records.Length;
      }
      records[index] := s;
      assert records[..] == slots[index := s];
    }

    method Pop() returns (s: Snapshot)
      requires Valid() && count > 0
      modifies this
      ensures Valid() && old(Contents()) == Contents() + [s]
    {
      WrapIsModulo(start + count - 1, records.Length);
      s := records[(start + count - 1) % records.Length];
      count := count - 1;
    }
  }

  // ---------- identities ----------

  /** What the editor knows about its states. `docs` says which text each identity in use stands for;
      `grouped` is the line being typed on, while typing goes on. */
  datatype Ledger = Ledger(
    next: nat, state: nat, saved: nat, savedText: Doc, docs: map<nat, Doc>,
    undo: seq<Snapshot>, redo: seq<Snapshot>, capacity: nat, history: bool, grouped: Option<int>)

  /** Applied one after the other from the top of the stack, the records lead from `d` through the texts
      their identities stand for. */
  ghost predicate Chain(docs: map<nat, Doc>, d: Doc, s: seq<Snapshot>)
    decreases |s|
  {
    s == [] ||
    (var top, rest := s[|s| - 1], s[..|s| - 1];
     top.id in docs && Fits(d, top.patch) && Apply(d, top.patch) == docs[top.id] && Chain(docs, docs[top.id], rest))
  }

  predicate Below(s: seq<Snapshot>, n: nat) { forall k :: 0 <= k < |s| ==> s[k].id < n }

  ghost predicate StacksFit(l: Ledger, text: Doc) {
    Chain(l.docs, text, l.undo) && Chain(l.docs, text, l.redo) && Below(l.undo, l.next) && Below(l.redo, l.next) &&
    |l.undo| + |l.redo| <= l.capacity
  }

  /** The last record is the line as it was before the typing began; no other record knows of the state. */
  ghost predicate GroupFits(l: Ledger, line: int) {
    l.state == l.next - 1 && l.saved != l.state &&
    (l.history ==>
       l.redo == [] && Below(l.undo, l.state) && l.undo != [] &&
       (var p := l.undo[|l.undo| - 1].patch; p.OneLine? && p.number == line))
  }

  /** Every identity in use stands for one text: that of the state is the text as it is, that of the save the
      text as it was saved. */
  ghost predicate Kept(l: Ledger, text: Doc) {
    0 < l.capacity && l.state < l.next && l.saved < l.next && (forall id <- l.docs :: id < l.next) &&
    l.state in l.docs && l.docs[l.state] == text && l.saved in l.docs && l.docs[l.saved] == l.savedText &&
    (l.history ==> StacksFit(l, text)) && (l.grouped.Some? ==> GroupFits(l, l.grouped.value))
  }

  /** If the text is not marked as changed it is the text that was saved. */
  lemma {:induction false} UnchangedIsSaved(l: Ledger, text: Doc)
    requires Kept(l, text) && l.state == l.saved
    ensures text == l.savedText
  {
  }

  lemma {:induction false} ChainAgrees(docs: map<nat, Doc>, docs': map<nat, Doc>, d: Doc, s: seq<Snapshot>)
    requires Chain(docs, d, s)
    requires forall k :: 0 <= k < |s| && s[k].id in docs ==> s[k].id in docs' && docs'[s[k].id] == docs[s[k].id]
    ensures Chain(docs', d, s)
    decreases |s|
  {
    if s != [] {
      assert s[|s| - 1].id in docs;
      ChainAgrees(docs, docs', docs[s[|s| - 1].id], s[..|s| - 1]);
    }
  }

  lemma {:induction false} ChainForgets(docs: map<nat, Doc>, d: Doc, s: seq<Snapshot>)
    requires s != [] && Chain(docs, d, s)
    ensures Chain(docs, d, s[1..])
    decreases |s|
  {
    if |s| > 1 {
      ChainForgets(docs, docs[s[|s| - 1].id], s[..|s| - 1]);
      assert s[..|s| - 1][1..] == s[1..][..|s[1..]| - 1];
    }
  }

  lemma {:induction false} ChainPushed(
      docs: map<nat, Doc>, d: Doc, s: seq<Snapshot>, top: Snapshot, d': Doc, capacity: nat)
    requires Chain(docs, d, s) && top.id in docs && docs[top.id] == d && Fits(d', top.patch) &&
        Apply(d', top.patch) == d
    ensures Chain(docs, d', Pushed(s, top, capacity))
  {
    var rest := if |s| < capacity || s == [] then s else s[1..];
    if s != [] { ChainForgets(docs, d, s); }
    assert (rest + [top])[..|rest|] == rest;
  }

  // ---------- what an edit, more typing, a save, undo and redo do to the identities ----------

  function Remembered(l: Ledger, patch: Patch, pushed: bool): Ledger {
    if l.history then
      l.(undo := Pushed(l.undo, Snapshot(l.state, patch), l.capacity), redo := [], history := pushed)
    else l
  }

  function Stamped(l: Ledger, text: Doc, grouped: Option<int>): Ledger {
    l.(next := l.next + 1, state := l.next, docs := l.docs[l.next := text], grouped := grouped)
  }

  function Recorded(l: Ledger, text: Doc, patch: Patch, pushed: bool, grouped: Option<int>): Ledger {
    Stamped(Remembered(l, patch, pushed), text, grouped)
  }

  lemma {:induction false} RecordedStacks(l: Ledger, was: Doc, text: Doc, patch: Patch)
    requires Kept(l, was) && l.history && Fits(text, patch) && Apply(text, patch) == was
    ensures Chain(l.docs[l.next := text], text, Pushed(l.undo, Snapshot(l.state, patch), l.capacity))
    ensures Chain(l.docs[l.next := text], text, [])
  {
    var docs := l.docs[l.next := text];
    ChainAgrees(l.docs, docs, was, l.undo);
    ChainPushed(docs, was, l.undo, Snapshot(l.state, patch), text, l.capacity);
  }

  lemma {:induction false} PushedOnTop(stack: seq<Snapshot>, s: Snapshot, capacity: nat, n: nat)
    requires 0 < capacity && |stack| <= capacity && Below(stack, n) && s.id < n
    ensures var more := Pushed(stack, s, capacity);
            0 < |more| <= capacity && more[|more| - 1] == s && Below(more, n)
  {
  }

  lemma {:induction false} RecordedKeeps(
      l: Ledger, was: Doc, text: Doc, patch: Patch, pushed: bool, grouped: Option<int>)
    requires Kept(l, was) && Fits(text, patch) && Apply(text, patch) == was
    requires grouped.Some? ==> patch.OneLine? && patch.number == grouped.value
    ensures Kept(Recorded(l, text, patch, pushed, grouped), text) && l.next != l.saved
  {
    hide Apply, Fits, Chain, Put, Has, Pushed;
    if l.history {
      RecordedStacks(l, was, text, patch);
      PushedOnTop(l.undo, Snapshot(l.state, patch), l.capacity, l.next);
    }
  }

  /** One record was made, and it leads back to the text before. */
  ghost predicate OneRecord(l: Ledger, was: Doc, l': Ledger, text: Doc, pushed: bool) {
    exists back :: Fits(text, back) && Apply(text, back) == was && l' == Recorded(l, text, back, pushed, None)
  }

  function Ended(l: Ledger): Ledger { l.(grouped := None) }

  lemma {:induction false} RecordedIsOne(l: Ledger, was: Doc, l': Ledger, text: Doc, back: Patch, pushed: bool)
    requires Fits(text, back) && Apply(text, back) == was && l' == Recorded(Ended(l), text, back, pushed, None)
    ensures OneRecord(l, was, l', text, pushed) && l'.history == (l.history && pushed)
  {
    hide Fits, Apply;
    assert l' == Recorded(l, text, back, pushed, None);
  }

  lemma {:induction false} OneRecordEnds(l: Ledger, was: Doc, l': Ledger, text: Doc, pushed: bool)
    requires OneRecord(Ended(l), was, l', text, pushed)
    ensures OneRecord(l, was, l', text, pushed)
  {
    hide Fits, Apply, Recorded;
    var back :| Fits(text, back) && Apply(text, back) == was && l' == Recorded(Ended(l), text, back, pushed, None);
    RecordedIsOne(l, was, l', text, back, pushed);
  }

  function Grown(l: Ledger, text: Doc): Ledger { l.(docs := l.docs[l.state := text]) }

  lemma {:induction false} GrownKeeps(l: Ledger, was: Doc, body: Text)
    requires Kept(l, was) && l.grouped.Some? && Has(was, l.grouped.value)
    ensures Kept(Grown(l, Put(was, l.grouped.value, Some(body))), Put(was, l.grouped.value, Some(body)))
    ensures l.state != l.saved
  {
    var text, docs := Put(was, l.grouped.value, Some(body)), l.docs[l.state := Put(was, l.grouped.value, Some(body))];
    if l.history {
      var top, rest := l.undo[|l.undo| - 1], l.undo[..|l.undo| - 1];
      LastPutWins(was, l.grouped.value, Some(body), top.patch.body);
      ChainAgrees(l.docs, docs, l.docs[top.id], rest);
    }
  }

  function Saved(l: Ledger, text: Doc): Ledger { l.(saved := l.state, savedText := text, grouped := None) }

  /** Without a history nothing can be put back, but the save can still be compared with. */
  lemma {:induction false} LostKeeps(l: Ledger, text: Doc)
    requires Kept(l, text)
    ensures Kept(l.(history := false), text)
  {
  }

  // ---------- either direction ----------

  function Source(l: Ledger, again: bool): seq<Snapshot> { if again then l.redo else l.undo }

  function Top(l: Ledger, again: bool): Snapshot
    requires Source(l, again) != []
  {
    var s := Source(l, again);
    s[|s| - 1]
  }

  lemma {:induction false} SavedKeeps(l: Ledger, text: Doc)
    requires Kept(l, text)
    ensures Kept(Saved(l, text), text)
  {
  }

  function Popped(l: Ledger, again: bool): Ledger
    requires Source(l, again) != []
  {
    var s := Source(l, again);
    if again then l.(redo := s[..|s| - 1]) else l.(undo := s[..|s| - 1])
  }

  function Filed(l: Ledger, again: bool, s: Snapshot, pushed: bool): Ledger {
    var stack := Pushed(Source(l, again), s, l.capacity);
    if again then l.(redo := stack, history := l.history && pushed) else l.(undo := stack, history := l.history &&
        pushed)
  }

  /** One step back, or forward again: the last record of one stack is applied, and what it overwrites goes
      onto the other. */
  function Stepped(l: Ledger, text: Doc, again: bool, pushed: bool): Ledger
    requires Source(l, again) != [] && Fits(text, Top(l, again).patch)
  {
    var top := Top(l, again);
    Filed(Popped(l, again), !again, Snapshot(l.state, Inverse(text, top.patch)), pushed).(state :=
        top.id, grouped := None)
  }

  lemma {:induction false} SteppedStacks(l: Ledger, text: Doc, again: bool)
    requires Kept(l, text) && l.history && Source(l, again) != []
    ensures var top, rest := Top(l, again), Source(Popped(l, again), again);
            top.id in l.docs && Fits(text, top.patch) && Apply(text, top.patch) == l.docs[top.id] && top.id < l.next &&
            Chain(l.docs, l.docs[top.id], rest) && Below(rest, l.next)
    ensures var top, other := Top(l, again), Source(l, !again);
            Chain(l.docs, l.docs[top.id], Pushed(other, Snapshot(l.state, Inverse(text, top.patch)), l.capacity))
  {
    hide Apply, Inverse, Fits;
    var top, other := Top(l, again), Source(l, !again);
    var back := Inverse(text, top.patch);
    InversePutsBack(text, top.patch);
    hide Pushed;
    ChainPushed(l.docs, text, other, Snapshot(l.state, back), Apply(text, top.patch), l.capacity);
  }

  lemma {:induction false} SteppedKeeps(l: Ledger, text: Doc, again: bool, pushed: bool)
    requires Kept(l, text) && l.history && Source(l, again) != []
    ensures Fits(text, Top(l, again).patch)
    ensures Kept(Stepped(l, text, again, pushed), Apply(text, Top(l, again).patch))
  {
    hide Apply, Inverse, Fits, Chain;
    SteppedStacks(l, text, again);
  }

  lemma {:induction false} SteppedEndsTyping(l: Ledger, text: Doc, again: bool, pushed: bool)
    requires Source(l, again) != [] && Fits(text, Top(l, again).patch)
    ensures Stepped(l.(grouped := None), text, again, pushed) == Stepped(l, text, again, pushed)
  {
  }

  /** A record taken off and put back. */
  lemma {:induction false} PutBackKeeps(l: Ledger, text: Doc, again: bool, pushed: bool)
    requires Kept(l, text) && l.history && l.grouped == None && Source(l, again) != []
    ensures Filed(Popped(l, again), again, Top(l, again), pushed) == l.(history := pushed)
    ensures Kept(l.(history := pushed), text)
  {
    var s := Source(l, again);
    assert s[..|s| - 1] + [s[|s| - 1]] == s;
  }

  /** Undo and then redo, or the other way round, leave everything as it was: the text, its identity and both
      stacks. */
  lemma {:induction false} ThereAndBack(l: Ledger, text: Doc, again: bool, pushed: bool)
    requires Kept(l, text) && l.history && Source(l, again) != [] && l.grouped == None
    ensures var p := Top(l, again).patch;
            Fits(text, p) &&
            (var l' := Stepped(l, text, again, true);
             Source(l', !again) != [] && Fits(Apply(text, p), Top(l', !again).patch) &&
             Apply(Apply(text, p), Top(l', !again).patch) == text &&
             Stepped(l', Apply(text, p), !again, pushed) == l.(history := pushed))
  {
    hide Apply, Inverse, Fits;
    var top, rest, other := Top(l, again), Source(Popped(l, again), again), Source(l, !again);
    assert Fits(text, top.patch) && |l.undo| + |l.redo| <= l.capacity by { SteppedStacks(l, text, again); }
    InversePutsBack(text, top.patch);
    hide Kept;
    var l' := Stepped(l, text, again, true);
    assert Source(l', !again) == other + [Snapshot(l.state, Inverse(text, top.patch))];
    assert Source(l', !again)[..|other|] == other;
    assert Source(l, again) == rest + [Snapshot(l'.state, top.patch)];
  }

  lemma {:induction false} StepGoesTo(l: Ledger, text: Doc, again: bool, pushed: bool)
    requires l.history && Source(l, again) != [] && Fits(text, Top(l, again).patch)
    ensures var l' := Stepped(l, text, again, pushed);
            l'.state == Top(l, again).id && l'.history == pushed && l'.grouped == None
  {
  }

  // ---------- every run ----------

  /** What can happen to a text and its identities. */
  datatype Act =
    | Edits(text: Doc, back: Patch, pushed: bool, grouped: Option<int>)
    | TypesOn(body: Text)
    | EndsTyping
    | Saves
    | Steps(again: bool, kept: bool)
    | LosesHistory

  ghost predicate Allowed(l: Ledger, text: Doc, a: Act) {
    match a
    case Edits(after, back, _, grouped) =>
      Fits(after, back) && Apply(after, back) == text &&
      (grouped.Some? ==> back.OneLine? && back.number == grouped.value)
    case TypesOn(_) => l.grouped.Some? && Has(text, l.grouped.value)
    case Steps(again, _) => l.history && Source(l, again) != [] && Fits(text, Top(l, again).patch)
    case _ => true
  }

  ghost function After(l: Ledger, text: Doc, a: Act): (Ledger, Doc)
    requires Allowed(l, text, a)
  {
    match a
    case Edits(after, back, pushed, grouped) => (Recorded(l, after, back, pushed, grouped), after)
    case TypesOn(body) =>
      var after := Put(text, l.grouped.value, Some(body));
      (Grown(l, after), after)
    case EndsTyping => (l.(grouped := None), text)
    case Saves => (Saved(l, text), text)
    case Steps(again, kept) => (Stepped(l, text, again, kept), Apply(text, Top(l, again).patch))
    case LosesHistory => (l.(history := false), text)
  }

  ghost predicate Leads(l0: Ledger, text0: Doc, a: Act, l: Ledger, text: Doc) {
    Allowed(l0, text0, a) && After(l0, text0, a) == (l, text)
  }

  function Fresh(text: Doc, capacity: nat): Ledger {
    Ledger(1, 0, 0, text, map[0 := text], [], [], capacity, true, None)
  }

  /** A run of acts leads from `l0` and `text0` to `l` and `text`. */
  ghost predicate RunsTo(l0: Ledger, text0: Doc, acts: seq<Act>, l: Ledger, text: Doc)
    decreases |acts|
  {
    if acts == [] then l == l0 && text == text0
    else
      var (front, last) := (acts[..|acts| - 1], acts[|acts| - 1]);
      exists l1, text1 :: Leads(l1, text1, last, l, text) && RunsTo(l0, text0, front, l1, text1)
  }

  lemma {:induction false} ActKeeps(l: Ledger, text: Doc, a: Act)
    requires Kept(l, text) && Allowed(l, text, a)
    ensures Kept(After(l, text, a).0, After(l, text, a).1)
  {
    hide Recorded, Grown, Stepped, Put, Has, Apply, Fits, Chain;
    match a
    case Edits(after, back, pushed, grouped) => RecordedKeeps(l, text, after, back, pushed, grouped);
    case TypesOn(body) => GrownKeeps(l, text, body);
    case EndsTyping =>
    case Saves => SavedKeeps(l, text);
    case Steps(again, kept) => SteppedKeeps(l, text, again, kept);
    case LosesHistory => LostKeeps(l, text);
  }

  lemma {:induction false} RunKeeps(l0: Ledger, text0: Doc, acts: seq<Act>, l: Ledger, text: Doc)
    requires Kept(l0, text0) && RunsTo(l0, text0, acts, l, text)
    ensures Kept(l, text)
    decreases |acts|
  {
    hide Kept, Allowed, After;
    if acts != [] {
      var front, last := acts[..|acts| - 1], acts[|acts| - 1];
      var l1, text1 :| Leads(l1, text1, last, l, text) && RunsTo(l0, text0, front, l1, text1);
      RunKeeps(l0, text0, front, l1, text1);
      ActKeeps(l1, text1, last);
    }
  }

  /** An identity that is in use and not being typed on. */
  predicate Fixed(l: Ledger, id: nat) { id in l.docs && (l.grouped.Some? ==> id != l.state) }

  /** An identity that the save or a record holds. */
  ghost predicate InUse(l: Ledger, id: nat) {
    id == l.saved || (l.history && exists s :: (s in l.undo || s in l.redo) && s.id == id)
  }

  lemma {:induction false} ChainKnows(docs: map<nat, Doc>, d: Doc, s: seq<Snapshot>, k: nat)
    requires Chain(docs, d, s) && k < |s|
    ensures s[k].id in docs
    decreases |s|
  {
    if k < |s| - 1 { ChainKnows(docs, docs[s[|s| - 1].id], s[..|s| - 1], k); }
  }

  lemma {:induction false} InUseIsFixed(l: Ledger, text: Doc, id: nat)
    requires Kept(l, text) && InUse(l, id)
    ensures Fixed(l, id)
  {
    if id != l.saved {
      var s :| (s in l.undo || s in l.redo) && s.id == id;
      if s in l.undo {
        var k :| 0 <= k < |l.undo| && l.undo[k] == s;
        ChainKnows(l.docs, text, l.undo, k);
      } else {
        var k :| 0 <= k < |l.redo| && l.redo[k] == s;
        ChainKnows(l.docs, text, l.redo, k);
      }
    }
  }

  lemma {:induction false} ActFixes(l: Ledger, text: Doc, a: Act, id: nat)
    requires Kept(l, text) && Allowed(l, text, a) && Fixed(l, id)
    ensures var l' := After(l, text, a).0; Fixed(l', id) && l'.docs[id] == l.docs[id]
  {
    hide Chain, Apply, Fits, Put, Has, Pushed, Inverse;
  }

  lemma {:induction false} RunFixes(l0: Ledger, text0: Doc, acts: seq<Act>, l: Ledger, text: Doc, id: nat)
    requires Kept(l0, text0) && RunsTo(l0, text0, acts, l, text) && Fixed(l0, id)
    ensures Fixed(l, id) && l.docs[id] == l0.docs[id]
    decreases |acts|
  {
    hide Kept, Allowed, After, Fixed;
    assert Fixed(l0, id) ==> id in l0.docs by { FixedIsKnown(l0, id); }
    if acts != [] {
      var front, last := acts[..|acts| - 1], acts[|acts| - 1];
      var l1, text1 :| Leads(l1, text1, last, l, text) && RunsTo(l0, text0, front, l1, text1);
      RunKeeps(l0, text0, front, l1, text1);
      RunFixes(l0, text0, front, l1, text1, id);
      ActFixes(l1, text1, last, id);
    }
  }

  lemma {:induction false} FixedIsKnown(l: Ledger, id: nat)
    requires Fixed(l, id)
    ensures id in l.docs
  {
  }

  /** Between any two points of a run: an identity held by the save or by a record stands for the same text ever
      after, also when it is gone back to and left again. */
  lemma {:induction false} IdentitiesNeverChange(
      start: Doc, capacity: nat, acts: seq<Act>, l: Ledger, text: Doc, more: seq<Act>, l': Ledger, text': Doc, id: nat)
    requires capacity > 0 && RunsTo(Fresh(start, capacity), start, acts, l, text) && RunsTo(l, text, more, l', text')
    requires InUse(l, id)
    ensures id in l.docs && id in l'.docs && l'.docs[id] == l.docs[id]
    ensures l'.state == id ==> text' == l.docs[id]
  {
    FreshKept(start, capacity);
    RunKeeps(Fresh(start, capacity), start, acts, l, text);
    InUseIsFixed(l, text, id);
    RunFixes(l, text, more, l', text', id);
    RunKeeps(l, text, more, l', text');
  }

  lemma {:induction false} FreshKept(text: Doc, capacity: nat)
    requires capacity > 0
    ensures Kept(Fresh(text, capacity), text)
  {
  }

  /** After any run of edits, typing, saves, undo and redo, records lost or not: a text not marked as changed is
      the text last saved, and every record still held leads back to the one text its identity stands for. */
  lemma {:induction false} UnchangedIsSavedAfterEveryRun(
      start: Doc, capacity: nat, acts: seq<Act>, l: Ledger, text: Doc)
    requires capacity > 0 && RunsTo(Fresh(start, capacity), start, acts, l, text)
    ensures l.state == l.saved ==> text == l.savedText
    ensures l.history ==> Chain(l.docs, text, l.undo) && Chain(l.docs, text, l.redo)
  {
    FreshKept(start, capacity);
    RunKeeps(Fresh(start, capacity), start, acts, l, text);
  }

  // ---------- the editor ----------

  datatype Group = NoGroup | Inserting | Backspacing | Deleting

  /** What was typed last, on which line, and where the cursor was left. */
  datatype Typing = Typing(kind: Group, line: int, cursor: nat)

  /** What may go wrong outside the editor during one call. */
  datatype Faults = Faults(
    refused: bool,    // the document does not take the pending line
    unpopped: bool,   // the record cannot be read back
    uncaptured: bool, // the lines it overwrites cannot be read
    unwritten: bool,  // the document does not take the lines it restores
    unread: bool,     // ... takes them, but the restored line cannot be read
    unpushed: bool)   // a record cannot be stored

  /** Undo or redo gets as far as handing the document the old lines, and the document takes them. */
  predicate Reaches(l: Ledger, again: bool, dirty: bool, f: Faults) {
    l.history && Source(l, again) != [] && (dirty ==> !f.refused) && !f.unpopped && !f.uncaptured && !f.unwritten
  }

  predicate Covers(p: Patch, n: int) {
    match p
    case OneLine(m, _) => n == m
    case TwoLines(m, _, k, _) => n == m || n == k
    case RowRun(first, replace, _) => first < n <= first + replace
  }

  /** A pending line does not matter to an edit that overwrites it. */
  lemma {:induction false} PendingOverwritten(d: Doc, n: int, body: Text, p: Patch)
    requires Has(d, n) && Covers(p, n) && Fits(Put(d, n, Some(body)), p)
    ensures Fits(d, p) && Apply(d, p) == Apply(Put(d, n, Some(body)), p)
  {
    var e := Put(d, n, Some(body));
    match p
    case OneLine(m, b) => LastPutWins(d, n, Some(body), b);
    case TwoLines(m, b, k, c) => assert Apply(d, p).lines == Apply(e, p).lines;
    case RowRun(first, replace, rows) =>
      assert e.rows[..first] == d.rows[..first];
      assert e.rows[first + replace..] == d.rows[first + replace..];
  }

  /** Over a pending line or none, a line typed is the line put, and putting the old one leads back. */
  lemma {:induction false} TypedLine(d: Doc, n: int, body: Text, dirty: bool, text: Text)
    requires Has(d, n) && (!dirty ==> Get(d, n) == Some(body))
    ensures var was := if dirty then Put(d, n, Some(body)) else d;
            Has(was, n) && Put(d, n, Some(text)) == Put(was, n, Some(text)) &&
            Fits(Put(d, n, Some(text)), OneLine(n, Some(body))) &&
            Apply(Put(d, n, Some(text)), OneLine(n, Some(body))) == was
  {
    LastPutWins(d, n, Some(body), Some(text));
    LastPutWins(d, n, Some(text), Some(body));
    if !dirty { InversePutsBack(d, OneLine(n, Some(text))); }
  }

  /** `other` is the line next to line `n`, on the given side. */
  predicate Neighbour(d: Doc, n: int, other: Option<int>, before: bool) {
    match d
    case Numbered(lines) =>
      var between := set k | k in lines && (if before then k < n else k > n);
      if other == None then between == {}
      else other.value in between && forall k <- between :: if before then k <= other.value else other.value <= k
    case Rows(rows) =>
      other == if before then if n > 1 then Some(n - 1) else None else if n < |rows| then Some(n + 1) else None
  }

  /** Line `n` with line `m` after it made one. */
  function Joined(d: Doc, n: int, m: int): Doc
    requires n != m && Has(d, n) && Has(d, m) && (d.Rows? ==> m == n + 1)
  {
    match d
    case Numbered(lines) => Numbered(lines[n := lines[n] + lines[m]] - {m})
    case Rows(rows) => Rows(rows[..n - 1] + [rows[n - 1] + rows[n]] + rows[n + 1..])
  }

  lemma {:induction false} NeighbourIsThere(d: Doc, n: int, m: int, before: bool)
    requires Has(d, n) && Neighbour(d, n, Some(m), before)
    ensures Has(d, m) && if before then m < n else n < m
    ensures d.Rows? ==> m == if before then n - 1 else n + 1
  {
  }

  function JoinPatch(rows: bool, kept: int, gone: int, whole: Text): Patch
    requires rows ==> kept >= 1
  {
    if rows then RowRun(kept - 1, 2, [whole]) else TwoLines(kept, Some(whole), gone, None)
  }

  lemma {:induction false} JoinPatchJoins(d: Doc, n: int, m: int)
    requires n != m && Has(d, n) && Has(d, m) && (d.Rows? ==> m == n + 1)
    ensures var p := JoinPatch(d.Rows?, n, m, Get(d, n).value + Get(d, m).value);
            Fits(d, p) && Apply(d, p) == Joined(d, n, m) && Covers(p, n) && Covers(p, m)
  {
  }

  /** `newNumber` can be the number of a new line right after line `n`, or right before it. */
  predicate Separate(d: Doc, n: int, newNumber: int, before: bool) {
    d.Numbered? && !Has(d, newNumber) &&
    (if before then newNumber < n && forall k <- d.lines :: k < n ==> k < newNumber
     else n < newNumber && forall k <- d.lines :: n < k ==> newNumber < k)
  }

  /** The two rows a row is cut into. */
  function Halves(body: Text, cursor: nat, layout: Text -> (Text, Text)): (rows: seq<Text>)
    requires cursor <= |body|
    ensures |rows| == 2
  {
    if cursor == 0 then [[], body]
    else if cursor == |body| then [layout(body).0, layout(body).1]
    else [body[..cursor], body[cursor..]]
  }

  class Editor {
    const undo: HistoryStack
    const redo: HistoryStack
    var doc: Doc
    // The line being worked on; `dirty` when the document does not have it yet.
    var has: bool
    var number: int
    var body: Text
    var cursor: nat
    var dirty: bool
    var stateId: nat
    var savedId: nat
    var nextId: nat
    var typing: Typing
    var history: bool
    ghost var docs: map<nat, Doc>
    ghost var savedText: Doc

    /** The text as the user sees it. */
    ghost function Logical(): Doc
      requires dirty ==> Has(doc, number)
      reads this
    {
      if dirty then Put(doc, number, Some(body)) else doc
    }

    ghost predicate LineFits()
      reads this
    {
      (dirty ==> has) && (has ==> Has(doc, number) && cursor <= |body|) &&
      (has && !dirty ==> Get(doc, number) == Some(body))
    }

    ghost predicate StacksValid()
      reads this, undo, redo
    {
      undo != redo && undo.records != redo.records && undo.records.Length == redo.records.Length &&
      undo.Valid() && redo.Valid()
    }

    ghost function Held(): Ledger
      requires StacksValid()
      reads this, undo, redo, undo.records, redo.records
    {
      Ledger(nextId, stateId, savedId, savedText, docs, undo.Contents(), redo.Contents(), undo.records.Length, history,
             if typing.kind == NoGroup then None else Some(typing.line))
    }

    ghost predicate Valid()
      reads this, undo, redo, undo.records, redo.records
    {
      StacksValid() && LineFits() && Kept(Held(), Logical())
    }

    predicate Changed()
      reads this
    {
      stateId != savedId
    }

    constructor (document: Doc, capacity: nat)
      requires capacity > 0
      ensures Valid() && Logical() == savedText == document && !dirty && fresh(undo) && fresh(redo)
      ensures Held() == Ledger(1, 0, 0, document, map[0 := document], [], [], capacity, true, None)
      ensures fresh(undo.records) && fresh(redo.records)
    {
      var done := new HistoryStack(capacity);
      var undone := new HistoryStack(capacity);
      undo, redo := done, undone;
      doc, has, number, body, cursor, dirty := document, false, 0, [], 0, false;
      stateId, savedId, nextId := 0, 0, 1;
      typing, history := Typing(NoGroup, 0, 0), true;
      docs, savedText := map[0 := document], document;
    }

    /** The line `n` of the document becomes the line being worked on, if there is one. */
    method Load(n: int, at: nat)
      modifies `has, `number, `body, `cursor, `dirty
      ensures LineFits() && !dirty && has == Has(doc, n) && (has ==> number == n && cursor == Least(at, |body|))
    {
      var line := Get(doc, n);
      has, dirty, number := line.Some?, false, n;
      body := if line.Some? then line.value else [];
      cursor := Least(at, |body|);
    }

    method Boundary()
      requires Valid()
      modifies `typing
      ensures Valid() && typing.kind == NoGroup && Held() == old(Held()).(grouped := None)
    {
      typing := typing.(kind := NoGroup);
    }

    /** The pending line is handed to the document. */
    method Commit(refused: bool) returns (ok: bool)
      requires Valid()
      modifies `doc, `dirty
      ensures Valid() && Held() == old(Held()) && Logical() == old(Logical())
      ensures if ok then !dirty else dirty && doc == old(doc)
      ensures ok <==> old(!dirty) || !refused
    {
      ok := !dirty || !refused;
      if dirty && ok {
        doc := Put(doc, number, Some(body));
        dirty := false;
      }
    }

    /** Another line is worked on; the text stays as it is. */
    method GoTo(n: int, at: nat, refused: bool, unread: bool) returns (ok: bool)
      requires Valid()
      modifies this
      ensures Valid() && Logical() == old(Logical()) && Held() == old(Held()).(grouped := None) &&
          typing.kind == NoGroup
      ensures ok <==> old(dirty ==> !refused) && !unread
      ensures ok ==> !dirty && has == Has(doc, n) && (has ==> number == n && cursor == Least(at, |body|))
    {
      Boundary();
      ok := Commit(refused);
      if ok {
        ok := !unread;
        if ok { Load(n, at); }
      }
    }

    /** The record is stored, and what could be redone no longer can. */
    method Remember(before: Patch, unpushed: bool)
      requires StacksValid()
      modifies `history, undo, undo.records, redo
      ensures StacksValid() && Held() == Remembered(old(Held()), before, !unpushed)
    {
      if history {
        redo.Clear();
        undo.Push(Snapshot(stateId, before));
        history := !unpushed;
      }
    }

    /** The text as it is now gets an identity of its own. */
    method Stamp(kind: Group)
      requires StacksValid() && LineFits()
      modifies `docs, `stateId, `nextId, `typing
      ensures StacksValid() && LineFits() && Logical() == old(Logical()) && stateId == old(nextId)
      ensures Held() == Stamped(old(Held()), old(Logical()), if kind == NoGroup then None else Some(number))
    {
      hide Ring, Put;
      ghost var text := Logical();
      docs := docs[nextId := text];
      stateId, nextId := nextId, nextId + 1;
      typing := Typing(kind, number, cursor);
    }

    /** A new identity for the text as it is now; `before` leads back to the text it was. */
    method Record(before: Patch, kind: Group, unpushed: bool, ghost was: Doc)
      requires StacksValid() && LineFits() && Kept(Held(), was)
      requires Fits(Logical(), before) && Apply(Logical(), before) == was
      requires kind != NoGroup ==> before.OneLine? && before.number == number
      modifies `docs, `history, `stateId, `nextId, `typing, undo, undo.records, redo
      ensures Valid() && Changed() && Logical() == old(Logical())
      ensures Held() == Recorded(old(Held()), old(Logical()), before, !unpushed,
                                 if kind == NoGroup then None else Some(number))
    {
      hide Kept, Ring, Put, Fits, Apply, Pushed, Remembered, Stamped;
      RecordedKeeps(Held(), was, Logical(), before, !unpushed, if kind == NoGroup then None else Some(number));
      Remember(before, unpushed);
      Stamp(kind);
    }

    /** One more step of the typing that gave the text its identity. */
    method TypeOn(text: Text, at: nat)
      requires Valid() && has && at <= |text| && typing.kind != NoGroup && typing.line == number
      modifies `docs, `body, `cursor, `dirty, `typing
      ensures Valid() && Changed() && dirty && body == text && cursor == at
      ensures Logical() == Put(old(Logical()), number, Some(text)) && Held() == Grown(old(Held()), Logical())
    {
      hide Ring, Kept, Put;
      ghost var was := Logical();
      TypedLine(doc, number, body, dirty, text);
      GrownKeeps(Held(), was, text);
      docs := docs[stateId := Put(was, number, Some(text))];
      body, cursor, dirty, typing := text, at, true, typing.(cursor := at);
    }

    /** The line being worked on becomes `text`: one more step of the same typing, or a step of its own. */
    method EditLine(kind: Group, text: Text, at: nat, unpushed: bool)
      requires Valid() && has && at <= |text|
      modifies this, undo, undo.records, redo
      ensures Valid() && Changed() && has && dirty && body == text && cursor == at
      ensures number == old(number) && doc == old(doc) && Logical() == Put(old(Logical()), number, Some(text))
      ensures if kind != NoGroup && old(typing) == Typing(kind, number, old(cursor))
          then Held() == Grown(old(Held()), Logical())
              else Held() == Recorded(old(Held()), Logical(), OneLine(number, Some(old(body))), !unpushed,
                                      if kind == NoGroup then None else Some(number))
    {
      hide Ring, Kept, Put, Get;
      if kind != NoGroup && typing == Typing(kind, number, cursor) {
        TypeOn(text, at);
      } else {
        ghost var was := Logical();
        var before := OneLine(number, Some(body));
        TypedLine(doc, number, body, dirty, text);
        body, cursor, dirty := text, at, true;
        Record(before, kind, unpushed, was);
      }
    }

    /** An edit the document takes as a whole: `p` is applied, and the line `focus` is worked on next. */
    method Rewrite(p: Patch, focus: int, at: nat, refused: bool, unpushed: bool) returns (ok: bool)
      requires Valid() && typing.kind == NoGroup && Fits(Logical(), p) && (dirty ==> Covers(p, number))
      modifies this, undo, undo.records, redo
      ensures Valid() && ok == !refused
      ensures ok ==> Changed() && !dirty && Logical() == Apply(old(Logical()), p) && history == (old(history) && !unpushed)
      ensures ok ==> OneRecord(old(Held()), old(Logical()), Held(), Logical(), !unpushed)
      ensures !ok ==> Logical() == old(Logical()) && Held() == old(Held())
    {
      hide Ring, Kept, Put, Get, Apply, Inverse, Fits, Recorded, OneRecord;
      ok := !refused;
      if ok {
        ghost var was, l := Logical(), Held();
        if dirty { PendingOverwritten(doc, number, body, p); }
        InversePutsBack(was, p);
        var before := Inverse(if dirty then Put(doc, number, Some(body)) else doc, p);
        doc := Apply(doc, p);
        Load(focus, at);
        Record(before, NoGroup, unpushed, was);
        RecordedIsOne(l, was, Held(), Logical(), before, !unpushed);
      }
    }

    method InsertChar(c: char, limit: nat, unpushed: bool) returns (ok: bool)
      requires Valid()
      modifies this, undo, undo.records, redo
      ensures Valid() && ok == (old(has) && ' ' <= c <= '~' && |old(body)| < limit)
      ensures ok ==> Changed() && number == old(number) && cursor == old(cursor) + 1
      ensures ok ==> Logical() == Put(old(Logical()), number, Some(old(body[..cursor] + [c] + body[cursor..])))
      ensures ok ==> Held() == if old(typing) == Typing(Inserting, number, old(cursor))
          then Grown(old(Held()), Logical())
                               else Recorded(old(Held()), Logical(), OneLine(number, Some(old(body))), !unpushed,
                                   Some(number))
      ensures !ok ==> Logical() == old(Logical()) && Held() == old(Held())
    {
      ok := has && ' ' <= c <= '~' && |body| < limit;
      if ok { EditLine(Inserting, body[..cursor] + [c] + body[cursor..], cursor + 1, unpushed); }
    }

    method InsertTab(limit: nat, unpushed: bool) returns (ok: bool)
      requires Valid()
      modifies this, undo, undo.records, redo
      ensures Valid() && ok == (old(has) && |old(body)| + 4 - old(cursor) % 4 <= limit)
      ensures ok ==> Changed() && cursor == old(cursor) + 4 - old(cursor) % 4
      ensures ok ==> var spaces := seq(4 - old(cursor) % 4, _ => ' ');
                     Logical() == Put(old(Logical()), old(number), Some(old(body[..cursor]) + spaces
                         + old(body[cursor..])))
      ensures !ok ==> Logical() == old(Logical()) && Held() == old(Held())
    {
      ok := has && |body| + 4 - cursor % 4 <= limit;
      if ok {
        var spaces := seq(4 - cursor % 4, _ => ' ');
        Boundary();
        EditLine(NoGroup, body[..cursor] + spaces + body[cursor..], cursor + |spaces|, unpushed);
      }
    }

    /** The character before the cursor; at the start of the line, the line joins the one before it. */
    method Backspace(before: Option<int>, limit: nat, refused: bool, unpushed: bool) returns (ok: bool)
      requires Valid() && (has ==> Neighbour(Logical(), number, before, true))
      modifies this, undo, undo.records, redo
      ensures Valid() && (ok ==> Changed() && old(has))
      ensures ok && old(cursor) > 0 ==>
                cursor == old(cursor) - 1 &&
                Logical() == Put(old(Logical()), old(number), Some(old(body[..cursor - 1] + body[cursor..])))
      ensures ok && old(cursor) == 0 ==> before.Some? && Logical() == Joined(old(Logical()), before.value, old(number))
      ensures ok <==> old(has) && (old(cursor) > 0 || (before.Some? && !refused &&
                                               |old(body)| + |Get(old(Logical()), before.value).value| <= limit))
      ensures ok && old(cursor) > 0 ==>
                Held() == if old(typing) == Typing(Backspacing, old(number), old(cursor)) then Grown(old(Held()), Logical())
                          else Recorded(old(Held()), Logical(), OneLine(old(number), Some(old(body))), !unpushed,
                                        Some(old(number)))
      ensures ok && !(old(cursor) > 0) ==> OneRecord(old(Held()), old(Logical()), Held(), Logical(), !unpushed)
      ensures !ok ==> Logical() == old(Logical()) && Ended(Held()) == Ended(old(Held()))
    {
      if !has {
        ok := false;
      } else if cursor == 0 {
        ok := JoinLine(true, before, limit, refused, unpushed);
      } else {
        EditLine(Backspacing, body[..cursor - 1] + body[cursor..], cursor - 1, unpushed);
        ok := true;
      }
    }

    method DeleteChar(after: Option<int>, limit: nat, refused: bool, unpushed: bool) returns (ok: bool)
      requires Valid() && (has ==> Neighbour(Logical(), number, after, false))
      modifies this, undo, undo.records, redo
      ensures Valid() && (ok ==> Changed() && old(has))
      ensures ok && old(cursor < |body|) ==>
                cursor == old(cursor) &&
                Logical() == Put(old(Logical()), old(number), Some(old(body[..cursor] + body[cursor + 1..])))
      ensures ok && old(cursor >= |body|) ==> after.Some? && Logical() == Joined(old(Logical()), old(number), after.value)
      ensures ok <==> old(has) && (old(cursor < |body|) || (after.Some? && !refused &&
                                               |old(body)| + |Get(old(Logical()), after.value).value| <= limit))
      ensures ok && old(cursor < |body|) ==>
                Held() == if old(typing) == Typing(Deleting, old(number), old(cursor)) then Grown(old(Held()), Logical())
                          else Recorded(old(Held()), Logical(), OneLine(old(number), Some(old(body))), !unpushed,
                                        Some(old(number)))
      ensures ok && !old(cursor < |body|) ==> OneRecord(old(Held()), old(Logical()), Held(), Logical(), !unpushed)
      ensures !ok ==> Logical() == old(Logical()) && Ended(Held()) == Ended(old(Held()))
    {
      if !has {
        ok := false;
      } else if cursor >= |body| {
        ok := JoinLine(false, after, limit, refused, unpushed);
      } else {
        EditLine(Deleting, body[..cursor] + body[cursor + 1..], cursor, unpushed);
        ok := true;
      }
    }

    /** The line becomes one with its neighbour; the earlier of the two numbers is kept. */
    method JoinLine(previous: bool, other: Option<int>, limit: nat, refused: bool, unpushed: bool) returns (ok: bool)
      requires Valid() && (has ==> Neighbour(Logical(), number, other, previous))
      modifies this, undo, undo.records, redo
      ensures Valid() && (ok ==> Changed())
      ensures ok <==> old(has) && other.Some? && !refused &&
                      |old(body)| + |Get(old(Logical()), other.value).value| <= limit
      ensures ok ==> Logical() == if previous then Joined(old(Logical()), other.value, old(number))
                                  else Joined(old(Logical()), old(number), other.value)
      ensures ok ==> OneRecord(old(Held()), old(Logical()), Held(), Logical(), !unpushed)
      ensures !ok ==> Logical() == old(Logical()) && Held() == Ended(old(Held()))
    {
      hide OneRecord, Recorded, Apply, Joined, Kept, Fits;
      ghost var l, was := Held(), Logical();
      Boundary();
      ok := false;
      if has && other.Some? {
        NeighbourIsThere(Logical(), number, other.value, previous);
        var neighbour := Get(doc, other.value).value;
        if |body| + |neighbour| <= limit {
          var left, right := if previous then neighbour else body, if previous then body else neighbour;
          var kept, gone := if previous then other.value else number, if previous then number else other.value;
          var p := JoinPatch(doc.Rows?, kept, gone, left + right);
          JoinPatchJoins(old(Logical()), kept, gone);
          ok := Rewrite(p, kept, |left|, refused, unpushed);
        }
      }
      if ok { OneRecordEnds(l, was, Held(), Logical(), !unpushed); }
    }

    /** The line is cut in two at the cursor. In rows, what is indented how when the cursor is at the end is
        `layout`'s to say. */
    method SplitLine(newNumber: int, layout: Text -> (Text, Text), refused: bool, unpushed: bool) returns (ok: bool)
      requires Valid()
      modifies this, undo, undo.records, redo
      ensures Valid() && (ok ==> Changed())
      ensures ok <==> !refused && (old(doc).Rows? || (old(has) && newNumber >= 0 &&
                                                      Separate(old(Logical()), old(number), newNumber, old(cursor) == 0)))
      ensures ok && old(has) && old(doc).Numbered? ==>
                Logical() == Numbered(if old(cursor) == 0 then old(Logical()).lines[newNumber := []]
                                      else old(Logical()).lines[old(number) := old(body[..cursor])][newNumber :=
                                          old(body[cursor..])])
      ensures ok && old(has) && old(doc).Rows? ==>
                Logical() == Rows(old(Logical()).rows[..old(number) - 1] + Halves(old(body), old(cursor), layout) +
                                  old(Logical()).rows[old(number)..])
      ensures ok && !old(has) ==> old(doc).Rows? && Logical() == Rows([[]] + old(doc).rows)
      ensures ok ==> OneRecord(old(Held()), old(Logical()), Held(), Logical(), !unpushed)
      ensures !ok ==> Logical() == old(Logical()) && Held() == Ended(old(Held()))
    {
      hide OneRecord, Recorded, Kept;
      ghost var l, was := Held(), Logical();
      Boundary();
      ok := false;
      if doc.Rows? {
        if !has {
          ok := Rewrite(RowRun(0, 0, [[]]), 1, 0, refused, unpushed);
        } else {
          var halves := Halves(body, cursor, layout);
          ok := Rewrite(RowRun(number - 1, 1, halves), if cursor == 0 then number else number + 1,
                        if 0 < cursor == |body| then |halves[1]| else 0, refused, unpushed);
        }
      } else if has && newNumber >= 0 && Separate(if dirty then Put(doc, number, Some(body))
          else doc, number, newNumber, cursor == 0) {
        var p := if cursor == 0 then TwoLines(number, Some(body), newNumber, Some([]))
                 else TwoLines(number, Some(body[..cursor]), newNumber, Some(body[cursor..]));
        ok := Rewrite(p, newNumber, 0, refused, unpushed);
      }
      if ok { OneRecordEnds(l, was, Held(), Logical(), !unpushed); }
    }

    /** A new empty line: numbered as asked, or before the row being worked on. */
    method InsertLine(newNumber: int, refused: bool, unwritten: bool, unpushed: bool) returns (ok: bool)
      requires Valid()
      modifies this, undo, undo.records, redo
      ensures Valid() && (ok ==> Changed())
      ensures ok <==> (old(doc).Rows? || (newNumber >= 0 && !Has(old(Logical()), newNumber))) &&
                      old(dirty ==> !refused) && !unwritten
      ensures ok && old(doc).Numbered? ==> Logical() == Put(old(Logical()), newNumber, Some([]))
      ensures ok && old(doc).Rows? ==>
                (var at := if old(has) then old(number) - 1 else 0;
                 Logical() == Rows(old(Logical()).rows[..at] + [[]] + old(Logical()).rows[at..]))
      ensures ok ==> OneRecord(old(Held()), old(Logical()), Held(), Logical(), !unpushed)
      ensures !ok ==> Logical() == old(Logical()) && Held() == Ended(old(Held()))
    {
      hide OneRecord, Recorded, Kept;
      ghost var l, was := Held(), Logical();
      Boundary();
      ok := doc.Rows? || newNumber >= 0;
      if ok { ok := Commit(refused); }
      if ok && doc.Rows? {
        var at := if has then number - 1 else 0;
        ok := Rewrite(RowRun(at, 0, [[]]), at + 1, 0, unwritten, unpushed);
      } else if ok {
        ok := !Has(doc, newNumber);
        if ok { ok := Rewrite(OneLine(newNumber, Some([])), newNumber, 0, unwritten, unpushed); }
      }
      if ok { OneRecordEnds(l, was, Held(), Logical(), !unpushed); }
    }

    method DeleteLine(next: int, refused: bool, unwritten: bool, unpushed: bool) returns (ok: bool)
      requires Valid()
      modifies this, undo, undo.records, redo
      ensures Valid() && (ok ==> Changed() && old(has))
      ensures ok <==> old(has) && old(dirty ==> !refused) && !unwritten
      ensures ok ==> match old(Logical())
                     case Numbered(lines) => Logical() == Numbered(lines - {old(number)})
                     case Rows(rows) => Logical() == Rows(rows[..old(number) - 1] + rows[old(number)..])
      ensures ok ==> OneRecord(old(Held()), old(Logical()), Held(), Logical(), !unpushed)
      ensures !ok ==> Logical() == old(Logical()) && Held() == Ended(old(Held()))
    {
      hide OneRecord, Recorded, Kept;
      ghost var l, was := Held(), Logical();
      Boundary();
      ok := has;
      if ok { ok := Commit(refused); }
      if ok {
        var p := if doc.Rows? then RowRun(number - 1, 1, []) else OneLine(number, None);
        ok := Rewrite(p, next, 0, unwritten, unpushed);
      }
      if ok { OneRecordEnds(l, was, Held(), Logical(), !unpushed); }
    }

    /** The whole text is stored; from here on it is what `Changed` compares with. */
    method Save(refused: bool, unsaved: bool) returns (ok: bool)
      requires Valid()
      modifies `doc, `dirty, `typing, `savedId, `savedText
      ensures Valid() && Logical() == old(Logical()) && ok == (old(!dirty || !refused) && !unsaved)
      ensures Held() == if ok then Saved(old(Held()), Logical()) else old(Held())
      ensures ok ==> !dirty
    {
      hide Ring, Kept, Put;
      ok := Commit(refused);
      ok := ok && !unsaved;
      if ok {
        SavedKeeps(Held(), Logical());
        Boundary();
        savedId, savedText := stateId, doc;
      }
    }

    method PopFrom(again: bool) returns (s: Snapshot)
      requires StacksValid() && Source(Held(), again) != []
      modifies undo, redo
      ensures StacksValid() && Held() == Popped(old(Held()), again) && s == Top(old(Held()), again)
    {
      hide Ring;
      if again { s := redo.Pop(); } else { s := undo.Pop(); }
    }

    method PushOnto(again: bool, s: Snapshot, unpushed: bool)
      requires StacksValid()
      modifies `history, undo, undo.records, redo, redo.records
      ensures StacksValid() && Held() == Filed(old(Held()), again, s, !unpushed)
    {
      hide Ring, Pushed;
      if again { redo.Push(s); } else { undo.Push(s); }
      history := history && !unpushed;
    }

    /** What the record overwrote goes onto the other stack, and the text gets back the identity it had. */
    method Exchange(again: bool, s: Snapshot, overwritten: Patch, unpushed: bool, ghost l: Ledger, ghost text: Doc)
      requires StacksValid() && Source(l, again) != [] && Held() == Popped(l, again) && l.grouped == None
      requires s == Top(l, again) && Fits(text, s.patch) && overwritten == Inverse(text, s.patch)
      modifies `history, `stateId, undo, undo.records, redo, redo.records
      ensures StacksValid() && Held() == Stepped(l, text, again, !unpushed)
    {
      hide Ring, Pushed, Inverse, Fits;
      PushOnto(!again, Snapshot(stateId, overwritten), unpushed);
      stateId := s.id;
    }

    /** The top record of a stack restores its lines, if the document is there for it. `torn` is a call that
        fails after the document has taken the old lines. */
    method Restore(again: bool, focus: int, at: nat, f: Faults) returns (ok: bool, ghost torn: bool)
      requires Valid() && !dirty && typing.kind == NoGroup && history && Source(Held(), again) != []
      modifies `doc, `has, `number, `body, `cursor, `dirty, `history, `stateId, undo, undo.records, redo, redo.records
      ensures torn == (!f.uncaptured && !f.unwritten && f.unread) && ok == (!f.uncaptured && !f.unwritten && !f.unread)
      ensures Fits(old(doc), Top(old(Held()), again).patch) && StacksValid() && !dirty
      ensures if ok || torn then doc == Apply(old(doc), Top(old(Held()), again).patch) else doc == old(doc)
      ensures if ok then Held() == Stepped(old(Held()), old(doc), again, !f.unpushed)
              else Held() == old(Held()).(history := !f.unpushed)
      ensures !torn ==> Valid()
    {
      hide Ring, Kept, Put, Apply, Inverse, Fits, Filed, Popped, Stepped, Pushed;
      ghost var l, text := Held(), doc;
      SteppedKeeps(l, text, again, !f.unpushed);
      PutBackKeeps(l, text, again, !f.unpushed);
      ok, torn := false, false;
      var s := PopFrom(again);
      if f.uncaptured || f.unwritten {
        PushOnto(again, s, f.unpushed);
      } else {
        var overwritten := Inverse(doc, s.patch);
        doc := Apply(doc, s.patch);
        if f.unread {
          PushOnto(again, s, f.unpushed);
          torn := true;
        } else {
          Load(focus, at);
          Exchange(again, s, overwritten, f.unpushed, l, text);
          ok := true;
        }
      }
    }

    /** Undo or redo begins: typing ends, the pending line is handed over, and there must be a record to be read. */
    method BeginStep(again: bool, f: Faults) returns (ok: bool)
      requires Valid()
      modifies `doc, `dirty, `typing, `history
      ensures Valid() && Logical() == old(Logical()) && typing.kind == NoGroup
      ensures ok <==> old(Held()).history && Source(old(Held()), again) != [] && old(dirty ==> !f.refused) && !f.unpopped
      ensures ok ==> !dirty && Held() == old(Held()).(grouped := None)
    {
      hide Ring, Kept, Put;
      Boundary();
      ok := history && (if again then redo.count else undo.count) > 0;
      if ok { ok := Commit(f.refused); }
      if ok && f.unpopped {
        LostKeeps(Held(), Logical());
        history, ok := false, false;
      }
    }

    /** Undo, or redo if `again`. */
    method ApplyHistory(again: bool, focus: int, at: nat, f: Faults) returns (ok: bool, ghost torn: bool)
      requires Valid()
      modifies this, undo, undo.records, redo, redo.records
      ensures ok || torn ==> old(history) && Source(old(Held()), again) != [] &&
                             Fits(old(Logical()), Top(old(Held()), again).patch) && StacksValid() && !dirty &&
                             Logical() == Apply(old(Logical()), Top(old(Held()), again).patch)
      ensures ok ==> Valid() && !torn && Held() == Stepped(old(Held()), old(Logical()), again, !f.unpushed)
      ensures ok <==> Reaches(old(Held()), again, old(dirty), f) && !f.unread
      ensures torn <==> Reaches(old(Held()), again, old(dirty), f) && f.unread
      ensures torn ==> stateId == old(stateId)
      ensures !ok && !torn ==> Valid() && Logical() == old(Logical()) && stateId == old(stateId)
      ensures savedId == old(savedId) && savedText == old(savedText)
    {
      hide Ring, Kept, Put, Get, Has, Apply, Inverse, Fits, Pushed, Stepped, Popped, Filed;
      ghost var l, text := Held(), Logical();
      torn := false;
      ok := BeginStep(again, f);
      if ok {
        SteppedKeeps(l, text, again, !f.unpushed);
        SteppedEndsTyping(l, text, again, !f.unpushed);
        ok, torn := Restore(again, focus, at, f);
      }
    }

    /** One step back: the text is what the last record leads back to. A call is `torn` if it fails after the
        document has taken the old lines; a text that is not the saved one then goes by the identity of the
        saved one exactly if that was the text before, and was another. */
    method Undo(focus: int, at: nat, f: Faults) returns (ok: bool, ghost torn: bool)
      requires Valid()
      modifies this, undo, undo.records, redo, redo.records
      ensures ok <==> Reaches(old(Held()), false, old(dirty), f) && !f.unread
      ensures torn <==> Reaches(old(Held()), false, old(dirty), f) && f.unread
      ensures savedId == old(savedId) && savedText == old(savedText)
      ensures torn ==> stateId == old(stateId)
      ensures ok || torn ==> old(Held()).undo != [] && Fits(old(Logical()), Top(old(Held()), false).patch) &&
                             StacksValid() && !dirty && Logical() == Apply(old(Logical()), Top(old(Held()),
                                 false).patch)
      ensures ok ==> Held() == Stepped(old(Held()), old(Logical()), false, !f.unpushed)
      ensures !torn ==> Valid() && (ok || (Logical() == old(Logical()) && stateId == old(stateId)))
      ensures torn ==> (Changed() || Logical() == savedText <==> old(Changed()) || Logical() == old(Logical()))
    {
      hide Kept, Ring, Stepped, Apply;
      if !Changed() { UnchangedIsSaved(Held(), Logical()); }
      ok, torn := ApplyHistory(false, focus, at, f);
    }

    method Redo(focus: int, at: nat, f: Faults) returns (ok: bool, ghost torn: bool)
      requires Valid()
      modifies this, undo, undo.records, redo, redo.records
      ensures ok <==> Reaches(old(Held()), true, old(dirty), f) && !f.unread
      ensures torn <==> Reaches(old(Held()), true, old(dirty), f) && f.unread
      ensures savedId == old(savedId) && savedText == old(savedText)
      ensures torn ==> stateId == old(stateId)
      ensures ok || torn ==> old(Held()).redo != [] && Fits(old(Logical()), Top(old(Held()), true).patch) &&
                             StacksValid() && !dirty && Logical() == Apply(old(Logical()), Top(old(Held()), true).patch)
      ensures ok ==> Held() == Stepped(old(Held()), old(Logical()), true, !f.unpushed)
      ensures !torn ==> Valid() && (ok || (Logical() == old(Logical()) && stateId == old(stateId)))
      ensures torn ==> (Changed() || Logical() == savedText <==> old(Changed()) || Logical() == old(Logical()))
    {
      hide Kept, Ring, Stepped, Apply;
      if !Changed() { UnchangedIsSaved(Held(), Logical()); }
      ok, torn := ApplyHistory(true, focus, at, f);
    }

    /** Undo and then redo: the text, its identity and both stacks are as they were. If only the undo succeeds, it
        has its effect. */
    method UndoAndRedo(focus: int, at: nat, f: Faults, g: Faults) returns (ok: bool)
      requires Valid() && !f.unread && !g.unread
      modifies this, undo, undo.records, redo, redo.records
      ensures Valid()
      ensures ok <==> Reaches(old(Held()), false, old(dirty), f) && !f.unpushed &&
                      !g.unpopped && !g.uncaptured && !g.unwritten
      ensures ok ==> Logical() == old(Logical()) && Held() == Ended(old(Held())).(history := !g.unpushed)
      ensures !ok && !Reaches(old(Held()), false, old(dirty), f) ==>
                Logical() == old(Logical()) && stateId == old(stateId)
      ensures !ok && Reaches(old(Held()), false, old(dirty), f) ==>
                Fits(old(Logical()), Top(old(Held()), false).patch) &&
                Logical() == Apply(old(Logical()), Top(old(Held()), false).patch) &&
                stateId == Top(old(Held()), false).id
    {
      hide Ring, Kept, Put, Apply, Inverse, Fits, Pushed, Stepped, Popped, Filed;
      Boundary();
      ghost var l, text, torn := Held(), Logical(), false;
      ok, torn := Undo(focus, at, f);
      if ok {
        ThereAndBack(l, text, false, !g.unpushed);
        StepGoesTo(l, text, false, !f.unpushed);
        ok, torn := Redo(focus, at, g);
      }
    }
  }

  /** A character typed onto a line and saved. */
  method TypedAndSaved() returns (e: Editor)
    ensures e.Valid() && e.Held().history && !e.dirty && !e.Changed() && fresh(e)
    ensures fresh(e.undo) && fresh(e.redo) && fresh(e.undo.records) && fresh(e.redo.records)
    ensures e.Logical() == Numbered(map[10 := "AB"]) && e.Held().undo == [Snapshot(0, OneLine(10, Some("A")))]
  {
    hide Ring, Kept;
    e := new Editor(Numbered(map[10 := "A"]), 1);
    var ok := e.GoTo(10, 1, false, false);
    ok := e.InsertChar('B', 80, false);
    assert "A"[..1] + ['B'] + "A"[1..] == "AB";
    assert e.Logical().lines == map[10 := "AB"];
    ok := e.Save(false, false);
  }

  /** An undo torn apart: the program is marked as saved, but is not what was saved. */
  method TornUndo() returns (e: Editor)
    ensures !e.Changed() && e.StacksValid() && !e.dirty && e.Logical() != e.savedText
  {
    hide Ring;
    e := TypedAndSaved();
    assert e.savedText == Numbered(map[10 := "AB"]) by { UnchangedIsSaved(e.Held(), e.Logical()); }
    var ok;
    ghost var torn;
    ok, torn := e.Undo(10, 0, Faults(false, false, false, false, true, false));
    assert Get(e.Logical(), 10) == Some("A");
  }

  function Least(a: nat, b: nat): nat { if a < b then a else b }
}
