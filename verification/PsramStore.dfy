/** The numbered lines of a program in external memory: a sorted index of small entries in front of a field of
    text slots. Every write may fail after it has changed part of what it was to write. */
module PsramStore {
  import opened Wrappers

  const LINES := 1024
  const LENGTH := 2048

  type Text = seq<char>

  datatype Entry = Entry(number: int, hash: int, slot: nat, length: nat)

  /** How a write ends: all of it done, or failed with the first `reached` entries written ... */
  datatype IndexWrite = Written | Stopped(reached: nat)

  /** ... or with anything at all in the slot. */
  datatype TextWrite = Stored | Spoiled(junk: Text)

  function Digits(n: int): nat
    decreases if n < 0 then 1 - n else n
  {
    if n < 0 then 1 + Digits(-n) else if n < 10 then 1 else 1 + Digits(n / 10)
  }

  /** What a line takes in the file: its number, a blank, its text and the end of the line. */
  function LineBytes(e: Entry): nat { Digits(e.number) + 1 + e.length + 1 }

  function Total(entries: seq<Entry>): nat {
    if entries == [] then 0 else Total(entries[..|entries| - 1]) + LineBytes(entries[|entries| - 1])
  }

  lemma {:induction false} TotalAdds(a: seq<Entry>, b: seq<Entry>)
    ensures Total(a + b) == Total(a) + Total(b)
  {
    if b == [] {
      assert a + b == a;
    } else {
      assert (a + b)[..|a + b| - 1] == a + b[..|b| - 1];
      TotalAdds(a, b[..|b| - 1]);
    }
  }

  // ---------- what an index and its slots stand for ----------

  predicate Sorted(entries: seq<Entry>) {
    forall i, j :: 0 <= i < j < |entries| ==> entries[i].number < entries[j].number
  }

  predicate Apart(entries: seq<Entry>) {
    (forall i :: 0 <= i < |entries| ==> entries[i].slot < LINES) &&
    (forall i, j :: 0 <= i < j < |entries| ==> entries[i].slot != entries[j].slot)
  }

  /** The entry's own text is in its slot. */
  predicate Matches(e: Entry, slots: seq<Text>, hash: (int, Text) -> int) {
    e.slot < |slots| && e.length == |slots[e.slot]| < LENGTH && e.hash == hash(e.number, slots[e.slot])
  }

  predicate Sound(entries: seq<Entry>, slots: seq<Text>, hash: (int, Text) -> int) {
    |slots| == LINES && Sorted(entries) && Apart(entries) &&
    forall i :: 0 <= i < |entries| ==> Matches(entries[i], slots, hash)
  }

  /** The entries and their slots hold exactly the lines of `m`. */
  predicate Denotes(entries: seq<Entry>, slots: seq<Text>, m: map<int, Text>) {
    (forall i :: 0 <= i < |entries| ==>
       entries[i].slot < |slots| && entries[i].number in m && m[entries[i].number] == slots[entries[i].slot]) &&
    (forall n <- m :: exists i :: 0 <= i < |entries| && entries[i].number == n)
  }

  /** The place of a number in the index. */
  predicate IsPlace(entries: seq<Entry>, number: int, pos: nat) {
    pos <= |entries| && (forall i :: 0 <= i < pos ==> entries[i].number < number) &&
    (forall i :: pos <= i < |entries| ==> number <= entries[i].number)
  }

  predicate Free(entries: seq<Entry>, slot: nat) {
    slot < LINES && forall i :: 0 <= i < |entries| ==> entries[i].slot != slot
  }

  function Without(entries: seq<Entry>, pos: nat): (rest: seq<Entry>)
    requires pos < |entries|
    ensures |rest| == |entries| - 1
  {
    entries[..pos] + entries[pos + 1..]
  }

  function With(entries: seq<Entry>, pos: nat, e: Entry): (more: seq<Entry>)
    requires pos <= |entries|
    ensures |more| == |entries| + 1
  {
    entries[..pos] + [e] + entries[pos..]
  }

  lemma {:induction false} TotalWith(entries: seq<Entry>, pos: nat, e: Entry)
    requires pos <= |entries|
    ensures Total(With(entries, pos, e)) == Total(entries) + LineBytes(e)
  {
    TotalAdds(entries[..pos], entries[pos..]);
    TotalAdds(entries[..pos], [e]);
    TotalAdds(entries[..pos] + [e], entries[pos..]);
    assert entries == entries[..pos] + entries[pos..];
    assert [e][..0] == [];
  }

  lemma {:induction false} TotalWithout(entries: seq<Entry>, pos: nat)
    requires pos < |entries|
    ensures Total(entries) == Total(Without(entries, pos)) + LineBytes(entries[pos])
  {
    TotalWith(Without(entries, pos), pos, entries[pos]);
    assert With(Without(entries, pos), pos, entries[pos]) == entries;
  }

  // A line taken out of the index.

  lemma {:induction false} WithoutAt(entries: seq<Entry>, pos: nat, i: nat)
    requires pos < |entries| && i < |entries| - 1
    ensures Without(entries, pos)[i] == entries[if i < pos then i else i + 1]
  {
  }

  lemma {:induction false} WithoutSound(entries: seq<Entry>, slots: seq<Text>, hash: (int, Text) -> int, pos: nat)
    requires Sound(entries, slots, hash) && pos < |entries|
    ensures Sound(Without(entries, pos), slots, hash) && Free(Without(entries, pos), entries[pos].slot)
  {
    var rest := Without(entries, pos);
    forall i | 0 <= i < |rest|
      ensures rest[i] == entries[if i < pos then i else i + 1]
    {
      WithoutAt(entries, pos, i);
    }
    hide Without, Matches;
  }

  lemma {:induction false} WithoutDenotes(entries: seq<Entry>, slots: seq<Text>, m: map<int, Text>, pos: nat)
    requires Sorted(entries) && Denotes(entries, slots, m) && pos < |entries|
    ensures Denotes(Without(entries, pos), slots, m - {entries[pos].number})
  {
    var rest, m' := Without(entries, pos), m - {entries[pos].number};
    forall i | 0 <= i < |rest|
      ensures rest[i].slot < |slots| && rest[i].number in m' && m'[rest[i].number] == slots[rest[i].slot]
    {
      WithoutAt(entries, pos, i);
      var k := if i < pos then i else i + 1;
      assert entries[k].number != entries[pos].number;
    }
    forall n <- m'
      ensures exists i :: 0 <= i < |rest| && rest[i].number == n
    {
      var i :| 0 <= i < |entries| && entries[i].number == n;
      WithoutAt(entries, pos, if i < pos then i else i - 1);
    }
  }

  // A line put into the index, its text into a free slot.

  lemma {:induction false} WithAt(entries: seq<Entry>, pos: nat, e: Entry, i: nat)
    requires pos <= |entries| && i <= |entries|
    ensures With(entries, pos, e)[i] == if i < pos then entries[i] else if i == pos then e else entries[i - 1]
  {
  }

  predicate Absent(entries: seq<Entry>, number: int) { forall i :: 0 <= i < |entries| ==> entries[i].number != number }

  lemma {:induction false} WithSound(
    entries: seq<Entry>, slots: seq<Text>, hash: (int, Text) -> int, pos: nat, e: Entry)
    requires Sound(entries, slots, hash) && IsPlace(entries, e.number, pos) && Absent(entries, e.number)
    requires Free(entries, e.slot) && Matches(e, slots, hash)
    ensures Sound(With(entries, pos, e), slots, hash)
  {
    var more := With(entries, pos, e);
    forall i | 0 <= i < |more|
      ensures more[i] == if i < pos then entries[i] else if i == pos then e else entries[i - 1]
    {
      WithAt(entries, pos, e, i);
    }
    hide With, Matches;
  }

  lemma {:induction false} WithDenotes(entries: seq<Entry>, slots: seq<Text>, m: map<int, Text>, pos: nat, e: Entry)
    requires Denotes(entries, slots, m) && pos <= |entries| && Absent(entries, e.number) && e.slot < |slots|
    ensures Denotes(With(entries, pos, e), slots, m[e.number := slots[e.slot]])
  {
    var more, m' := With(entries, pos, e), m[e.number := slots[e.slot]];
    forall i | 0 <= i < |more|
      ensures more[i].slot < |slots| && more[i].number in m' && m'[more[i].number] == slots[more[i].slot]
    {
      WithAt(entries, pos, e, i);
    }
    forall n | n in m'
      ensures exists i :: 0 <= i < |more| && more[i].number == n
    {
      if n == e.number {
        WithAt(entries, pos, e, pos);
      } else {
        var i :| 0 <= i < |entries| && entries[i].number == n;
        WithAt(entries, pos, e, if i < pos then i else i + 1);
      }
    }
  }

  lemma {:induction false} SoundParts(entries: seq<Entry>, slots: seq<Text>, hash: (int, Text) -> int)
    requires Sound(entries, slots, hash)
    ensures |slots| == LINES && Sorted(entries) && Apart(entries)
  {
  }

  /** Where the search for a number ends, and what it has found. */
  lemma {:induction false} PlaceFound(
    entries: seq<Entry>, slots: seq<Text>, m: map<int, Text>, number: int, pos: nat)
    requires Sorted(entries) && Denotes(entries, slots, m) && pos <= |entries|
    requires forall i :: 0 <= i < pos ==> entries[i].number < number
    requires pos < |entries| ==> number <= entries[pos].number
    ensures IsPlace(entries, number, pos)
    ensures number in m <==> pos < |entries| && entries[pos].number == number
    ensures number in m ==> slots[entries[pos].slot] == m[number]
    ensures number !in m <==> Absent(entries, number)
  {
  }

  /** What is written into a free slot does not matter. */
  lemma {:induction false} FreeSlotIsUnused(
    entries: seq<Entry>, slots: seq<Text>, hash: (int, Text) -> int, m: map<int, Text>, slot: nat, text: Text)
    requires Sound(entries, slots, hash) && Denotes(entries, slots, m) && Free(entries, slot)
    ensures Sound(entries, slots[slot := text], hash) && Denotes(entries, slots[slot := text], m)
  {
  }

  /** With `n` slots taken there are at least `n` entries. */
  lemma {:induction false} AllSlotsTaken(entries: seq<Entry>, n: nat)
    requires n <= LINES && forall k :: 0 <= k < n ==> !Free(entries, k)
    ensures |entries| >= n
  {
    if n > 0 {
      assert !Free(entries, n - 1);
      var j :| 0 <= j < |entries| && entries[j].slot == n - 1;
      var rest := Without(entries, j);
      forall k | 0 <= k < n - 1
        ensures !Free(rest, k)
      {
        assert !Free(entries, k);
        var i :| 0 <= i < |entries| && entries[i].slot == k;
        WithoutAt(entries, j, if i < j then i else i - 1);
      }
      AllSlotsTaken(rest, n - 1);
    }
  }

  lemma {:induction false} SlotsBelow(entries: seq<Entry>, n: nat) returns (slots: set<int>)
    requires Apart(entries) && n <= |entries|
    ensures |slots| == n && forall k :: k in slots <==> exists i :: 0 <= i < n && entries[i].slot == k
  {
    if n == 0 {
      slots := {};
    } else {
      slots := SlotsBelow(entries, n - 1);
      slots := slots + {entries[n - 1].slot};
    }
  }

  lemma {:induction false} Range(n: nat) returns (all: set<int>)
    ensures |all| == n && forall k :: k in all <==> 0 <= k < n
  {
    if n == 0 {
      all := {};
    } else {
      all := Range(n - 1);
      all := all + {n - 1};
    }
  }

  /** Where a slot is free there is room for one more entry. */
  lemma {:induction false} FreeLeavesRoom(entries: seq<Entry>, slot: nat)
    requires Apart(entries) && Free(entries, slot)
    ensures |entries| < LINES
  {
    var taken := SlotsBelow(entries, |entries|);
    var all := Range(LINES);
    forall k | k in taken
      ensures k in all
    {
    }
    var rest := all - taken - {slot};
    assert all == taken + {slot} + rest && taken + {slot} !! rest && slot !in taken;
  }

  // ---------- two lines at once ----------

  /** The entries but those of two numbers. */
  function Kept(entries: seq<Entry>, a: int, b: int): seq<Entry> {
    if entries == [] then []
    else
      var (rest, last) := (Kept(entries[..|entries| - 1], a, b), entries[|entries| - 1]);
      if last.number == a || last.number == b then rest else rest + [last]
  }

  lemma {:induction false} KeptMembers(entries: seq<Entry>, a: int, b: int)
    ensures forall e :: e in Kept(entries, a, b) <==> e in entries && e.number != a && e.number != b
  {
    if entries != [] {
      var front, last := entries[..|entries| - 1], entries[|entries| - 1];
      KeptMembers(front, a, b);
      assert entries == front + [last];
      assert forall e :: e in entries <==> e in front || e == last;
    }
  }

  lemma {:induction false} KeptSize(entries: seq<Entry>, a: int, b: int)
    requires Sorted(entries) && a != b
    ensures |Kept(entries, a, b)| ==
            |entries| - (if Absent(entries, a) then 0 else 1) - (if Absent(entries, b) then 0 else 1)
  {
    if entries != [] {
      var front, last := entries[..|entries| - 1], entries[|entries| - 1];
      KeptSize(front, a, b);
      assert forall i :: 0 <= i < |front| ==> front[i] == entries[i];
      assert Absent(entries, a) <==> Absent(front, a) && last.number != a;
      assert Absent(entries, b) <==> Absent(front, b) && last.number != b;
    }
  }

  lemma {:induction false} FrontInOrder(entries: seq<Entry>)
    requires entries != [] && Sorted(entries) && Apart(entries)
    ensures var front, last := entries[..|entries| - 1], entries[|entries| - 1];
            Sorted(front) && Apart(front) && last.slot < LINES &&
            forall e :: e in front ==> e.number < last.number && e.slot != last.slot
  {
  }

  lemma {:induction false} AppendedInOrder(entries: seq<Entry>, last: Entry)
    requires Sorted(entries) && Apart(entries) && last.slot < LINES
    requires forall e :: e in entries ==> e.number < last.number && e.slot != last.slot
    ensures Sorted(entries + [last]) && Apart(entries + [last])
  {
    assert forall i :: 0 <= i < |entries| ==> entries[i] in entries;
  }

  lemma {:induction false} KeptInOrder(entries: seq<Entry>, a: int, b: int)
    requires Sorted(entries) && Apart(entries)
    ensures Sorted(Kept(entries, a, b)) && Apart(Kept(entries, a, b))
  {
    if entries == [] {
      assert Kept(entries, a, b) == entries;
    } else {
      hide Sorted, Apart;
      var front, last := entries[..|entries| - 1], entries[|entries| - 1];
      FrontInOrder(entries);
      KeptInOrder(front, a, b);
      KeptMembers(front, a, b);
      AppendedInOrder(Kept(front, a, b), last);
    }
  }

  lemma {:induction false} KeptMatches(
      entries: seq<Entry>, slots: seq<Text>, hash: (int, Text) -> int, m: map<int, Text>, a: int, b: int, i: nat)
    requires Sound(entries, slots, hash) && Denotes(entries, slots, m) && i < |Kept(entries, a, b)|
    ensures var e := Kept(entries, a, b)[i];
            e.number != a && e.number != b && Matches(e, slots, hash) && e.number in m && m[e.number] == slots[e.slot]
  {
    hide Kept, Sorted, Apart;
    KeptMembers(entries, a, b);
    var e := Kept(entries, a, b)[i];
    assert e in entries;
    var k :| 0 <= k < |entries| && entries[k] == e;
  }

  lemma {:induction false} KeptHolds(entries: seq<Entry>, a: int, b: int, k: nat)
    requires k < |entries| && entries[k].number != a && entries[k].number != b
    ensures exists i :: 0 <= i < |Kept(entries, a, b)| && Kept(entries, a, b)[i].number == entries[k].number
  {
    hide Kept;
    KeptMembers(entries, a, b);
    var kept := Kept(entries, a, b);
    assert entries[k] in kept;
    var i :| 0 <= i < |kept| && kept[i] == entries[k];
  }

  lemma {:induction false} KeptDenotes(
    entries: seq<Entry>, slots: seq<Text>, hash: (int, Text) -> int, m: map<int, Text>, a: int, b: int)
    requires Sound(entries, slots, hash) && Denotes(entries, slots, m)
    ensures Sound(Kept(entries, a, b), slots, hash) && Denotes(Kept(entries, a, b), slots, m - {a, b})
    ensures Absent(Kept(entries, a, b), a) && Absent(Kept(entries, a, b), b)
  {
    hide Kept, Sorted, Apart, Matches;
    var kept := Kept(entries, a, b);
    KeptInOrder(entries, a, b);
    forall i: nat | i < |kept|
      ensures kept[i].slot < |slots| && Matches(kept[i], slots, hash) && kept[i].number in m - {a, b}
      ensures m[kept[i].number] == slots[kept[i].slot]
    {
      KeptMatches(entries, slots, hash, m, a, b, i);
      MatchesInside(kept[i], slots, hash);
    }
    forall n | n in m - {a, b}
      ensures exists i :: 0 <= i < |kept| && kept[i].number == n
    {
      var k :| 0 <= k < |entries| && entries[k].number == n;
      KeptHolds(entries, a, b, k);
    }
  }

  lemma {:induction false} MatchesInside(e: Entry, slots: seq<Text>, hash: (int, Text) -> int)
    requires Matches(e, slots, hash)
    ensures e.slot < |slots|
  {
  }

  /** An index does not mind what happens in slots it does not use. */
  predicate Agree(entries: seq<Entry>, slots: seq<Text>, slots': seq<Text>) {
    |slots'| == |slots| &&
    forall i :: 0 <= i < |entries| ==> entries[i].slot < |slots| ==> slots'[entries[i].slot] == slots[entries[i].slot]
  }

  lemma {:induction false} AgreeDenotes(
    entries: seq<Entry>, slots: seq<Text>, slots': seq<Text>, hash: (int, Text) -> int, m: map<int, Text>)
    requires Sound(entries, slots, hash) && Denotes(entries, slots, m) && Agree(entries, slots, slots')
    ensures Sound(entries, slots', hash) && Denotes(entries, slots', m)
  {
  }

  // ---------- the store ----------

  /** What the memory does during one call. */
  datatype Faults = Faults(unread: bool, text: TextWrite, index: IndexWrite)

  function Least(a: nat, b: nat): nat { if a < b then a else b }

  /** The index after a write of `entries` to its start. */
  function Overwritten(index: seq<Entry>, entries: seq<Entry>, w: IndexWrite): seq<Entry>
    requires |entries| <= |index|
  {
    var done := if w.Written? then |entries| else Least(w.reached, |entries|);
    entries[..done] + index[done..]
  }

  /** A failed write has reached an entry it was to change. */
  predicate Reaches(w: IndexWrite, pos: nat, end: nat) { w.Stopped? && pos < end && pos < w.reached }

  predicate Is(lines: map<int, Text>, number: int, text: Text) { number in lines && lines[number] == text }

  /** A set that fails has spoiled the program: in a full store the old text is overwritten where it is,
      otherwise the index is torn from the place of the line on. */
  predicate TornSet(count: nat, lines: map<int, Text>, number: int, text: Text, pos: nat, f: Faults) {
    |text| < LENGTH && !f.unread && !Is(lines, number, text) && (number in lines || count < LINES) &&
    match f.text
    case Spoiled(junk) => count == LINES && !Is(lines, number, junk)
    case Stored => count == LINES || Reaches(f.index, pos, count)
  }

  lemma {:induction false} StoppedShort(index: seq<Entry>, entries: seq<Entry>, w: IndexWrite, pos: nat)
    requires pos <= |entries| <= |index| && w.Stopped? && entries[..pos] == index[..pos] && w.reached <= pos
    ensures Overwritten(index, entries, w) == index
  {
    var done := Least(w.reached, |entries|);
    assert entries[..done] == index[..done] by {
      assert entries[..pos][..done] == entries[..done] && index[..pos][..done] == index[..done];
    }
  }

  lemma {:induction false} WrittenThrough(index: seq<Entry>, entries: seq<Entry>, w: IndexWrite, pos: nat)
    requires pos < |entries| <= |index| && (w.Stopped? ==> pos < w.reached)
    ensures Overwritten(index, entries, w)[pos] == entries[pos]
  {
  }

  /** The index with a line added to it. */
  lemma {:induction false} AddDenotes(
    entries: seq<Entry>, slots: seq<Text>, hash: (int, Text) -> int, m: map<int, Text>, pos: nat, e: Entry, text: Text)
    requires Sound(entries, slots, hash) && Denotes(entries, slots, m) && IsPlace(entries, e.number, pos)
    requires Absent(entries, e.number) && Free(entries, e.slot) && Matches(e, slots[e.slot := text], hash)
    ensures Sound(With(entries, pos, e), slots[e.slot := text], hash)
    ensures Denotes(With(entries, pos, e), slots[e.slot := text], m[e.number := text])
  {
    FreeSlotIsUnused(entries, slots, hash, m, e.slot, text);
    WithSound(entries, slots[e.slot := text], hash, pos, e);
    WithDenotes(entries, slots[e.slot := text], m, pos, e);
  }

  /** The index with a line in it changed. */
  lemma {:induction false} ChangeDenotes(
    entries: seq<Entry>, slots: seq<Text>, hash: (int, Text) -> int, m: map<int, Text>, pos: nat, e: Entry, text: Text)
    requires Sound(entries, slots, hash) && Denotes(entries, slots, m)
    requires pos < |entries| && entries[pos].number == e.number
    requires Free(entries, e.slot) || e.slot == entries[pos].slot
    requires Matches(e, slots[e.slot := text], hash)
    ensures Sound(entries[pos := e], slots[e.slot := text], hash)
    ensures Denotes(entries[pos := e], slots[e.slot := text], m[e.number := text])
  {
    FreeWithout(entries, pos, e.slot);
    WithoutSound(entries, slots, hash, pos);
    WithoutDenotes(entries, slots, m, pos);
    WithoutLeavesPlace(entries, pos, e);
    assert (m - {e.number})[e.number := text] == m[e.number := text];
    hide Sound, Denotes, Without, With, Matches;
    AddDenotes(Without(entries, pos), slots, hash, m - {e.number}, pos, e, text);
  }

  lemma {:induction false} WithoutLeavesPlace(entries: seq<Entry>, pos: nat, e: Entry)
    requires Sorted(entries) && pos < |entries|
    ensures IsPlace(Without(entries, pos), entries[pos].number, pos) &&
        Absent(Without(entries, pos), entries[pos].number)
    ensures With(Without(entries, pos), pos, e) == entries[pos := e]
  {
    var rest := Without(entries, pos);
    forall i | 0 <= i < |rest|
      ensures rest[i] == entries[if i < pos then i else i + 1]
    {
      WithoutAt(entries, pos, i);
    }
    assert With(Without(entries, pos), pos, e) == entries[pos := e];
    hide Without;
  }

  lemma {:induction false} FreeWithout(entries: seq<Entry>, pos: nat, slot: nat)
    requires pos < |entries| && Apart(entries) && (Free(entries, slot) || slot == entries[pos].slot)
    ensures Free(Without(entries, pos), slot)
  {
    var rest := Without(entries, pos);
    forall i | 0 <= i < |rest|
      ensures rest[i].slot != slot
    {
      WithoutAt(entries, pos, i);
    }
  }

  /** A text write that failed: it does no harm but in the slot of the line itself. */
  lemma {:induction false} SpoiledText(
    entries: seq<Entry>, slots: seq<Text>, hash: (int, Text) -> int, m: map<int, Text>, pos: nat, slot: nat, junk: Text,
    number: int)
    requires Sound(entries, slots, hash) && Denotes(entries, slots, m)
    requires Free(entries, slot) || (pos < |entries| && entries[pos].number == number && entries[pos].slot == slot)
    ensures Sound(entries, slots[slot := junk], hash) && Denotes(entries, slots[slot := junk], m) <==>
            Free(entries, slot) || Is(m, number, junk)
  {
    if Free(entries, slot) {
      FreeSlotIsUnused(entries, slots, hash, m, slot, junk);
    } else if m[number] == junk {
      assert slots[slot := junk] == slots;
    } else {
      assert slots[slot := junk][entries[pos].slot] == junk;
    }
  }

  /** An index write that failed, after the new text was stored. */
  lemma {:induction false} SetStopped(
    index: seq<Entry>, count: nat, slots: seq<Text>, hash: (int, Text) -> int, m: map<int, Text>, pos: nat, e: Entry,
    text: Text, present: bool, w: IndexWrite)
    requires count <= |index| == LINES && w.Stopped? && IsPlace(index[..count], e.number, pos)
    requires Sound(index[..count], slots, hash) && Denotes(index[..count], slots, m)
    requires if present then pos < count && index[pos].number == e.number && m[e.number] != text
             else count < LINES && e.number !in m
    requires Free(index[..count], e.slot) || (present && e.slot == index[pos].slot)
    ensures var next := if present then index[..count][pos := e] else With(index[..count], pos, e);
            var index' := Overwritten(index, next, w);
            (Sound(index'[..count], slots[e.slot := text], hash) &&
                Denotes(index'[..count], slots[e.slot := text], m)) <==>
            Free(index[..count], e.slot) && !Reaches(w, pos, count)
  {
    var entries, slots' := index[..count], slots[e.slot := text];
    var next := if present then entries[pos := e] else With(entries, pos, e);
    var index' := Overwritten(index, next, w);
    assert next[..pos] == index[..pos];
    if pos < count && w.reached > pos {
      WrittenThrough(index, next, w, pos);
      assert index'[..count][pos] == e;
      if present { assert slots'[e.slot] == text; }
    } else {
      if w.reached <= pos { StoppedShort(index, next, w, pos); }
      assert index'[..count] == entries;
      if Free(entries, e.slot) {
        FreeSlotIsUnused(entries, slots, hash, m, e.slot, text);
      } else {
        assert slots'[entries[pos].slot] == text && entries[pos].number == e.number;
      }
    }
  }

  /** An index write that failed while a line was taken out. */
  lemma {:induction false} EraseStopped(
    index: seq<Entry>, count: nat, slots: seq<Text>, hash: (int, Text) -> int, m: map<int, Text>, pos: nat,
        w: IndexWrite)
    requires pos < count <= |index| && w.Stopped?
    requires Sound(index[..count], slots, hash) && Denotes(index[..count], slots, m)
    ensures var index' := Overwritten(index, Without(index[..count], pos), w);
            (Sound(index'[..count], slots, hash) && Denotes(index'[..count], slots, m)) <==> !Reaches(w, pos, count - 1)
  {
    var entries := index[..count];
    var next := Without(entries, pos);
    var index' := Overwritten(index, next, w);
    assert next[..pos] == index[..pos];
    if Reaches(w, pos, count - 1) {
      WrittenThrough(index, next, w, pos);
      assert index'[..count][pos] == entries[pos + 1];
      NumberLost(index, count, pos, w);
    } else if w.reached <= pos {
      StoppedShort(index, next, w, pos);
    } else {
      assert next == index[..pos] && index' == index;
    }
  }

  /** The number at `pos` is nowhere in an index torn from there on. */
  lemma {:induction false} NumberLost(index: seq<Entry>, count: nat, pos: nat, w: IndexWrite)
    requires pos < count <= |index| && Sorted(index[..count]) && Reaches(w, pos, count - 1)
    ensures Absent(Overwritten(index, Without(index[..count], pos), w)[..count], index[pos].number)
  {
    var entries := index[..count];
    var next := Without(entries, pos);
    var torn := Overwritten(index, next, w)[..count];
    forall i | 0 <= i < count
      ensures torn[i].number != index[pos].number
    {
      var done := Least(w.reached, |next|);
      assert torn[i] == if i < done then next[i] else entries[i];
      if i < done { WithoutAt(entries, pos, i); }
    }
  }

  lemma {:induction false} OverwrittenWhole(index: seq<Entry>, entries: seq<Entry>, w: IndexWrite)
    requires |entries| <= |index|
    ensures |Overwritten(index, entries, w)| == |index|
    ensures w.Written? ==> Overwritten(index, entries, w)[..|entries|] == entries
  {
  }

  method PlaceIn(entries: seq<Entry>, number: int) returns (pos: nat)
    requires Sorted(entries)
    ensures IsPlace(entries, number, pos)
  {
    pos := 0;
    while pos < |entries| && entries[pos].number < number
      invariant pos <= |entries| && forall i :: 0 <= i < pos ==> entries[i].number < number
    {
      pos := pos + 1;
    }
  }

  method Keep(entries: seq<Entry>, a: int, b: int) returns (kept: seq<Entry>)
    ensures kept == Kept(entries, a, b)
  {
    kept := [];
    for i := 0 to |entries|
      invariant kept == Kept(entries[..i], a, b)
    {
      assert entries[..i + 1][..i] == entries[..i];
      if entries[i].number != a && entries[i].number != b { kept := kept + [entries[i]]; }
    }
    assert entries[..|entries|] == entries;
  }

  /** Both sides of a failed pair edit, and of its undoing. */
  datatype PairFaults = PairFaults(
    unread: bool, first: TextWrite, second: TextWrite, index: IndexWrite,
    firstBack: TextWrite, secondBack: TextWrite, indexBack: IndexWrite)

  function Updated(m: map<int, Text>, n: int, text: Option<Text>): map<int, Text> {
    if text.Some? then m[n := text.value] else m
  }

  /** A text that can be a line. */
  predicate IsLine(text: Option<Text>) {
    text.Some? ==> |text.value| < LENGTH && '\r' !in text.value && '\n' !in text.value
  }

  /** Both lines replaced, or taken away. */
  function PairSet(m: map<int, Text>, a: int, first: Option<Text>, b: int, second: Option<Text>): map<int, Text> {
    Updated(Updated(m - {a, b}, a, first), b, second)
  }

  /** How many lines there are after both are replaced or taken away. */
  function PairSize(count: nat, m: map<int, Text>, a: int, first: Option<Text>, b: int, second: Option<Text>): int {
    count - (if a in m then 1 else 0) - (if b in m then 1 else 0) + Some1(first) + Some1(second)
  }

  function Some1(text: Option<Text>): nat { if text.Some? then 1 else 0 }

  lemma {:induction false} AgreeLess(less: seq<Entry>, more: seq<Entry>, slots: seq<Text>, slots': seq<Text>)
    requires Agree(more, slots, slots') && forall e <- less :: e in more
    ensures Agree(less, slots, slots')
  {
    forall i | 0 <= i < |less| && less[i].slot < |slots|
      ensures slots'[less[i].slot] == slots[less[i].slot]
    {
      assert less[i] in more;
    }
  }

  lemma {:induction false} AgreeAgain(entries: seq<Entry>, slots: seq<Text>, slots': seq<Text>, slots'': seq<Text>)
    requires Agree(entries, slots, slots') && Agree(entries, slots', slots'')
    ensures Agree(entries, slots, slots'')
  {
  }

  /** The old texts put back where they were. */
  lemma {:induction false} PutBackAgrees(
    entries: seq<Entry>, slots: seq<Text>, spoiled: seq<Text>, a: int, b: int, restored: seq<Text>)
    requires Agree(Kept(entries, a, b), slots, spoiled) && |restored| == |slots|
    requires forall k :: 0 <= k < |entries| && entries[k].slot < |slots| && (entries[k].number == a || entries[k].number == b) ==>
               restored[entries[k].slot] == slots[entries[k].slot]
    requires forall k :: 0 <= k < |slots| ==> restored[k] == spoiled[k] || restored[k] == slots[k]
    ensures Agree(entries, slots, restored)
  {
    KeptMembers(entries, a, b);
    forall i | 0 <= i < |entries| && entries[i].slot < |slots|
      ensures restored[entries[i].slot] == slots[entries[i].slot]
    {
      if entries[i].number != a && entries[i].number != b {
        var kept := Kept(entries, a, b);
        assert entries[i] in kept;
        var k :| 0 <= k < |kept| && kept[k] == entries[i];
      }
    }
  }

  class Store {
    const hash: (int, Text) -> int
    var index: seq<Entry>
    var slots: seq<Text>
    var count: nat
    var bytes: nat
    var dirty: bool
    var revision: nat
    var suspended: bool
    ghost var lines: map<int, Text>

    /** The memory holds the program `m`. */
    ghost predicate Holds(m: map<int, Text>)
      reads this
    {
      |index| == LINES && count <= LINES && Sound(index[..count], slots, hash) && Denotes(index[..count], slots, m)
    }

    ghost predicate Valid()
      reads this
    {
      Holds(lines) && bytes == Total(index[..count])
    }

    method Place(number: int) returns (pos: nat)
      requires Valid()
      ensures IsPlace(index[..count], number, pos) && (number !in lines <==> Absent(index[..count], number))
      ensures number in lines <==> pos < count && index[pos].number == number
      ensures number in lines ==> index[pos].slot < LINES && slots[index[pos].slot] == lines[number]
    {
      hide Sound, Denotes;
      var entries := index[..count];
      SoundParts(entries, slots, hash);
      pos := PlaceIn(entries, number);
      PlaceFound(entries, slots, lines, number, pos);
    }

    /** The first slot no entry uses. */
    method FindFree(entries: seq<Entry>) returns (slot: nat)
      requires |slots| == LINES && Apart(entries)
      ensures slot < LINES ==> Free(entries, slot) && |entries| < LINES
      ensures slot == LINES ==> |entries| >= LINES
      ensures slot <= LINES
    {
      var used := seq(LINES, _ => false);
      for i := 0 to |entries|
        invariant |used| == LINES
        invariant forall k :: 0 <= k < LINES ==> (used[k] <==> !Free(entries[..i], k))
      {
        used := used[entries[i].slot := true];
      }
      assert entries[..|entries|] == entries;
      slot := 0;
      while slot < LINES && used[slot]
        invariant slot <= LINES && forall k :: 0 <= k < slot ==> used[k]
      {
        slot := slot + 1;
      }
      if slot == LINES { AllSlotsTaken(entries, LINES); } else { FreeLeavesRoom(entries, slot); }
    }

    method WriteText(slot: nat, text: Text, w: TextWrite) returns (ok: bool)
      requires slot < |slots|
      modifies `slots
      ensures ok == w.Stored? && slots == old(slots)[slot := if ok then text else w.junk]
    {
      ok := w.Stored?;
      slots := slots[slot := if ok then text else w.junk];
    }

    method WriteIndex(entries: seq<Entry>, w: IndexWrite) returns (ok: bool)
      requires |entries| <= |index|
      modifies `index
      ensures ok == w.Written? && index == Overwritten(old(index), entries, w)
    {
      ok := w.Written?;
      index := Overwritten(index, entries, w);
    }

    /** The index of the program with an entry whose text has been stored in its slot. */
    method FileEntry(
        e: Entry, text: Text, pos: nat, present: bool, w: IndexWrite, ghost was: seq<Text>) returns (ok: bool)
      requires |index| == LINES && count <= LINES && |was| == LINES && e.slot < LINES && slots == was[e.slot := text]
      requires Sound(index[..count], was, hash) && Denotes(index[..count], was, lines)
      requires pos <= count && IsPlace(index[..count], e.number, pos) && Matches(e, slots, hash)
      requires if present then pos < count && index[pos].number == e.number && e.number in lines &&
          lines[e.number] != text
               else count < LINES && e.number !in lines && Absent(index[..count], e.number)
      requires Free(index[..count], e.slot) || (present && e.slot == index[pos].slot)
      modifies this
      ensures ok == w.Written? && suspended == old(suspended)
      ensures ok ==> Valid() && lines == old(lines)[e.number := text] && dirty && revision == old(revision) + 1
      ensures !ok ==> count == old(count) && bytes == old(bytes) && dirty == old(dirty) && revision == old(revision)
      ensures !ok ==> lines == old(lines) && (Holds(lines) <==> Free(old(index[..count]), e.slot) && !Reaches(w, pos, count))
    {
      hide Sound, Denotes, With, Matches, Overwritten, Reaches, Free, IsPlace, Absent;
      ghost var before := index;
      var entries := index[..count];
      var next := if present then entries[pos := e] else With(entries, pos, e);
      ok := WriteIndex(next, w);
      if ok {
        if present {
          ChangeDenotes(entries, was, hash, lines, pos, e, text);
        } else {
          AddDenotes(entries, was, hash, lines, pos, e, text);
        }
        OverwrittenWhole(before, next, w);
        count, bytes := |next|, Total(next);
        dirty, revision, lines := true, revision + 1, lines[e.number := text];
      } else {
        OverwrittenWhole(before, next, w);
        SetStopped(before, count, was, hash, lines, pos, e, text, present, w);
      }
    }

    method SetAt(number: int, text: Text, f: Faults, pos: nat, present: bool) returns (ok: bool)
      requires Valid() && |text| < LENGTH && !f.unread
      requires IsPlace(index[..count], number, pos) && (present <==> number in lines)
      requires if present then pos < count && index[pos].number == number && lines[number] != text
               else pos <= count < LINES && Absent(index[..count], number) && Absent(index[..count], number)
      modifies this
      ensures ok <==> f.text.Stored? && f.index.Written?
      ensures ok ==> Valid() && lines == old(lines)[number := text] && dirty && revision == old(revision) + 1
      ensures !ok ==> count == old(count) && bytes == old(bytes) && dirty == old(dirty) && revision == old(revision)
      ensures !ok ==> lines == old(lines) && (Holds(lines) <==> !TornSet(count, lines, number, text, pos, f))
      ensures suspended == old(suspended)
    {
      hide Sound, Denotes, Reaches, Absent, IsPlace;
      ghost var was := slots;
      var entries := index[..count];
      SoundParts(entries, slots, hash);
      var slot := FindFree(entries);
      if slot == LINES { slot := index[pos].slot; }
      assert present ==> entries[pos] == index[pos];
      assert Free(entries, slot) <==> count < LINES;
      ok := WriteText(slot, text, f.text);
      if ok {
        ok := FileEntry(Entry(number, hash(number, text), slot, |text|), text, pos, present, f.index, was);
      } else {
        SpoiledText(entries, was, hash, lines, pos, slot, f.text.junk, number);
      }
    }

    /** A line set in the memory, or left as it is if it is the same already. After a failure the memory still
        holds the old program exactly if the index write stopped short of the line's place, and the line was
        not rewritten in the slot it has, which happens in a full store. */
    method SetLine(number: int, text: Text, f: Faults) returns (ok: bool, ghost pos: nat)
      requires Valid()
      modifies this
      ensures IsPlace(old(index[..count]), number, pos) && suspended == old(suspended)
      ensures ok <==> |text| < LENGTH && !f.unread &&
                      (Is(old(lines), number, text) ||
                       ((number in old(lines) || old(count) < LINES) && f.text.Stored? && f.index.Written?))
      ensures ok ==> Valid() && lines == old(lines)[number := text]
      ensures ok ==> if Is(old(lines), number, text) then dirty == old(dirty) && revision == old(revision)
                     else dirty && revision == old(revision) + 1
      ensures !ok ==> count == old(count) && bytes == old(bytes) && dirty == old(dirty) && revision == old(revision)
      ensures !ok ==> lines == old(lines) && (Holds(lines) <==> !TornSet(old(count), lines, number, text, pos, f))
    {
      ok := false;
      pos := count;
      var at := Place(number);
      pos := at;
      var present := at < count && index[at].number == number;
      if |text| >= LENGTH || f.unread { return; }
      if present && slots[index[at].slot] == text {
        ok := true;
        return;
      }
      if !present && count >= LINES { return; }
      ok := SetAt(number, text, f, at, present);
    }

    method EraseAt(pos: nat, w: IndexWrite) returns (ok: bool)
      requires Valid() && pos < count
      modifies this
      ensures ok == (old(count) == 1 || w.Written?) && suspended == old(suspended)
      ensures ok ==> Valid() && lines == old(lines) - {old(index[pos].number)} && dirty && revision == old(revision) + 1
      ensures !ok ==> count == old(count) && bytes == old(bytes) && dirty == old(dirty) && revision == old(revision)
      ensures !ok ==> lines == old(lines) && (Holds(lines) <==> !Reaches(w, pos, count - 1))
    {
      hide Sound, Denotes, Without, Overwritten, Reaches;
      ghost var before := index;
      var entries := index[..count];
      var next := Without(entries, pos);
      SoundParts(entries, slots, hash);
      WithoutSound(entries, slots, hash, pos);
      WithoutDenotes(entries, slots, lines, pos);
      TotalWithout(entries, pos);
      ok := true;
      if |next| != 0 { ok := WriteIndex(next, w); }
      OverwrittenWhole(before, next, w);
      if ok {
        assert index[..|next|] == next;
        count, bytes := |next|, bytes - LineBytes(entries[pos]);
        dirty, revision, lines := true, revision + 1, lines - {entries[pos].number};
      } else {
        EraseStopped(before, count, slots, hash, lines, pos, w);
      }
    }

    /** A line taken out. After a failure the memory still holds the old program exactly if the index write
        stopped short of the line's place. */
    method EraseLine(number: int, f: Faults) returns (ok: bool, ghost pos: nat)
      requires Valid()
      modifies this
      ensures IsPlace(old(index[..count]), number, pos) && suspended == old(suspended)
      ensures ok <==> old(count) == 0 || (!f.unread && (number !in old(lines) || old(count) == 1 || f.index.Written?))
      ensures ok ==> Valid() && lines == old(lines) - {number}
      ensures ok ==> if number in old(lines) then dirty && revision == old(revision) + 1
                     else dirty == old(dirty) && revision == old(revision)
      ensures !ok ==> count == old(count) && bytes == old(bytes) && dirty == old(dirty) && revision == old(revision)
      ensures !ok ==> lines == old(lines) &&
                      (Holds(lines) <==> f.unread || number !in lines || !Reaches(f.index, pos, count - 1))
    {
      hide Sound, Denotes, Reaches;
      var at := Place(number);
      pos := at;
      ok := count == 0 || (!f.unread && (at == count || index[at].number != number));
      if ok {
        assert lines == lines - {number};
      } else if !f.unread {
        ok := EraseAt(at, f.index);
      }
    }

    /** One of the two new lines: its text stored, and an entry for it in the new index. */
    method AddOne(next: seq<Entry>, number: int, text: Option<Text>, w: TextWrite, ghost m: map<int, Text>)
      returns (ok: bool, more: seq<Entry>)
      requires Sound(next, slots, hash) && Denotes(next, slots, m) && Absent(next, number) && IsLine(text)
      modifies `slots
      ensures Agree(next, old(slots), slots)
      ensures ok <==> text == None || (w.Stored? && |next| < LINES)
      ensures ok ==> Sound(more, slots, hash) && Denotes(more, slots, Updated(m, number, text)) &&
                     |more| == |next| + Some1(text)
      ensures ok ==> forall e :: e in more ==> e in next || e.number == number
      ensures ok ==> forall e <- next :: e in more
    {
      ok, more := true, next;
      if text.Some? {
        ghost var was := slots;
        SoundParts(next, slots, hash);
        var slot := FindFree(next);
        ok := slot < LINES;
        if ok {
          ok := WriteText(slot, text.value, w);
          if ok {
            var e := Entry(number, hash(number, text.value), slot, |text.value|);
            var pos := PlaceIn(next, number);
            AddDenotes(next, was, hash, m, pos, e, text.value);
            more := With(next, pos, e);
          }
        }
      }
    }

    /** The new index and the new texts are written, the texts into slots that no kept line uses. */
    method Stage(a: int, first: Option<Text>, b: int, second: Option<Text>, f: PairFaults)
      returns (ok: bool, next: seq<Entry>)
      requires Valid() && a != b && IsLine(first) && IsLine(second)
      requires |Kept(index[..count], a, b)| + Some1(first) + Some1(second) <= LINES
      modifies `slots, `index
      ensures Agree(Kept(old(index[..count]), a, b), old(slots), slots) && |index| == LINES
      ensures ok <==> (first == None || f.first.Stored?) && (second == None || f.second.Stored?) &&
                      (|Kept(old(index[..count]), a, b)| + Some1(first) + Some1(second) == 0 || f.index.Written?)
      ensures ok ==> |next| <= LINES && index[..|next|] == next && Sound(next, slots, hash) &&
                     Denotes(next, slots, PairSet(lines, a, first, b, second))
    {
      hide Sound, Denotes, Kept, Agree, Overwritten;
      ghost var was := slots;
      var entries := index[..count];
      KeptDenotes(entries, slots, hash, lines, a, b);
      var kept := Keep(entries, a, b);
      ok, next := AddOne(kept, a, first, f.first, lines - {a, b});
      if ok {
        ghost var one, between := next, slots;
        assert Absent(next, b);
        ok, next := AddOne(next, b, second, f.second, Updated(lines - {a, b}, a, first));
        AgreeLess(kept, one, between, slots);
        AgreeAgain(kept, was, between, slots);
      }
      if ok && next != [] {
        ghost var before := index;
        ok := WriteIndex(next, f.index);
        OverwrittenWhole(before, next, f.index);
      }
    }

    /** The text of entry `p` put back, if there was one. */
    method PutBack(entries: seq<Entry>, number: int, p: nat, was: seq<Text>, w: TextWrite) returns (ok: bool)
      requires |slots| == |was| == LINES && Sorted(entries) &&
          (forall k :: 0 <= k < |entries| ==> entries[k].slot < LINES)
      requires (p < |entries| && entries[p].number == number) || Absent(entries, number)
      modifies `slots
      ensures |slots| == LINES && (w.Stored? ==> ok)
      ensures ok ==> forall k :: 0 <= k < LINES ==> slots[k] == old(slots[k]) || slots[k] == was[k]
      ensures ok ==> forall k :: 0 <= k < |entries| && entries[k].number == number ==> slots[entries[k].slot] == was[entries[k].slot]
    {
      ok := true;
      if p < |entries| && entries[p].number == number { ok := WriteText(entries[p].slot, was[entries[p].slot], w); }
    }

    /** After a failure: the texts and the index as they were, or the store is not used any more. */
    method Rollback(entries: seq<Entry>, a: int, b: int, pa: nat, pb: nat, was: seq<Text>, f: PairFaults)
      requires |index| == LINES && count == |entries| <= LINES && bytes == Total(entries)
      requires Sound(entries, was, hash) && Denotes(entries, was, lines) && Agree(Kept(entries, a, b), was, slots)
      requires (pa < |entries| && entries[pa].number == a) || Absent(entries, a)
      requires (pb < |entries| && entries[pb].number == b) || Absent(entries, b)
      modifies `slots, `index, `suspended
      ensures f.firstBack.Stored? && f.secondBack.Stored? && f.indexBack.Written? ==> Valid() && suspended == old(suspended)
      ensures !Valid() ==> suspended
    {
      hide Sound, Denotes, Kept, Overwritten;
      SoundParts(entries, was, hash);
      ghost var spoiled := slots;
      var first := PutBack(entries, a, pa, was, f.firstBack);
      ghost var between := slots;
      var second := PutBack(entries, b, pb, was, f.secondBack);
      var third := true;
      if count != 0 {
        ghost var before := index;
        third := WriteIndex(entries, f.indexBack);
        OverwrittenWhole(before, entries, f.indexBack);
      }
      if first && second && third {
        assert forall k :: 0 <= k < LINES ==> slots[k] == between[k] || slots[k] == was[k];
        PutBackAgrees(entries, was, spoiled, a, b, slots);
        AgreeDenotes(entries, was, slots, hash, lines);
        assert index[..count] == entries;
      } else {
        suspended := true;
      }
    }

    /** Two lines replaced or taken away as one edit. If it fails the old program is there as before, or the
        store is suspended, and that only if putting it back failed too. */
    method ReplacePair(a: int, first: Option<Text>, b: int, second: Option<Text>, f: PairFaults) returns (ok: bool)
      requires Valid()
      modifies this
      ensures ok <==> a >= 0 && b >= 0 && a != b && IsLine(first) && IsLine(second) && !f.unread &&
                      (var size := PairSize(old(count), old(lines), a, first, b, second);
                       size <= LINES && (first == None || f.first.Stored?) && (second == None || f.second.Stored?) &&
                       (size == 0 || f.index.Written?))
      ensures ok ==> Valid() && lines == PairSet(old(lines), a, first, b, second)
      ensures ok ==> dirty && revision == old(revision) + 1 && suspended == old(suspended)
      ensures !ok ==> lines == old(lines) && count == old(count) && bytes == old(bytes) && dirty == old(dirty) &&
                      revision == old(revision)
      ensures !ok ==> Valid() || suspended
      ensures !ok && f.firstBack.Stored? && f.secondBack.Stored? && f.indexBack.Written? ==>
                Valid() && suspended == old(suspended)
    {
      hide Sound, Denotes, Kept, Agree, PairSet, IsPlace, Absent, Total, Sorted, Apart;
      ok := false;
      if a < 0 || b < 0 || a == b || !IsLine(first) || !IsLine(second) { return; }
      var entries, was := index[..count], slots;
      var pa := Place(a);
      var pb := Place(b);
      var hasA, hasB := pa < count && index[pa].number == a, pb < count && index[pb].number == b;
      var size := count - (if hasA then 1 else 0) - (if hasB then 1 else 0) + Some1(first) + Some1(second);
      if size > LINES || f.unread { return; }
      SoundParts(entries, slots, hash);
      KeptSize(entries, a, b);
      var next;
      ok, next := Stage(a, first, b, second, f);
      if ok {
        count, bytes := |next|, Total(next);
        dirty, revision, lines := true, revision + 1, PairSet(lines, a, first, b, second);
      } else {
        Rollback(entries, a, b, pa, pb, was, f);
      }
    }
  }
}
