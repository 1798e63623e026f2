/** A program as a text file: how a snapshot is written with edits merged in, and how the file is read again. */
module SourceText {
  import opened Listings
  import opened Wrappers

  const LINES := 1024
  const LENGTH := 2048
  const BUFFER := LENGTH + 32
  const MAX_NUMBER := 0x7fff_ffff

  /** Where the file has a line. */
  datatype Entry = Entry(number: int, offset: nat, hash: int, length: nat)

  // ---------- characters ----------

  predicate IsDigit(c: char) { '0' <= c <= '9' }

  predicate IsBlank(c: char) { c == ' ' || c == '\t' }

  predicate IsSpace(c: char) { c == ' ' || 9 <= c as int <= 13 }

  predicate IsEnd(c: char) { c == '\r' || c == '\n' }

  function Skip(t: Text, p: char -> bool): Text { if t != [] && p(t[0]) then Skip(t[1..], p) else t }

  function Trim(t: Text): Text { if t != [] && IsEnd(t[|t| - 1]) then Trim(t[..|t| - 1]) else t }

  function Decimal(n: nat): (d: Text)
    ensures |d| > 0 && IsDigit(d[0])
  {
    var last := '0' + (n % 10) as char;
    if n < 10 then [last] else Decimal(n / 10) + [last]
  }

  /** The number at the start of a text, continued from `n`, and the rest; None if it gets too large. */
  function Number(t: Text, n: int): Option<(int, Text)> {
    if t == [] || !IsDigit(t[0]) then Some((n, t))
    else
      var m := n * 10 + (t[0] as int - '0' as int);
      if m > MAX_NUMBER then None else Number(t[1..], m)
  }

  // ---------- the file of a program ----------

  function Shown(mode: Mode, l: Line): Text
    requires mode.ClassicNumbered? ==> l.number >= 0
  {
    (if mode.ClassicNumbered? then Decimal(l.number) + [' '] else []) + l.body + ['\n']
  }

  predicate IsBody(t: Text) { |t| < LENGTH && forall c <- t :: !IsEnd(c) && c != '\0' }

  /** A program: numbered lines in order, or rows counted from 1. */
  predicate IsProgram(mode: Mode, lines: seq<Line>) {
    |lines| <= LINES && (forall i :: 0 <= i < |lines| ==> IsBody(lines[i].body)) &&
    match mode
    case ClassicNumbered =>
      (forall i :: 0 <= i < |lines| ==> 0 <= lines[i].number <= MAX_NUMBER) &&
      (forall i, j :: 0 <= i < j < |lines| ==> lines[i].number < lines[j].number)
    case Structured => forall i :: 0 <= i < |lines| ==> lines[i].number == i + 1
  }

  predicate Counts(lines: seq<Line>) { forall i :: 0 <= i < |lines| ==> lines[i].number >= 0 }

  function Written(mode: Mode, lines: seq<Line>): Text
    requires Counts(lines)
  {
    if lines == [] then [] else Shown(mode, lines[0]) + Written(mode, lines[1..])
  }

  /** Where the lines of a program are in its file, if it begins at `offset`. */
  function Entries(mode: Mode, lines: seq<Line>, offset: nat, hash: (int, Text) -> int): (entries: seq<Entry>)
    requires Counts(lines)
    ensures |entries| == |lines|
  {
    if lines == [] then []
    else
      var l := lines[0];
      [Entry(l.number, offset, hash(l.number, l.body), |l.body|)] +
      Entries(mode, lines[1..], offset + |Shown(mode, l)|, hash)
  }

  // ---------- reading one line ----------

  /** What the file has at its start: up to the end of a line, or as much as the buffer takes. */
  function Chunk(file: Text, room: nat): (c: Text)
    ensures c <= file && (file != [] && room > 0 ==> c != [])
  {
    if file == [] || room == 0 then []
    else if file[0] == '\n' then file[..1]
    else
      var rest := Chunk(file[1..], room - 1);
      file[..1 + |rest|]
  }

  predicate TooLong(c: Text) { |c| == BUFFER - 1 && c[|c| - 1] != '\n' }

  /** A numbered line: its number, at most one blank, and the rest without the end of the line. */
  function ParseText(c: Text, canonical: bool): Option<(int, Text)> {
    var p := Skip(c, IsBlank);
    if p == [] || !IsDigit(p[0]) then None
    else
      match Number(p, 0)
      case None => None
      case Some((n, rest)) =>
        var after := if rest != [] && (rest[0] == ' ' || (!canonical && rest[0] == '\t')) then rest[1..] else rest;
        if |Trim(after)| >= LENGTH then None else Some((n, Trim(after)))
  }

  /** A line of either kind; a row gets the number `number`. */
  function ReadLine(c: Text, mode: Mode, number: int, canonical: bool): Option<(int, Text)> {
    if mode.ClassicNumbered? then ParseText(c, canonical)
    else if |Trim(c)| >= LENGTH then None
    else Some((number, Trim(c)))
  }

  // ---------- reading the whole file ----------

  datatype Error = LineTooLong | MixedSourceMode | BadFile | ProgramFull

  datatype Result<T> = Ok(value: T) | Err(error: Error)

  /** The first pass: are there numbered lines, are there plain ones? */
  function Survey(file: Text, numbered: bool, plain: bool): Result<(bool, bool)>
    decreases |file|
  {
    if file == [] then Ok((numbered, plain))
    else
      var c := Chunk(file, BUFFER - 1);
      var p := Skip(c, IsSpace);
      if TooLong(c) then Err(LineTooLong)
      else if p == [] then Survey(file[|c|..], numbered, plain)
      else if (numbered || IsDigit(p[0])) && (plain || !IsDigit(p[0])) then Err(MixedSourceMode)
      else Survey(file[|c|..], numbered || IsDigit(p[0]), plain || !IsDigit(p[0]))
  }

  /** An entry put into the index: in the place of its number, over an older one of that number. */
  function Filed(entries: seq<Entry>, e: Entry): seq<Entry> {
    if entries == [] || entries[|entries| - 1].number < e.number then entries + [e]
    else if entries[|entries| - 1].number == e.number then entries[..|entries| - 1] + [e]
    else Filed(entries[..|entries| - 1], e) + [entries[|entries| - 1]]
  }

  predicate Knows(entries: seq<Entry>, number: int) { exists i :: 0 <= i < |entries| && entries[i].number == number }

  /** The second pass, from `offset` on. */
  function Indexed(file: Text, offset: nat, mode: Mode, canonical: bool, hash: (int, Text) -> int, entries: seq<Entry>):
    Result<seq<Entry>>
    decreases |file|
  {
    if file == [] then Ok(entries)
    else
      var c := Chunk(file, BUFFER - 1);
      if mode.ClassicNumbered? && Skip(c, IsSpace) == [] then Indexed(file[|c|..], offset + |c|, mode, canonical,
          hash, entries)
      else
        match ReadLine(c, mode, |entries| + 1, canonical)
        case None => Err(BadFile)
        case Some((n, body)) =>
          if !Knows(entries, n) && |entries| == LINES then Err(ProgramFull)
          else Indexed(file[|c|..], offset + |c|, mode, canonical, hash,
                       Filed(entries, Entry(n, offset, hash(n, body), |body|)))
  }

  function ModeOf(kinds: (bool, bool), empty: Mode): Mode {
    if kinds.0 then ClassicNumbered else if kinds.1 then Structured else empty
  }

  /** What the file says: whether it is numbered, and where its lines are. */
  function Scanned(file: Text, empty: Mode, canonical: bool, hash: (int, Text) -> int): Result<(Mode, seq<Entry>)> {
    match Survey(file, false, false)
    case Err(e) => Err(e)
    case Ok(kinds) =>
      match Indexed(file, 0, ModeOf(kinds, empty), canonical, hash, [])
      case Err(e) => Err(e)
      case Ok(entries) => Ok((ModeOf(kinds, empty), entries))
  }

  /** A line found again by its entry. */
  function Fetched(file: Text, e: Entry, mode: Mode, canonical: bool, hash: (int, Text) -> int): Option<Text> {
    if e.offset >= |file| then None
    else
      var c := Chunk(file[e.offset..], BUFFER - 1);
      var line := ReadLine(c, mode, e.number, canonical);
      if TooLong(c) || line == None then None
      else
        var (n, body) := line.value;
        if n == e.number && |body| == e.length && hash(n, body) == e.hash then Some(body) else None
  }

  /** A file read through against the index made when it was written. */
  predicate Verified(file: Text, offset: nat, entries: seq<Entry>, mode: Mode, hash: (int, Text) -> int)
    decreases |file|
  {
    if file == [] then entries == []
    else
      var c := Chunk(file, BUFFER - 1);
      !TooLong(c) && entries != [] &&
      var line := ReadLine(c, mode, entries[0].number, true);
      line.Some? && entries[0] == Entry(line.value.0, offset, hash(line.value.0, line.value.1), |line.value.1|) &&
      Verified(file[|c|..], offset + |c|, entries[1..], mode, hash)
  }

  // ---------- one line there and back ----------

  lemma {:induction false} ChunkEnds(t: Text, rest: Text, room: nat)
    requires (forall c <- t :: c != '\n') && |t| < room
    ensures Chunk(t + ['\n'] + rest, room) == t + ['\n']
  {
    var file := t + ['\n'] + rest;
    if t != [] {
      assert t[0] in t && forall c <- t[1..] :: c in t;
      assert file[1..] == t[1..] + ['\n'] + rest;
      ChunkEnds(t[1..], rest, room - 1);
      assert file[..1 + |t|] == t + ['\n'];
    }
  }

  lemma {:induction false} DecimalIsDigits(n: nat, k: nat)
    requires k < |Decimal(n)|
    ensures IsDigit(Decimal(n)[k])
  {
    if n >= 10 && k < |Decimal(n)| - 1 { DecimalIsDigits(n / 10, k); }
  }

  lemma {:induction false} DecimalLength(n: nat, limit: nat, digits: nat)
    requires n < limit && (digits == 1 ==> limit <= 10) && digits > 0
    requires digits > 1 ==> limit <= Power(digits)
    ensures |Decimal(n)| <= digits
    decreases digits
  {
    if n >= 10 { DecimalLength(n / 10, Power(digits - 1), digits - 1); }
  }

  function Power(k: nat): nat { if k == 0 then 1 else 10 * Power(k - 1) }

  /** A number written and read. */
  lemma {:induction false} NumberOfDecimal(n: nat, rest: Text)
    requires n <= MAX_NUMBER
    ensures Number(Decimal(n) + rest, 0) == Number(rest, n)
  {
    var last := ['0' + (n % 10) as char];
    if n < 10 {
      assert (last + rest)[1..] == rest;
    } else {
      NumberOfDecimal(n / 10, last + rest);
      assert Decimal(n) + rest == Decimal(n / 10) + (last + rest);
      assert (last + rest)[1..] == rest;
    }
  }

  lemma {:induction false} TrimEnd(body: Text)
    requires IsBody(body)
    ensures Trim(body + ['\n']) == body
  {
    assert (body + ['\n'])[..|body|] == body;
    if body != [] { assert body[|body| - 1] in body; }
  }

  /** The text of a line without its end. */
  function Front(mode: Mode, l: Line): Text
    requires mode.ClassicNumbered? ==> l.number >= 0
  {
    if mode.ClassicNumbered? then Decimal(l.number) + [' '] + l.body else l.body
  }

  predicate IsNumber(n: int) { 0 <= n <= MAX_NUMBER }

  lemma {:induction false} ShownIsChunk(mode: Mode, l: Line, rest: Text)
    requires IsBody(l.body) && IsNumber(l.number)
    ensures Chunk(Shown(mode, l) + rest, BUFFER - 1) == Shown(mode, l) && !TooLong(Shown(mode, l))
  {
    var t := Front(mode, l);
    assert Shown(mode, l) == t + ['\n'];
    if mode.ClassicNumbered? {
      var d := Decimal(l.number);
      assert Power(10) == 10_000_000_000;
      DecimalLength(l.number, Power(10), 10);
      forall k | 0 <= k < |d|
        ensures d[k] != '\n'
      {
        DecimalIsDigits(l.number, k);
      }
    }
    ChunkEnds(t, rest, BUFFER - 1);
  }

  lemma {:induction false} ShownParses(l: Line, canonical: bool)
    requires IsBody(l.body) && IsNumber(l.number)
    ensures ParseText(Shown(ClassicNumbered, l), canonical) == Some((l.number, l.body))
  {
    var d, rest := Decimal(l.number), [' '] + l.body + ['\n'];
    assert Shown(ClassicNumbered, l) == d + rest;
    NumberOfDecimal(l.number, rest);
    assert rest[1..] == l.body + ['\n'];
    TrimEnd(l.body);
  }

  /** A line at the start of a file is the first thing read from it. */
  lemma {:induction false} ShownIsRead(mode: Mode, l: Line, rest: Text, number: int, canonical: bool)
    requires IsBody(l.body) && IsNumber(l.number) && (mode.Structured? ==> number == l.number)
    ensures var c := Shown(mode, l);
            c != [] && Chunk(c + rest, BUFFER - 1) == c && (c + rest)[|c|..] == rest && !TooLong(c) &&
            ReadLine(c, mode, number, canonical) == Some((l.number, l.body)) &&
            (mode.ClassicNumbered? ==> Skip(c, IsSpace) == c && IsDigit(c[0]))
  {
    var c := Shown(mode, l);
    ShownIsChunk(mode, l, rest);
    if mode.ClassicNumbered? {
      ShownParses(l, canonical);
      assert c[0] == Decimal(l.number)[0];
    } else {
      assert c == l.body + ['\n'];
      TrimEnd(l.body);
    }
  }

  // ---------- the whole file there and back ----------

  /** A row that begins with a digit, blanks aside. */
  predicate LooksNumbered(body: Text) {
    var p := Skip(body, IsSpace);
    p != [] && IsDigit(p[0])
  }

  predicate LooksPlain(body: Text) {
    var p := Skip(body, IsSpace);
    p != [] && !IsDigit(p[0])
  }

  predicate AnyNumbered(lines: seq<Line>) { exists i :: 0 <= i < |lines| && LooksNumbered(lines[i].body) }

  predicate AnyPlain(lines: seq<Line>) { exists i :: 0 <= i < |lines| && LooksPlain(lines[i].body) }

  lemma {:induction false} SkipToEnd(body: Text, end: Text)
    requires forall c <- end :: IsSpace(c)
    ensures var p := Skip(body + end, IsSpace);
            (p == [] <==> Skip(body, IsSpace) == []) && (p != [] ==> p[0] == Skip(body, IsSpace)[0])
  {
    if body == [] {
      assert body + end == end;
      if end != [] {
        assert end[0] in end && forall c <- end[1..] :: c in end;
        assert [] + end[1..] == end[1..];
        SkipToEnd([], end[1..]);
      }
    } else {
      assert (body + end)[1..] == body[1..] + end;
      SkipToEnd(body[1..], end);
    }
  }

  predicate Fit(lines: seq<Line>) {
    forall i :: 0 <= i < |lines| ==> IsBody(lines[i].body) && IsNumber(lines[i].number)
  }

  lemma {:induction false} NumberedIsSurveyed(lines: seq<Line>)
    requires Fit(lines)
    ensures Survey(Written(ClassicNumbered, lines), true, false) == Ok((true, false))
    ensures lines != [] ==> Survey(Written(ClassicNumbered, lines), false, false) == Ok((true, false))
  {
    if lines != [] {
      var c, rest := Shown(ClassicNumbered, lines[0]), Written(ClassicNumbered, lines[1..]);
      ShownIsChunk(ClassicNumbered, lines[0], rest);
      NumberedIsSurveyed(lines[1..]);
      assert (c + rest)[|c|..] == rest;
      assert c[0] == Decimal(lines[0].number)[0];
    }
  }

  lemma {:induction false} RowsAreSurveyed(lines: seq<Line>, numbered: bool, plain: bool)
    requires Fit(lines) && !(numbered && plain)
    ensures Survey(Written(Structured, lines), numbered, plain) ==
            if (numbered || AnyNumbered(lines)) && (plain || AnyPlain(lines)) then Err(MixedSourceMode)
            else Ok((numbered || AnyNumbered(lines), plain || AnyPlain(lines)))
  {
    if lines != [] {
      var l, tail := lines[0], lines[1..];
      var c, rest := Shown(Structured, l), Written(Structured, tail);
      ShownIsChunk(Structured, l, rest);
      assert (c + rest)[|c|..] == rest;
      assert c == l.body + ['\n'];
      SkipToEnd(l.body, ['\n']);
      assert AnyNumbered(lines) <==> LooksNumbered(l.body) || AnyNumbered(tail) by { FirstOrRest(lines); }
      assert AnyPlain(lines) <==> LooksPlain(l.body) || AnyPlain(tail) by { FirstOrRest(lines); }
      var numbered', plain' := numbered || LooksNumbered(l.body), plain || LooksPlain(l.body);
      if !(numbered' && plain') { RowsAreSurveyed(tail, numbered', plain'); }
    }
  }

  lemma {:induction false} FirstOrRest(lines: seq<Line>)
    requires lines != []
    ensures AnyNumbered(lines) <==> LooksNumbered(lines[0].body) || AnyNumbered(lines[1..])
    ensures AnyPlain(lines) <==> LooksPlain(lines[0].body) || AnyPlain(lines[1..])
  {
    assert forall i :: 0 <= i < |lines[1..]| ==> lines[1..][i] == lines[i + 1];
    if AnyNumbered(lines[1..]) {
      var i :| 0 <= i < |lines[1..]| && LooksNumbered(lines[1..][i].body);
      assert LooksNumbered(lines[i + 1].body);
    }
    if AnyPlain(lines[1..]) {
      var i :| 0 <= i < |lines[1..]| && LooksPlain(lines[1..][i].body);
      assert LooksPlain(lines[i + 1].body);
    }
    forall i | 0 < i < |lines|
      ensures lines[i] == lines[1..][i - 1]
    {
    }
  }

  /** `lines` can come after the entries `done`. */
  predicate ComesAfter(mode: Mode, done: seq<Entry>, lines: seq<Line>) {
    Fit(lines) && |done| + |lines| <= LINES &&
    (forall i, j :: 0 <= i < |done| && 0 <= j < |lines| ==> done[i].number < lines[j].number) &&
    (forall i, j :: 0 <= i < j < |lines| ==> lines[i].number < lines[j].number) &&
    (mode.Structured? ==> forall i :: 0 <= i < |lines| ==> lines[i].number == |done| + i + 1)
  }

  lemma {:induction false} WrittenIsIndexed(
    mode: Mode, done: seq<Entry>, lines: seq<Line>, offset: nat, canonical: bool, hash: (int, Text) -> int)
    requires ComesAfter(mode, done, lines)
    ensures Indexed(Written(mode, lines), offset, mode, canonical, hash, done) == Ok(done + Entries(mode, lines,
        offset, hash))
    decreases |lines|
  {
    hide Chunk, Shown, ReadLine, Skip, TooLong, Knows, ComesAfter, Filed;
    if lines == [] {
      assert done + [] == done;
    } else {
      FirstFits(mode, done, lines);
      var l, tail := lines[0], lines[1..];
      var c, rest := Shown(mode, l), Written(mode, tail);
      var e := Entry(l.number, offset, hash(l.number, l.body), |l.body|);
      ShownIsRead(mode, l, rest, |done| + 1, canonical);
      FiledLast(mode, done, lines, e);
      WrittenIsIndexed(mode, done + [e], tail, offset + |c|, canonical, hash);
      assert done + [e] + Entries(mode, tail, offset + |c|, hash) == done + Entries(mode, lines, offset, hash);
    }
  }

  lemma {:induction false} FirstFits(mode: Mode, done: seq<Entry>, lines: seq<Line>)
    requires ComesAfter(mode, done, lines) && lines != []
    ensures Counts(lines) && Counts(lines[1..]) && IsBody(lines[0].body) && IsNumber(lines[0].number) && |done| < LINES
    ensures mode.Structured? ==> lines[0].number == |done| + 1
  {
  }

  lemma {:induction false} FiledLast(mode: Mode, done: seq<Entry>, lines: seq<Line>, e: Entry)
    requires ComesAfter(mode, done, lines) && lines != [] && e.number == lines[0].number
    ensures Filed(done, e) == done + [e] && !Knows(done, e.number)
    ensures ComesAfter(mode, done + [e], lines[1..])
  {
  }

  /** A program written and scanned is the same program, of the same kind and with every line where the index
      says: always if it is numbered, and if it is structured exactly when no row begins with a digit. */
  lemma {:induction false} ReadsBackUnlessRowsLookNumbered(
    mode: Mode, lines: seq<Line>, canonical: bool, hash: (int, Text) -> int)
    requires IsProgram(mode, lines)
    ensures Scanned(Written(mode, lines), mode, canonical, hash) == Ok((mode, Entries(mode, lines, 0, hash))) <==>
            mode.ClassicNumbered? || !AnyNumbered(lines)
  {
    hide Survey, Indexed, Written, AnyNumbered, AnyPlain, IsBody;
    assert ComesAfter(mode, [], lines);
    WrittenIsIndexed(mode, [], lines, 0, canonical, hash);
    assert [] + Entries(mode, lines, 0, hash) == Entries(mode, lines, 0, hash);
    if mode.Structured? {
      RowsAreSurveyed(lines, false, false);
    } else if lines == [] {
      EmptyIsSurveyed();
    } else {
      NumberedIsSurveyed(lines);
    }
  }

  lemma {:induction false} EmptyIsSurveyed()
    ensures Survey(Written(ClassicNumbered, []), false, false) == Ok((false, false))
  {
  }

  /** What was just written always stands the check against its index, rows that begin with a digit included. */
  lemma {:induction false} WrittenIsVerified(mode: Mode, lines: seq<Line>, offset: nat, hash: (int, Text) -> int)
    requires Fit(lines)
    ensures Verified(Written(mode, lines), offset, Entries(mode, lines, offset, hash), mode, hash)
  {
    hide Chunk, Shown, ReadLine, Skip, TooLong;
    if lines != [] {
      var l, tail := lines[0], lines[1..];
      var c, rest := Shown(mode, l), Written(mode, tail);
      ShownIsRead(mode, l, rest, l.number, true);
      assert Entries(mode, lines, offset, hash)[1..] == Entries(mode, tail, offset + |c|, hash);
      WrittenIsVerified(mode, tail, offset + |c|, hash);
    }
  }

  /** A structured program of two rows, the second of which is a number, passes the check that lets it be
      published, and is then not a program any more. */
  lemma {:induction false} VerifiedButNotReadBack(canonical: bool, hash: (int, Text) -> int)
    ensures var lines := [Line(1, "CLS"), Line(2, "10")];
            IsProgram(Structured, lines) &&
            Verified(Written(Structured, lines), 0, Entries(Structured, lines, 0, hash), Structured, hash) &&
            Scanned(Written(Structured, lines), Structured, canonical, hash) == Err(MixedSourceMode)
  {
    hide Written, Entries, Verified, Survey;
    var lines := [Line(1, "CLS"), Line(2, "10")];
    WrittenIsVerified(Structured, lines, 0, hash);
    assert LooksPlain(lines[0].body) && LooksNumbered(lines[1].body);
    RowsAreSurveyed(lines, false, false);
  }

  /** Every line is found again by its entry. */
  lemma {:induction false} EveryLineIsFetched(
    mode: Mode, before: Text, lines: seq<Line>, i: nat, canonical: bool, hash: (int, Text) -> int)
    requires Fit(lines) && i < |lines|
    ensures Fetched(before + Written(mode, lines), Entries(mode, lines, |before|, hash)[i], mode, canonical, hash) ==
            Some(lines[i].body)
    decreases |lines|
  {
    hide Chunk, Shown, ReadLine, Skip, TooLong;
    var l, tail := lines[0], lines[1..];
    var c, rest := Shown(mode, l), Written(mode, tail);
    assert Entries(mode, lines, |before|, hash)[1..] == Entries(mode, tail, |before| + |c|, hash);
    ShownIsRead(mode, l, rest, l.number, canonical);
    if i == 0 {
      assert (before + (c + rest))[|before|..] == c + rest;
    } else {
      EveryLineIsFetched(mode, before + c, tail, i - 1, canonical, hash);
      assert before + c + rest == before + (c + rest);
    }
  }

  // ---------- edits merged into a snapshot ----------

  /** A line set, or taken away. */
  datatype Edit = Edit(number: int, text: Option<Text>)

  function Effect(e: Edit): seq<Line> { if e.text.Some? then [Line(e.number, e.text.value)] else [] }

  /** The lines with the edits merged in, both in the order of their numbers. */
  function Merged(source: seq<Line>, edits: seq<Edit>): seq<Line>
    decreases |source| + |edits|
  {
    if edits == [] then source
    else if source == [] || edits[0].number < source[0].number then Effect(edits[0]) + Merged(source, edits[1..])
    else if edits[0].number == source[0].number then Effect(edits[0]) + Merged(source[1..], edits[1..])
    else [source[0]] + Merged(source[1..], edits)
  }

  predicate Ascending(lines: seq<Line>) { forall i, j :: 0 <= i < j < |lines| ==> lines[i].number < lines[j].number }

  predicate InTurn(edits: seq<Edit>) { forall i, j :: 0 <= i < j < |edits| ==> edits[i].number < edits[j].number }

  predicate Above(lines: seq<Line>, n: int) { forall i :: 0 <= i < |lines| ==> n < lines[i].number }

  predicate AllAbove(edits: seq<Edit>, n: int) { forall i :: 0 <= i < |edits| ==> n < edits[i].number }

  predicate Touches(edits: seq<Edit>, n: int) { exists i :: 0 <= i < |edits| && edits[i].number == n }

  predicate Sets(edits: seq<Edit>, l: Line) { exists i :: 0 <= i < |edits| && edits[i] == Edit(l.number, Some(l.body)) }

  lemma {:induction false} RestAscends(lines: seq<Line>)
    requires lines != [] && Ascending(lines)
    ensures Ascending(lines[1..]) && Above(lines[1..], lines[0].number)
  {
  }

  lemma {:induction false} RestInTurn(edits: seq<Edit>)
    requires edits != [] && InTurn(edits)
    ensures InTurn(edits[1..]) && AllAbove(edits[1..], edits[0].number)
  {
  }

  lemma {:induction false} PutInFront(first: seq<Line>, rest: seq<Line>, n: int, m: int)
    requires n < m && Ascending(rest) && Above(rest, m) && (first == [] || (|first| == 1 && first[0].number == m))
    ensures Ascending(first + rest) && Above(first + rest, n)
  {
  }

  lemma {:induction false} MergedIsAscending(source: seq<Line>, edits: seq<Edit>, n: int)
    requires Ascending(source) && InTurn(edits) && Above(source, n) && AllAbove(edits, n)
    ensures Ascending(Merged(source, edits)) && Above(Merged(source, edits), n)
    decreases |source| + |edits|
  {
    if edits != [] { RestInTurn(edits); }
    if source != [] { RestAscends(source); }
    assert edits != [] ==> n < edits[0].number;
    assert source != [] ==> n < source[0].number;
    assert edits != [] && source != [] && edits[0].number < source[0].number ==> Above(source, edits[0].number);
    assert edits != [] && source != [] && source[0].number < edits[0].number ==> AllAbove(edits, source[0].number);
    assert source == [] ==> edits != [] ==> Above(source, edits[0].number);
    hide Ascending, InTurn, Above, AllAbove;
    if edits == [] {
    } else if source == [] || edits[0].number < source[0].number {
      MergedIsAscending(source, edits[1..], edits[0].number);
      PutInFront(Effect(edits[0]), Merged(source, edits[1..]), n, edits[0].number);
    } else if edits[0].number == source[0].number {
      MergedIsAscending(source[1..], edits[1..], edits[0].number);
      PutInFront(Effect(edits[0]), Merged(source[1..], edits[1..]), n, edits[0].number);
    } else {
      MergedIsAscending(source[1..], edits, source[0].number);
      PutInFront([source[0]], Merged(source[1..], edits), n, source[0].number);
    }
  }

  /** A line is in the merged program if an edit sets it, or if it was there and no edit touches its number. */
  lemma {:induction false} MergedIsUpdated(source: seq<Line>, edits: seq<Edit>, l: Line)
    requires Ascending(source) && InTurn(edits)
    ensures l in Merged(source, edits) <==> Sets(edits, l) || (l in source && !Touches(edits, l.number))
    decreases |source| + |edits|
  {
    if edits == [] {
    } else if source == [] || edits[0].number < source[0].number {
      MergedIsUpdated(source, edits[1..], l);
      EditsSplit(edits, l);
      assert l in source ==> l.number != edits[0].number;
    } else if edits[0].number == source[0].number {
      MergedIsUpdated(source[1..], edits[1..], l);
      EditsSplit(edits, l);
      assert l in source <==> l == source[0] || l in source[1..];
      assert l in source[1..] ==> l.number != source[0].number;
    } else {
      MergedIsUpdated(source[1..], edits, l);
      assert l in source <==> l == source[0] || l in source[1..];
      assert !Touches(edits, source[0].number);
    }
  }

  lemma {:induction false} EditsSplit(edits: seq<Edit>, l: Line)
    requires edits != []
    ensures Sets(edits, l) <==> edits[0] == Edit(l.number, Some(l.body)) || Sets(edits[1..], l)
    ensures Touches(edits, l.number) <==> edits[0].number == l.number || Touches(edits[1..], l.number)
  {
    assert forall i :: 0 < i < |edits| ==> edits[i] == edits[1..][i - 1];
  }

  lemma {:induction false} WrittenOneMore(mode: Mode, lines: seq<Line>, l: Line)
    requires Counts(lines) && l.number >= 0
    ensures Counts(lines + [l]) && Written(mode, lines + [l]) == Written(mode, lines) + Shown(mode, l)
  {
    hide Shown;
    if lines == [] {
      assert [l][1..] == [];
      assert [] + [l] == [l];
    } else {
      assert (lines + [l])[1..] == lines[1..] + [l];
      WrittenOneMore(mode, lines[1..], l);
    }
  }

  lemma {:induction false} EntriesOneMore(mode: Mode, lines: seq<Line>, l: Line, offset: nat, hash: (int, Text) -> int)
    requires Counts(lines) && l.number >= 0
    ensures Counts(lines + [l])
    ensures Entries(mode, lines + [l], offset, hash) ==
            Entries(mode, lines, offset, hash) +
            [Entry(l.number, offset + |Written(mode, lines)|, hash(l.number, l.body), |l.body|)]
  {
    hide Shown;
    if lines == [] {
      assert [l][1..] == [];
      assert [] + [l] == [l];
    } else {
      assert (lines + [l])[1..] == lines[1..] + [l];
      EntriesOneMore(mode, lines[1..], l, offset + |Shown(mode, lines[0])|, hash);
    }
  }

  /** A program a snapshot has room for. */
  predicate Storable(lines: seq<Line>) { |lines| <= LINES && forall l <- lines :: |l.body| < LENGTH }

  /** At most two edits in the order of their numbers. */
  function Queue(edits: seq<Edit>): seq<Edit> {
    if |edits| == 2 && edits[0].number > edits[1].number then [edits[1], edits[0]] else edits
  }

  lemma {:induction false} QueueIsInTurn(edits: seq<Edit>)
    requires |edits| <= 2 && (|edits| == 2 ==> edits[0].number != edits[1].number)
    ensures InTurn(Queue(edits)) && forall e <- Queue(edits) :: e in edits
  {
  }

  lemma {:induction false} OneTooMany(lines: seq<Line>, l: Line, rest: seq<Line>, goal: seq<Line>)
    requires lines + [l] + rest == goal && (|lines| >= LINES || |l.body| >= LENGTH)
    ensures !Storable(goal)
  {
    assert goal[|lines|] == l;
  }

  lemma {:induction false} Later(queue: seq<Edit>, k: nat)
    requires InTurn(queue) && 0 < k < |queue|
    ensures queue[k - 1].number < queue[k].number
  {
  }

  /** The next thing merged in is the next edit. */
  lemma {:induction false} NextEdit(
      source: seq<Line>, i: nat, queue: seq<Edit>, k: nat, done: seq<Line>, goal: seq<Line>)
    requires i <= |source| && k < |queue| && done + Merged(source[i..], queue[k..]) == goal
    requires i < |source| ==> queue[k].number <= source[i].number
    ensures var next := if i < |source| && queue[k].number == source[i].number then i + 1 else i;
            next <= |source| && done + Effect(queue[k]) + Merged(source[next..], queue[k + 1..]) == goal
    ensures queue[k].text.Some? && (|done| >= LINES || |queue[k].text.value| >= LENGTH) ==> !Storable(goal)
  {
    var next := if i < |source| && queue[k].number == source[i].number then i + 1 else i;
    assert queue[k..][1..] == queue[k + 1..];
    assert i < |source| ==> source[i..][1..] == source[i + 1..];
    assert Merged(source[i..], queue[k..]) == Effect(queue[k]) + Merged(source[next..], queue[k + 1..]);
    if queue[k].text.Some? && (|done| >= LINES || |queue[k].text.value| >= LENGTH) {
      OneTooMany(done, Effect(queue[k])[0], Merged(source[next..], queue[k + 1..]), goal);
    }
  }

  /** The next thing merged in is the next line. */
  lemma {:induction false} NextLine(
      source: seq<Line>, i: nat, queue: seq<Edit>, k: nat, done: seq<Line>, goal: seq<Line>)
    requires i < |source| && k <= |queue| && done + Merged(source[i..], queue[k..]) == goal
    requires k < |queue| ==> source[i].number < queue[k].number
    ensures done + [source[i]] + Merged(source[i + 1..], queue[k..]) == goal
    ensures |done| >= LINES || |source[i].body| >= LENGTH ==> !Storable(goal)
  {
    assert source[i..][1..] == source[i + 1..];
    assert Merged(source[i..], queue[k..]) == [source[i]] + Merged(source[i + 1..], queue[k..]);
    if |done| >= LINES || |source[i].body| >= LENGTH {
      OneTooMany(done, source[i], Merged(source[i + 1..], queue[k..]), goal);
    }
  }

  lemma {:induction false} RoomForAll(lines: seq<Line>)
    requires |lines| <= LINES && forall l <- lines :: |l.body| < LENGTH
    ensures Storable(lines)
  {
  }

  lemma {:induction false} LastLine(source: seq<Line>, queue: seq<Edit>, done: seq<Line>, goal: seq<Line>)
    requires source == [] && queue == [] && done + Merged(source, queue) == goal
    requires |done| <= LINES && forall l <- done :: |l.body| < LENGTH
    ensures done == goal && Storable(goal)
  {
  }

  function Rows(bodies: seq<Text>): (rows: seq<Line>)
    ensures |rows| == |bodies|
  {
    seq(|bodies|, i requires 0 <= i < |bodies| => Line(i + 1, bodies[i]))
  }

  /** What is written on coming to row `i`: the new rows in their place, and the row itself unless it goes. */
  function RowsAt(source: seq<Text>, first: nat, remove: nat, rows: seq<Text>, i: nat): seq<Text> {
    (if i == first then rows else []) + (if i < |source| && (i < first || i >= first + remove) then [source[i]] else [])
  }

  /** What has been written before row `i`. */
  function RowsTo(source: seq<Text>, first: nat, remove: nat, rows: seq<Text>, i: nat): seq<Text> {
    if i == 0 then [] else RowsTo(source, first, remove, rows, i - 1) + RowsAt(source, first, remove, rows, i - 1)
  }

  function Spliced(source: seq<Text>, first: nat, remove: nat, rows: seq<Text>): seq<Text>
    requires first + remove <= |source|
  {
    source[..first] + rows + source[first + remove..]
  }

  lemma {:induction false} RowsBefore(source: seq<Text>, first: nat, remove: nat, rows: seq<Text>, i: nat)
    requires i <= first <= |source|
    ensures RowsTo(source, first, remove, rows, i) == source[..i]
  {
    if i > 0 {
      RowsBefore(source, first, remove, rows, i - 1);
      assert source[..i] == source[..i - 1] + [source[i - 1]];
    }
  }

  lemma {:induction false} RowsAmid(source: seq<Text>, first: nat, remove: nat, rows: seq<Text>, i: nat)
    requires first + remove <= |source| && first < i <= first + remove
    ensures RowsTo(source, first, remove, rows, i) == source[..first] + rows
  {
    if i == first + 1 {
      RowsBefore(source, first, remove, rows, first);
      assert RowsAt(source, first, remove, rows, first) == rows;
    } else {
      RowsAmid(source, first, remove, rows, i - 1);
    }
  }

  lemma {:induction false} RowsAfter(source: seq<Text>, first: nat, remove: nat, rows: seq<Text>, i: nat)
    requires first + remove < i <= |source|
    ensures RowsTo(source, first, remove, rows, i) == source[..first] + rows + source[first + remove..i]
  {
    var more := source[first + remove..i];
    assert more == source[first + remove..i - 1] + [source[i - 1]];
    if i - 1 > first + remove {
      RowsAfter(source, first, remove, rows, i - 1);
    } else if remove > 0 {
      RowsAmid(source, first, remove, rows, i - 1);
    } else {
      RowsBefore(source, first, remove, rows, first);
      assert RowsAt(source, first, remove, rows, first) == rows + [source[first]];
    }
  }

  /** All of it is the source with the run replaced. */
  lemma {:induction false} RowsAreSpliced(source: seq<Text>, first: nat, remove: nat, rows: seq<Text>)
    requires first + remove <= |source|
    ensures RowsTo(source, first, remove, rows, |source| + 1) == Spliced(source, first, remove, rows)
  {
    var n := |source|;
    if n > first + remove {
      RowsAfter(source, first, remove, rows, n);
      assert source[first + remove..n] == source[first + remove..];
    } else if remove > 0 {
      RowsAmid(source, first, remove, rows, n);
    } else {
      RowsBefore(source, first, remove, rows, n);
    }
  }

  lemma {:induction false} RowsGrow(source: seq<Text>, first: nat, remove: nat, rows: seq<Text>, i: nat, n: nat)
    requires i <= n
    ensures RowsTo(source, first, remove, rows, i) <= RowsTo(source, first, remove, rows, n)
  {
    if i < n { RowsGrow(source, first, remove, rows, i, n - 1); }
  }

  /** What merging at most two edits means: a program in order, with each number set, gone or as it was. */
  lemma {:induction false} MergingMeans(source: seq<Line>, edits: seq<Edit>, l: Line)
    requires Ascending(source) && |edits| <= 2 && (|edits| == 2 ==> edits[0].number != edits[1].number)
    ensures Ascending(Merged(source, Queue(edits)))
    ensures l in Merged(source, Queue(edits)) <==> Sets(edits, l) || (l in source && !Touches(edits, l.number))
  {
    var queue := Queue(edits);
    assert Sets(queue, l) <==> Sets(edits, l) by { QueueKeeps(edits, l); }
    assert Touches(queue, l.number) <==> Touches(edits, l.number) by { QueueKeeps(edits, l); }
    MergedIsUpdated(source, queue, l);
    var low := Least(if source == [] then 0 else source[0].number, if queue == [] then 0 else queue[0].number) - 1;
    MergedIsAscending(source, queue, low);
  }

  function Least(a: int, b: int): int { if a < b then a else b }

  lemma {:induction false} QueueKeeps(edits: seq<Edit>, l: Line)
    ensures Sets(Queue(edits), l) <==> Sets(edits, l)
    ensures Touches(Queue(edits), l.number) <==> Touches(edits, l.number)
  {
    var queue := Queue(edits);
    if |edits| == 2 {
      assert edits[0] in queue && edits[1] in queue;
      assert forall e :: e in edits <==> e in queue;
    }
    if Touches(edits, l.number) {
      var i :| 0 <= i < |edits| && edits[i].number == l.number;
      assert edits[i] in queue;
    }
    if Touches(queue, l.number) {
      var i :| 0 <= i < |queue| && queue[i].number == l.number;
      assert queue[i] in edits;
    }
  }

  /** A snapshot under way: the file written so far and the index of it. */
  class Snapshot {
    const mode: Mode
    const hash: (int, Text) -> int
    var file: Text
    var index: seq<Entry>
    ghost var lines: seq<Line>

    ghost predicate Valid()
      reads this
    {
      Counts(lines) && |lines| <= LINES && (forall l <- lines :: |l.body| < LENGTH) &&
      file == Written(mode, lines) && index == Entries(mode, lines, 0, hash)
    }

    constructor (mode: Mode, hash: (int, Text) -> int)
      ensures Valid() && lines == [] && this.mode == mode && this.hash == hash
    {
      this.mode, this.hash, file, index, lines := mode, hash, [], [], [];
    }

    method Emit(l: Line) returns (ok: bool)
      requires Valid() && l.number >= 0
      modifies this
      ensures Valid() && ok == (|old(lines)| < LINES && |l.body| < LENGTH)
      ensures lines == if ok then old(lines) + [l] else old(lines)
    {
      ok := |index| < LINES && |l.body| < LENGTH;
      if ok {
        WrittenOneMore(mode, lines, l);
        EntriesOneMore(mode, lines, l, 0, hash);
        index := index + [Entry(l.number, |file|, hash(l.number, l.body), |l.body|)];
        file := file + Shown(mode, l);
        lines := lines + [l];
      }
    }

    method EmitEdit(e: Edit) returns (ok: bool)
      requires Valid() && e.number >= 0
      modifies this
      ensures Valid() && ok == (e.text.Some? ==> |old(lines)| < LINES && |e.text.value| < LENGTH)
      ensures lines == if ok then old(lines) + Effect(e) else old(lines)
    {
      ok := true;
      if e.text.Some? { ok := Emit(Line(e.number, e.text.value)); }
    }

    /** The edits that come before line `i` of the source, or in its place. */
    method EmitEditsUpTo(source: seq<Line>, i: nat, queue: seq<Edit>, first: nat, ghost goal: seq<Line>)
      returns (ok: bool, k: nat, replaced: bool)
      requires Valid() && i < |source| && first <= |queue| && InTurn(queue) && forall e <- queue :: e.number >= 0
      requires lines + Merged(source[i..], queue[first..]) == goal
      modifies this
      ensures Valid() && k <= |queue| && (!ok ==> !Storable(goal))
      ensures ok && k < |queue| ==> source[i].number < queue[k].number
      ensures ok ==> lines + Merged(source[if replaced then i + 1 else i..], queue[k..]) == goal
    {
      hide Merged, Written, Entries, Storable, Effect, Counts, InTurn;
      ok, k, replaced := true, first, false;
      ghost var next := i;
      while k < |queue| && queue[k].number <= source[i].number
        invariant k <= |queue| && Valid() && next == if replaced then i + 1 else i
        invariant lines + Merged(source[next..], queue[k..]) == goal
        invariant replaced && k < |queue| ==> source[i].number < queue[k].number
      {
        NextEdit(source, next, queue, k, lines, goal);
        ok := EmitEdit(queue[k]);
        if !ok { return; }
        replaced := replaced || queue[k].number == source[i].number;
        next := if replaced then i + 1 else i;
        k := k + 1;
        if k < |queue| { Later(queue, k); }
      }
    }

    /** The lines of a program, in order, with at most two edits merged in on the way. */
    method MergeEdits(source: seq<Line>, edits: seq<Edit>) returns (ok: bool)
      requires Valid() && lines == [] && Ascending(source) && Counts(source)
      requires |edits| <= 2 && (|edits| == 2 ==> edits[0].number != edits[1].number) &&
          forall e <- edits :: e.number >= 0
      modifies this
      ensures Valid() && (ok <==> Storable(Merged(source, Queue(edits))))
      ensures ok ==> lines == Merged(source, Queue(edits))
    {
      hide Merged, Written, Entries, Storable, Effect, InTurn, Ascending, Queue;
      var queue := Queue(edits);
      QueueIsInTurn(edits);
      ghost var goal := Merged(source, queue);
      var i: nat, k: nat := 0, 0;
      assert source[0..] == source && queue[0..] == queue && [] + goal == goal;
      while i < |source|
        invariant i <= |source| && k <= |queue| && Valid() && lines + Merged(source[i..], queue[k..]) == goal
      {
        var replaced;
        ok, k, replaced := EmitEditsUpTo(source, i, queue, k, goal);
        if !ok { return; }
        if !replaced {
          NextLine(source, i, queue, k, lines, goal);
          ok := Emit(source[i]);
          if !ok { return; }
        }
        i := i + 1;
      }
      while k < |queue|
        invariant k <= |queue| && Valid() && lines + Merged(source[i..], queue[k..]) == goal
      {
        NextEdit(source, i, queue, k, lines, goal);
        ok := EmitEdit(queue[k]);
        if !ok { return; }
        k := k + 1;
      }
      ok := true;
      LastLine(source[i..], queue[k..], lines, goal);
    }

    /** The next row, numbered by its place. */
    method EmitRow(body: Text, ghost done: seq<Text>, ghost goal: seq<Text>) returns (ok: bool)
      requires Valid() && lines == Rows(done) && done + [body] <= goal
      modifies this
      ensures Valid() && (if ok then lines == Rows(done + [body]) else !Storable(Rows(goal)))
    {
      ok := Emit(Line(|index| + 1, body));
      if ok {
        assert Rows(done + [body]) == Rows(done) + [Line(|done| + 1, body)];
      } else {
        assert goal[|done|] == body && Rows(goal)[|done|].body == body;
      }
    }

    method EmitRows(rows: seq<Text>, ghost done: seq<Text>, ghost goal: seq<Text>) returns (ok: bool)
      requires Valid() && lines == Rows(done) && done + rows <= goal
      modifies this
      ensures Valid() && (if ok then lines == Rows(done + rows) else !Storable(Rows(goal)))
    {
      hide Written, Entries, Storable, Rows;
      ok := true;
      var j := 0;
      assert done + rows[..0] == done;
      while j < |rows|
        invariant j <= |rows| && Valid() && lines == Rows(done + rows[..j])
      {
        assert done + rows[..j] + [rows[j]] == done + rows[..j + 1] <= goal;
        ok := EmitRow(rows[j], done + rows[..j], goal);
        if !ok { return; }
        j := j + 1;
      }
      assert rows[..j] == rows;
      ok := true;
    }

    /** The rows of a structured program with a run of them replaced. */
    method SpliceRows(source: seq<Text>, first: nat, remove: nat, rows: seq<Text>) returns (ok: bool)
      requires Valid() && lines == [] && first + remove <= |source|
      modifies this
      ensures Valid() && (ok <==> Storable(Rows(Spliced(source, first, remove, rows))))
      ensures ok ==> lines == Rows(Spliced(source, first, remove, rows))
    {
      hide Written, Entries, Storable, Spliced;
      ghost var goal := Spliced(source, first, remove, rows);
      RowsAreSpliced(source, first, remove, rows);
      var i: nat := 0;
      while i <= |source|
        invariant i <= |source| + 1 && Valid() && lines == Rows(RowsTo(source, first, remove, rows, i))
      {
        RowsGrow(source, first, remove, rows, i + 1, |source| + 1);
        ok := EmitRows(RowsAt(source, first, remove, rows, i), RowsTo(source, first, remove, rows, i), goal);
        if !ok { return; }
        i := i + 1;
      }
      ok := true;
      RoomForAll(lines);
    }
  }
}
