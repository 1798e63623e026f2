/** The files of a sitting on the card are the texts of snapshots: when what an edit writes is what the next
    boot reads. */
module WorkFiles {
  import opened Listings
  import opened Wrappers
  import opened SourceText
  import CrashRecovery

  /** The lines that the entries of an index fetch; None if one of them does not. */
  function Lines(file: Text, entries: seq<Entry>, mode: Mode, hash: (int, Text) -> int): Option<seq<Line>> {
    if entries == [] then Some([])
    else
      var body := Fetched(file, entries[0], mode, true, hash);
      var rest := Lines(file, entries[1..], mode, hash);
      if body == None || rest == None then None else Some([Line(entries[0].number, body.value)] + rest.value)
  }

  /** A work file scanned for a session of this mode, and read through again. */
  function DocumentOf(file: Text, mode: Mode, hash: (int, Text) -> int): Option<seq<Line>> {
    match Scanned(file, mode, true, hash)
    case Err(_) => None
    case Ok((found, entries)) =>
      if found == mode && Verified(file, 0, entries, mode, hash) then Lines(file, entries, mode, hash) else None
  }

  /** The check of a snapshot against the index made while writing it. */
  predicate Checked(file: Text, mode: Mode, lines: seq<Line>, hash: (int, Text) -> int) {
    Counts(lines) && Verified(file, 0, Entries(mode, lines, 0, hash), mode, hash)
  }

  function ReaderOf(session: Text -> Option<CrashRecovery.Meta>, format: CrashRecovery.Meta -> Text, hash: (int, Text) -> int):
    CrashRecovery.Reader
  {
    CrashRecovery.Reader(
      session, format, (file, mode) => DocumentOf(file, mode, hash), (file, mode, lines) => Checked(file, mode, lines, hash))
  }

  lemma {:induction false} WrittenLines(mode: Mode, before: Text, lines: seq<Line>, hash: (int, Text) -> int)
    requires Fit(lines)
    ensures Lines(before + Written(mode, lines), Entries(mode, lines, |before|, hash), mode, hash) == Some(lines)
    decreases |lines|
  {
    hide Fetched, Shown;
    if lines != [] {
      var l, tail := lines[0], lines[1..];
      EveryLineIsFetched(mode, before, lines, 0, true, hash);
      WrittenLines(mode, before + Shown(mode, l), tail, hash);
      assert before + Shown(mode, l) + Written(mode, tail) == before + Written(mode, lines);
      assert Entries(mode, lines, |before|, hash)[1..] == Entries(mode, tail, |before| + |Shown(mode, l)|, hash);
      assert [l] + tail == lines;
    }
  }

  lemma {:induction false} NumberedRowsAreNoDocument(lines: seq<Line>, hash: (int, Text) -> int)
    requires Fit(lines) && AnyNumbered(lines)
    ensures DocumentOf(Written(Structured, lines), Structured, hash) == None
  {
    hide Survey, Indexed, Written, AnyNumbered, AnyPlain;
    RowsAreSurveyed(lines, false, false);
  }

  lemma {:induction false} ProgramsFit(mode: Mode, lines: seq<Line>)
    requires IsProgram(mode, lines)
    ensures Fit(lines)
  {
  }

  /** What is written for a program is read as that program exactly if it is numbered or none of its rows begins
      with a digit; the check before publishing accepts it in any case. */
  lemma {:induction false} WrittenIsDocument(mode: Mode, lines: seq<Line>, hash: (int, Text) -> int)
    requires IsProgram(mode, lines)
    ensures DocumentOf(Written(mode, lines), mode, hash) == Some(lines) <==> mode.ClassicNumbered? || !AnyNumbered(lines)
    ensures Checked(Written(mode, lines), mode, lines, hash)
  {
    hide Scanned, Verified, Lines, Entries, Written, IsProgram, AnyNumbered;
    ProgramsFit(mode, lines);
    WrittenIsVerified(mode, lines, 0, hash);
    if mode.Structured? && AnyNumbered(lines) {
      NumberedRowsAreNoDocument(lines, hash);
    } else {
      ReadsBackUnlessRowsLookNumbered(mode, lines, true, hash);
      WrittenLines(mode, [], lines, hash);
      assert [] + Written(mode, lines) == Written(mode, lines);
    }
  }

  /** An edit as the store makes it. */
  function ChangeOf(lines: seq<Line>, filename: string, dirty: bool, mode: Mode): CrashRecovery.Change
    requires Counts(lines)
  {
    CrashRecovery.Change(lines, Written(mode, lines), filename, dirty, mode)
  }

  /** For the files as they are, an edit is faithful exactly if its metadata reads back and it is numbered or has
      no row that begins with a digit. */
  lemma {:induction false} FaithfulUnlessRowsLookNumbered(
      session: Text -> Option<CrashRecovery.Meta>, format: CrashRecovery.Meta -> Text, hash: (int, Text) -> int,
      lines: seq<Line>, filename: string, dirty: bool, mode: Mode)
    requires IsProgram(mode, lines) && Counts(lines)
    ensures var r := ReaderOf(session, format, hash);
            CrashRecovery.Faithful(r, ChangeOf(lines, filename, dirty, mode)) <==>
            (mode.ClassicNumbered? || !AnyNumbered(lines)) &&
            forall k: nat :: CrashRecovery.Legible(r, CrashRecovery.Meta(k, filename, dirty, mode))
  {
    hide DocumentOf, Checked, AnyNumbered, IsProgram, Written;
    WrittenIsDocument(mode, lines, hash);
    var r, c := ReaderOf(session, format, hash), ChangeOf(lines, filename, dirty, mode);
    assert r.document(c.text, c.mode) == DocumentOf(Written(mode, lines), mode, hash);
    if CrashRecovery.Faithful(r, c) {
      forall k: nat
        ensures CrashRecovery.Legible(r, CrashRecovery.Meta(k, filename, dirty, mode))
      {
        CrashRecovery.Reads(r, c, k);
      }
    }
    if forall k: nat :: CrashRecovery.Legible(r, CrashRecovery.Meta(k, filename, dirty, mode)) {
      forall k: nat
        ensures var m := CrashRecovery.Meta(k, c.filename, c.dirty, c.mode); r.session(r.format(m)) == Some(m)
      {
        assert CrashRecovery.Legible(r, CrashRecovery.Meta(k, filename, dirty, mode));
      }
    }
  }

  /** A structured program with such a row passes the check, is published, and is then not taken up at the next
      boot, from wherever its metadata is read. */
  lemma {:induction false} PublishedButNotAdopted(
      session: Text -> Option<CrashRecovery.Meta>, format: CrashRecovery.Meta -> Text, hash: (int, Text) -> int,
      files: CrashRecovery.Files, metadata: CrashRecovery.Name, m: CrashRecovery.Meta, lines: seq<Line>)
    requires IsProgram(Structured, lines) && Counts(lines) && AnyNumbered(lines) && m.mode.Structured?
    requires metadata in files && session(files[metadata]) == Some(m)
    requires CrashRecovery.Work(m.work) in files && files[CrashRecovery.Work(m.work)] == Written(Structured, lines)
    ensures var r := ReaderOf(session, format, hash);
            r.check(Written(Structured, lines), Structured, lines) && CrashRecovery.Candidate(r, files, metadata) == None
  {
    hide DocumentOf, Checked, AnyNumbered, IsProgram, Written;
    WrittenIsDocument(Structured, lines, hash);
    ProgramsFit(Structured, lines);
    NumberedRowsAreNoDocument(lines, hash);
    var r := ReaderOf(session, format, hash);
    assert r.document(Written(Structured, lines), Structured) == DocumentOf(Written(Structured, lines), Structured, hash);
    assert r.check(Written(Structured, lines), Structured, lines) == Checked(Written(Structured, lines), Structured, lines, hash);
  }
}
