/** Editing on the SD card. Every edit writes a whole new work file and then switches the session
    file to it; the card may lose power after any single file operation, and while recovering. */
module CrashRecovery {
  import opened Listings
  import opened Wrappers

  datatype Name = Session | SessionTemp | SessionBackup | EditTemp | EditBackup | Work(k: nat) | Rescued(k: nat)

  datatype Meta = Meta(work: nat, filename: string, dirty: bool, mode: Mode)

  type Document = seq<Line>

  datatype Program = Program(doc: Document, meta: Meta)

  type Files = map<Name, string>

  /** How files are read: session metadata, and a work file scanned and verified in a mode. `check` is
      the re-reading of a work file against the lines just written to it. */
  datatype Reader = Reader(
    session: string -> Option<Meta>,
    format: Meta -> string,
    document: (string, Mode) -> Option<Document>,
    check: (string, Mode, Document) -> bool)

  const WORK_NAMES := 10000
  const SESSION_CAPACITY := 256

  /** The program one metadata file stands for. */
  function Candidate(r: Reader, f: Files, metadata: Name): Option<Program> {
    if metadata !in f then None
    else
      var m := r.session(f[metadata]);
      if m.None? || Work(m.value.work) !in f then None
      else
        var d := r.document(f[Work(m.value.work)], m.value.mode);
        if d.None? then None else Some(Program(d.value, m.value))
  }

  /** What the next boot takes up: the session, or its backup when the session does not stand. */
  function Adopted(r: Reader, f: Files): Option<Program> {
    var p := Candidate(r, f, Session);
    if p.Some? then p else Candidate(r, f, SessionBackup)
  }

  /** The card while the program is being edited. */
  predicate Sound(r: Reader, f: Files, p: Program) {
    Candidate(r, f, Session) == Some(p) || (Session !in f && Candidate(r, f, SessionBackup) == Some(p))
  }

  lemma {:induction false} SoundAdopts(r: Reader, f: Files, p: Program)
    requires Sound(r, f, p)
    ensures Adopted(r, f) == Some(p) && Work(p.meta.work) in f
  {}

  // ---------- the states of a commit ----------

  function Renamed(f: Files, a: Name, b: Name): Files
    requires a in f
  {
    f[b := f[a]] - {a}
  }

  function Swapped(f: Files, target: Name, temp: Name, backup: Name): Files
    requires temp in f && temp != target && temp != backup
  {
    Renamed(if target in f then Renamed(f, target, backup) else f, temp, target)
  }

  predicate BeforeSwap(f: Files, s: Files, target: Name, backup: Name) {
    s == f || (target in f && s == Renamed(f, target, backup))
  }

  predicate AfterSwap(f: Files, s: Files, target: Name, temp: Name, backup: Name)
    requires temp in f && temp != target && temp != backup
  {
    s == Swapped(f, target, temp, backup) || s == Swapped(f, target, temp, backup) - {backup}
  }

  lemma {:induction false} SwapTouches(f: Files, s: Files, target: Name, temp: Name, backup: Name)
    requires temp in f && temp != target && temp != backup
    requires BeforeSwap(f, s, target, backup) || AfterSwap(f, s, target, temp, backup)
    ensures EqualBut(s, f, {target, temp, backup})
  {
    hide EqualBut;
    var names := {target, temp, backup};
    SameFiles(f, names);
    var m := if target in f then Renamed(f, target, backup) else f;
    if target in f { RenamedTouches(f, target, backup, names); }
    RenamedTouches(m, temp, target, names);
    var w := Renamed(m, temp, target);
    EqualButTrans(w, m, f, names);
    RemovedOnly(w, backup, names);
    EqualButTrans(w - {backup}, w, f, names);
  }

  lemma {:induction false} RenamedTouches(f: Files, a: Name, b: Name, names: set<Name>)
    requires a in f && a in names && b in names
    ensures EqualBut(Renamed(f, a, b), f, names)
  {
    EqualButBy(Renamed(f, a, b), f, names);
  }

  lemma {:induction false} StaysThere(f: Files, a: Name, b: Name, n: Name)
    requires a in f && n != a && n != b
    ensures n in Renamed(f, a, b) <==> n in f
  {}

  lemma {:induction false} RenamedBack(f: Files, a: Name, b: Name)
    requires a in f && b !in f && a != b
    ensures a !in Renamed(f, a, b) && b in Renamed(f, a, b) && Renamed(Renamed(f, a, b), b, a) == f
  {}

  lemma {:induction false} EqualButBy(s: Files, f: Files, names: set<Name>)
    requires forall n :: n !in names ==> (n in s <==> n in f) && (n in f ==> s[n] == f[n])
    ensures EqualBut(s, f, names)
  {
    assert (s - names).Keys == (f - names).Keys;
  }

  /** The same files apart from `names`. */
  predicate EqualBut(s: Files, f: Files, names: set<Name>) { s - names == f - names }

  ghost predicate SameButWork(s: Files, f: Files) {
    forall n: Name :: !n.Work? ==> (n in s <==> n in f) && (n in f ==> s[n] == f[n])
  }

  lemma {:induction false} EqualButGet(s: Files, f: Files, names: set<Name>, n: Name)
    requires EqualBut(s, f, names) && n !in names
    ensures (n in s <==> n in f) && (n in f ==> s[n] == f[n])
  {
    assert n in s <==> n in s - names;
    assert n in f <==> n in f - names;
    if n in f { assert (s - names)[n] == (f - names)[n]; }
  }

  lemma {:induction false} EqualButTrans(a: Files, b: Files, c: Files, names: set<Name>)
    requires EqualBut(a, b, names) && EqualBut(b, c, names)
    ensures EqualBut(a, c, names)
  {}

  lemma {:induction false} EqualButMore(s: Files, f: Files, names: set<Name>, more: set<Name>)
    requires EqualBut(s, f, names) && names <= more
    ensures EqualBut(s, f, more)
  {
    assert s - more == (s - names) - more && f - more == (f - names) - more;
  }

  /** Until the session is renamed in, the next boot takes up the old program; from then on the new one. */
  lemma {:induction false} SwitchIsAtomic(r: Reader, f: Files, s: Files, p: Program, q: Program)
    requires Candidate(r, f, Session) == Some(p) && SessionTemp in f && r.session(f[SessionTemp]) == Some(q.meta)
    requires Work(q.meta.work) in f && r.document(f[Work(q.meta.work)], q.meta.mode) == Some(q.doc)
    ensures BeforeSwap(f, s, Session, SessionBackup) ==> Sound(r, s, p)
    ensures AfterSwap(f, s, Session, SessionTemp, SessionBackup) ==> Candidate(r, s, Session) == Some(q)
  {
    assert r.session(f[Session]) == Some(p.meta);
    if s == Renamed(f, Session, SessionBackup) {
      assert s[SessionBackup] == f[Session] && Work(p.meta.work) in s && s[Work(p.meta.work)] == f[Work(p.meta.work)];
    }
    if AfterSwap(f, s, Session, SessionTemp, SessionBackup) {
      assert s[Session] == f[SessionTemp] && Work(q.meta.work) in s && s[Work(q.meta.work)] == f[Work(q.meta.work)];
    }
  }

  /** Files the next boot does not read may change freely. */
  lemma {:induction false} Unread(r: Reader, f: Files, s: Files, p: Program, names: set<Name>)
    requires Sound(r, f, p) && EqualBut(s, f, names)
    requires Session !in names && SessionBackup !in names && Work(p.meta.work) !in names
    ensures Sound(r, s, p)
  {
    EqualButGet(s, f, names, Session);
    EqualButGet(s, f, names, SessionBackup);
    EqualButGet(s, f, names, Work(p.meta.work));
    if Candidate(r, f, Session) == Some(p) { assert Candidate(r, s, Session) == Some(p); }
  }

  // ---------- the card ----------

  /** `fails` says which operations fail, `torn` what an interrupted write leaves behind. */
  class Card {
    const reader: Reader
    const fails: nat -> bool
    const torn: nat -> string
    const overwrites: bool
    var clock: nat
    var files: Files
    ghost var seen: seq<Files> // the card after each operation

    constructor (reader: Reader, fails: nat -> bool, torn: nat -> string, overwrites: bool, files: Files)
      ensures this.files == files && seen == [files] && this.reader == reader && clock == 0
      ensures this.fails == fails && this.overwrites == overwrites
    {
      this.reader, this.fails, this.torn, this.overwrites := reader, fails, torn, overwrites;
      this.files, clock, seen := files, 0, [files];
    }

    /** Nothing fails from operation `from` to the one before `to`. */
    predicate Quiet(from: nat, to: nat) { forall t :: from <= t < to ==> !fails(t) }

    method Remove(n: Name) returns (ok: bool)
      modifies this
      ensures clock == old(clock) + 1 && (ok <==> n in old(files) && !fails(old(clock)))
      ensures files == if ok then old(files) - {n} else old(files)
      ensures seen == old(seen) + [files]
    {
      ok := n in files && !fails(clock);
      if ok { files := files - {n}; }
      clock, seen := clock + 1, seen + [files];
    }

    method Rename(a: Name, b: Name) returns (ok: bool)
      requires a != b
      modifies this
      ensures clock == old(clock) + 1
      ensures ok <==> a in old(files) && (overwrites || b !in old(files)) && !fails(old(clock))
      ensures ok ==> files == Renamed(old(files), a, b)
      ensures !ok ==> files == old(files)
      ensures seen == old(seen) + [files]
    {
      ok := a in files && (overwrites || b !in files) && !fails(clock);
      if ok { files := Renamed(files, a, b); }
      clock, seen := clock + 1, seen + [files];
    }

    method Create(n: Name) returns (ok: bool)
      modifies this
      ensures clock == old(clock) + 1 && (ok <==> !fails(old(clock)))
      ensures files == if ok then old(files)[n := ""] else old(files)
      ensures seen == old(seen) + [files]
    {
      ok := !fails(clock);
      if ok { files := files[n := ""]; }
      clock, seen := clock + 1, seen + [files];
    }

    method Fill(n: Name, text: string) returns (ok: bool)
      requires n in files
      modifies this
      ensures clock == old(clock) + 1 && (ok <==> !fails(old(clock)))
      ensures n in files && EqualBut(files, old(files), {n}) && (ok ==> files[n] == text)
      ensures |seen| == |old(seen)| + 2 && old(seen) <= seen && files == seen[|seen| - 1]
      ensures forall i :: |old(seen)| <= i < |seen| ==> n in seen[i] && EqualBut(seen[i], old(files), {n})
    {
      ghost var was := files;
      files := files[n := torn(clock)];
      seen := seen + [files];
      ok := !fails(clock);
      if ok { files := files[n := text]; }
      clock, seen := clock + 1, seen + [files];
      assert forall i :: |old(seen)| <= i < |seen| ==> seen[i] - {n} == was - {n};
    }

    method Close() returns (ok: bool)
      modifies this
      ensures clock == old(clock) + 1 && (ok <==> !fails(old(clock)))
      ensures files == old(files) && seen == old(seen) + [files]
    {
      ok := !fails(clock);
      clock, seen := clock + 1, seen + [files];
    }
  }

  // ---------- writing a file safely ----------

  class Writer {
    const card: Card
    const target: Name
    const temp: Name
    const backup: Name
    var isOpen: bool
    var ownsTemp: bool

    constructor (card: Card, target: Name, temp: Name, backup: Name)
      requires temp != target && backup != target && temp != backup
      ensures this.card == card && this.target == target && this.temp == temp && this.backup == backup &&
          !isOpen && !ownsTemp
    {
      this.card, this.target, this.temp, this.backup := card, target, temp, backup;
      isOpen, ownsTemp := false, false;
    }

    ghost predicate Valid()
      reads this, card
    {
      temp != target && backup != target && temp != backup && (isOpen ==> ownsTemp) && (ownsTemp ==> temp in card.files)
    }

    /** Refused while either staging name is taken. */
    method Open() returns (ok: bool)
      requires Valid() && !isOpen && !ownsTemp
      modifies this, card
      ensures Valid() && old(card.seen) <= card.seen
      ensures ok <==> temp !in old(card.files) && backup !in old(card.files) && !card.fails(old(card.clock))
      ensures card.clock == old(card.clock) + 1 || (!ok && card.clock == old(card.clock))
      ensures if ok then isOpen && backup !in card.files && card.files == old(card.files)[temp := ""]
              else !isOpen && !ownsTemp && card.files == old(card.files)
      ensures forall i :: |old(card.seen)| <= i < |card.seen| ==> EqualBut(card.seen[i], old(card.files), {temp})
    {
      if temp in card.files || backup in card.files { return false; }
      ok := card.Create(temp);
      if ok { isOpen, ownsTemp := true, true; }
    }

    method Write(text: string) returns (ok: bool)
      requires Valid() && isOpen
      modifies card
      ensures Valid() && old(card.seen) <= card.seen && EqualBut(card.files, old(card.files), {temp})
      ensures ok ==> card.files[temp] == text
      ensures (ok <==> !card.fails(old(card.clock))) && card.clock == old(card.clock) + 1
      ensures forall i :: |old(card.seen)| <= i < |card.seen| ==> EqualBut(card.seen[i], old(card.files), {temp})
    {
      ok := card.Fill(temp, text);
    }

    /** Old file to the backup, new file in, backup away; on failure the old file is moved back. From
        `cut` on the new file is in place. It succeeds if closing and the one or two renames do. */
    method Commit() returns (ok: bool, ghost cut: nat)
      requires Valid() && isOpen && backup !in card.files
      modifies this, card
      ensures Valid() && !isOpen && old(card.seen) <= card.seen && |old(card.seen)| <= cut <= |card.seen|
      ensures forall i :: |old(card.seen)| <= i < cut ==> BeforeSwap(old(card.files), card.seen[i], target, backup)
      ensures forall i :: cut <= i < |card.seen| ==> AfterSwap(old(card.files), card.seen[i], target, temp, backup)
      ensures ok == !ownsTemp == (cut < |card.seen|) && card.clock > old(card.clock)
      ensures ok <==> card.Quiet(old(card.clock), old(card.clock) + if target in old(card.files) then 3 else 2)
      ensures ok ==> card.clock == old(card.clock) + if target in old(card.files) then 4 else 2
      ensures if ok then AfterSwap(old(card.files), card.files, target, temp, backup)
              else BeforeSwap(old(card.files), card.files, target, backup)
    {
      hide Renamed;
      isOpen := false;
      ghost var f := card.files;
      if target in f { RenamedBack(f, target, backup); StaysThere(f, target, backup, temp); }
      StaysThere(f, temp, target, backup);
      ok := card.Close();
      cut := |card.seen|;
      if !ok { return; }
      var hadOld := target in card.files;
      if hadOld {
        ok := card.Rename(target, backup);
        cut := |card.seen|;
        if !ok { return; }
      }
      ok := card.Rename(temp, target);
      if !ok {
        if hadOld {
          var _ := card.Rename(backup, target);
        }
        cut := |card.seen|;
        return;
      }
      ownsTemp := false;
      if hadOld { var _ := card.Remove(backup); }
    }

    /** Also what leaving the writer's scope does. */
    method Abort()
      requires Valid()
      modifies this, card
      ensures Valid() && old(card.seen) <= card.seen && EqualBut(card.files, old(card.files), {temp})
      ensures if old(ownsTemp) then card.clock == old(card.clock) + 1 && (temp in card.files <==> card.fails(old(card.clock)))
              else card.files == old(card.files) && card.clock == old(card.clock)
      ensures forall i :: |old(card.seen)| <= i < |card.seen| ==> EqualBut(card.seen[i], old(card.files), {temp})
    {
      isOpen := false;
      if ownsTemp {
        var _ := card.Remove(temp);
        ownsTemp := false;
      }
    }

    /** Write the target whole, or leave everything but the three names as it was. When the write fails and taking
        the staging file away fails too, it stays. */
    method WriteWhole(text: string) returns (ok: bool)
      requires Valid() && !isOpen && !ownsTemp
      modifies this, card
      ensures Valid() && old(card.seen) <= card.seen && EqualBut(card.files, old(card.files), {target, temp, backup})
      ensures ok ==> target in card.files && card.files[target] == text
      ensures ok <==> temp !in old(card.files) && backup !in old(card.files) &&
                      card.Quiet(old(card.clock), old(card.clock) + if target in old(card.files) then 5 else 4)
      ensures ok && target !in old(card.files) ==>
          card.clock == old(card.clock) + 4 && temp !in card.files && backup !in card.files
      ensures temp in old(card.files) || backup in old(card.files) ==> card.files == old(card.files)
      ensures card.clock >= old(card.clock)
      ensures !ok && temp !in old(card.files) && backup !in old(card.files) && !card.fails(old(card.clock)) ==>
          card.clock > old(card.clock) + 1 && (temp in card.files <==> card.fails(card.clock - 1))
      ensures forall i :: |old(card.seen)| <= i < |card.seen| ==>
          EqualBut(card.seen[i], old(card.files), {target, temp, backup})
    {
      hide EqualBut, Swapped, Renamed;
      ghost var f, names := card.files, {target, temp, backup};
      ok := Open();
      ghost var n1 := |card.seen|;
      AllMore(card.seen, |old(card.seen)|, f, {temp}, names);
      assert EqualBut(card.files, f, names) by { OneChanged(f, temp, "", names); SameFiles(f, names); }
      if !ok { return; }
      ghost var g := card.files;
      ok := Write(text);
      ghost var n2 := |card.seen|;
      EqualButMore(card.files, g, {temp}, names);
      AllMore(card.seen, n1, g, {temp}, names);
      AllTrans(card.seen, n1, g, f, names);
      EqualButTrans(card.files, g, f, names);
      EqualButGet(card.files, g, {temp}, backup);
      EqualButGet(card.files, g, {temp}, target);
      if ok {
        ghost var h := card.files;
        ghost var cut;
        ok, cut := Commit();
        forall s | BeforeSwap(h, s, target, backup) ||
          AfterSwap(h, s, target, temp, backup) ensures EqualBut(s, h, names) {
          SwapTouches(h, s, target, temp, backup);
        }
        AllTrans(card.seen, n2, h, f, names);
        EqualButTrans(card.files, h, f, names);
        if ok { SwapGives(h, card.files, target, temp, backup); }
        if ok && target !in h { SwapCleans(h, card.files, target, temp, backup); }
      }
      if !ok {
        ghost var h, n3 := card.files, |card.seen|;
        Abort();
        EqualButMore(card.files, h, {temp}, names);
        AllMore(card.seen, n3, h, {temp}, names);
        AllTrans(card.seen, n3, h, f, names);
        EqualButTrans(card.files, h, f, names);
      }
    }
  }

  lemma {:induction false} OneChanged(f: Files, n: Name, text: string, names: set<Name>)
    requires n in names
    ensures EqualBut(f[n := text], f, names)
  {
    EqualButBy(f[n := text], f, names);
  }

  lemma {:induction false} SameFiles(f: Files, names: set<Name>)
    ensures EqualBut(f, f, names)
  {}

  lemma {:induction false} AllMore(seen: seq<Files>, from: nat, f: Files, names: set<Name>, more: set<Name>)
    requires names <= more && from <= |seen|
    requires forall i :: from <= i < |seen| ==> EqualBut(seen[i], f, names)
    ensures forall i :: from <= i < |seen| ==> EqualBut(seen[i], f, more)
  {
    hide EqualBut;
    forall i | from <= i < |seen| ensures EqualBut(seen[i], f, more) { EqualButMore(seen[i], f, names, more); }
  }

  lemma {:induction false} AllTrans(seen: seq<Files>, from: nat, g: Files, f: Files, names: set<Name>)
    requires from <= |seen| && EqualBut(g, f, names)
    requires forall i :: from <= i < |seen| ==> EqualBut(seen[i], g, names)
    ensures forall i :: from <= i < |seen| ==> EqualBut(seen[i], f, names)
  {
    hide EqualBut;
    forall i | from <= i < |seen| ensures EqualBut(seen[i], f, names) { EqualButTrans(seen[i], g, f, names); }
  }

  lemma {:induction false} SwapGives(f: Files, s: Files, target: Name, temp: Name, backup: Name)
    requires temp in f && temp != target && temp != backup && backup != target && AfterSwap(f, s, target, temp, backup)
    ensures target in s && s[target] == f[temp]
  {
    var m := if target in f then Renamed(f, target, backup) else f;
    assert temp in m && m[temp] == f[temp];
    var w := Renamed(m, temp, target);
    assert target in w && w[target] == m[temp];
    assert target in w - {backup} && (w - {backup})[target] == w[target];
  }

  lemma {:induction false} SwapCleans(f: Files, s: Files, target: Name, temp: Name, backup: Name)
    requires temp in f && temp != target && temp != backup && backup != target && AfterSwap(f, s, target, temp, backup)
    requires target !in f && backup !in f
    ensures temp !in s && backup !in s
  {}

  // ---------- the store ----------

  datatype Change = Change(doc: Document, text: string, filename: string, dirty: bool, mode: Mode)

  /** The text reads back as the document, and the metadata as itself. */
  ghost predicate Faithful(r: Reader, c: Change) {
    r.document(c.text, c.mode) == Some(c.doc) &&
    forall k: nat :: var m := Meta(k, c.filename, c.dirty, c.mode); r.session(r.format(m)) == Some(m)
  }

  function Changed(c: Change, k: nat): Program { Program(c.doc, Meta(k, c.filename, c.dirty, c.mode)) }

  predicate Legible(r: Reader, m: Meta) { r.session(r.format(m)) == Some(m) }

  lemma {:induction false} Reads(r: Reader, c: Change, k: nat)
    requires Faithful(r, c)
    ensures Legible(r, Changed(c, k).meta) && r.document(c.text, c.mode) == Some(c.doc)
  {}

  /** Each card state from `from` on stands for `p` before `cut` and for `q` from there. */
  ghost predicate Switches(r: Reader, seen: seq<Files>, from: nat, cut: nat, p: Program, q: Program) {
    from <= cut <= |seen| && (forall i :: from <= i < cut ==> Sound(r, seen[i], p)) &&
        (forall i :: cut <= i < |seen| ==> Sound(r, seen[i], q))
  }

  lemma {:induction false} NothingSwitched(r: Reader, seen: seq<Files>, p: Program, q: Program)
    ensures Switches(r, seen, |seen|, |seen|, p, q)
  {}

  lemma {:induction false} KeptSwitches(r: Reader, seen: seq<Files>, from: nat, p: Program, q: Program)
    requires from <= |seen| && forall i :: from <= i < |seen| ==> Sound(r, seen[i], p)
    ensures Switches(r, seen, from, |seen|, p, q)
  {}

  lemma {:induction false} SwitchesLater(r: Reader, seen: seq<Files>, from: nat, later: nat, cut: nat, p: Program, q: Program)
    requires from <= later <= |seen| && Switches(r, seen, later, cut, p, q)
    requires forall i :: from <= i < later ==> Sound(r, seen[i], p)
    ensures Switches(r, seen, from, cut, p, q)
  {}

  lemma {:induction false} SwitchesAdopts(r: Reader, seen: seq<Files>, from: nat, cut: nat, p: Program, q: Program)
    requires Switches(r, seen, from, cut, p, q)
    ensures from <= cut <= |seen| && forall i :: from <= i < cut ==> Adopted(r, seen[i]) == Some(p)
    ensures forall i :: cut <= i < |seen| ==> Adopted(r, seen[i]) == Some(q)
  {
    hide Sound, Adopted;
    forall i | from <= i < |seen|
      ensures Adopted(r, seen[i]) == Some(if i < cut then p else q)
    {
      SoundAdopts(r, seen[i], if i < cut then p else q);
    }
  }

  /** Writing the session leaves the names of the other files as they are. */
  lemma {:induction false} SameNames(s: Files, f: Files, current: nat)
    requires EqualBut(s, f, {Session, SessionTemp, SessionBackup})
    ensures FirstFree(s, current, 0) == FirstFree(f, current, 0) && (StagingFree(s) <==> StagingFree(f))
  {
    hide EqualBut;
    var names := {Session, SessionTemp, SessionBackup};
    EqualButGet(s, f, names, EditTemp);
    EqualButGet(s, f, names, EditBackup);
    forall k: nat
      ensures Work(k) in s <==> Work(k) in f
    {
      EqualButGet(s, f, names, Work(k));
    }
    SameFree(s, f, current, 0);
  }

  lemma {:induction false} SameFree(s: Files, f: Files, current: nat, k: nat)
    requires forall j: nat :: Work(j) in s <==> Work(j) in f
    ensures FirstFree(s, current, k) == FirstFree(f, current, k)
    decreases WORK_NAMES - k
  {
    if k < WORK_NAMES { SameFree(s, f, current, k + 1); }
  }

  /** An edit whose text and metadata read back. */
  ghost predicate Sensible(r: Reader, a: Act) {
    a.Edits? ==> Faithful(r, a.change) && AlwaysLegible(r, a.change.filename, a.change.mode)
  }

  /** `log` is the programs that the acts numbered `done`, one after the other, make of the first. */
  ghost predicate Follows(p: Program, log: seq<Program>, acts: seq<Act>, done: seq<nat>) {
    |log| == |done| + 1 && log[0] == p && (forall i :: 0 <= i < |done| ==> done[i] < |acts|) &&
    (forall i, j :: 0 <= i < j < |done| ==> done[i] < done[j]) &&
    forall i :: 0 <= i < |done| ==> ContentOf(log[i + 1]) == Played(ContentOf(log[i]), acts[done[i]])
  }

  predicate DoneBefore(done: seq<nat>, e: nat) { forall i :: 0 <= i < |done| ==> done[i] < e }

  /** Each card state from `start` on adopts an entry of the log, and none an earlier one than the state before. */
  ghost predicate Logged(r: Reader, seen: seq<Files>, start: nat, log: seq<Program>, at: seq<nat>) {
    start + |at| == |seen| && (forall i, j :: 0 <= i < j < |at| ==> at[i] <= at[j]) &&
    forall i :: 0 <= i < |at| ==> at[i] < |log| && Adopted(r, seen[start + i]) == Some(log[at[i]])
  }

  ghost function AtGoesOn(at: seq<nat>, from: nat, to: nat, cut: nat, last: int): seq<nat>
    requires from <= to && last >= 0
  {
    at + seq(to - from, i => if from + i < cut then last as nat else (last + 1) as nat)
  }

  lemma {:induction false} LogBegins(r: Reader, seen: seq<Files>, p: Program, acts: seq<Act>)
    ensures Follows(p, [p], acts, []) && Logged(r, seen, |seen|, [p], [])
  {}

  lemma {:induction false} MakesSense(r: Reader, a: Act, p: Program)
    requires Sensible(r, a) && AlwaysLegible(r, p.meta.filename, p.meta.mode)
    ensures a.Edits? ==> Faithful(r, a.change)
    ensures a.Flags? ==> Legible(r, p.meta.(dirty := a.dirty))
  {
    if a.Flags? { assert Legible(r, Meta(p.meta.work, p.meta.filename, a.dirty, p.meta.mode)); }
  }

  lemma {:induction false} StaysLegible(r: Reader, p: Program, a: Act, q: Program)
    requires Sensible(r, a) && AlwaysLegible(r, p.meta.filename, p.meta.mode)
    requires ContentOf(q) == Played(ContentOf(p), a)
    ensures AlwaysLegible(r, q.meta.filename, q.meta.mode)
  {
    hide AlwaysLegible, Faithful;
  }

  lemma {:induction false} DoneGoesOn(p: Program, log: seq<Program>, acts: seq<Act>, done: seq<nat>, e: nat)
    requires |log| > 1 && Follows(p, log[..|log| - 1], acts, done) && DoneBefore(done, e) && e < |acts|
    requires ContentOf(log[|log| - 1]) == Played(ContentOf(log[|log| - 2]), acts[e])
    ensures Follows(p, log, acts, done + [e]) && DoneBefore(done + [e], e + 1)
  {
    hide Played, ContentOf;
    var log0, more := log[..|log| - 1], done + [e];
    forall i | 0 <= i < |more|
      ensures ContentOf(log[i + 1]) == Played(ContentOf(log[i]), acts[more[i]])
    {
      if i < |done| { assert log0[i + 1] == log[i + 1] && log0[i] == log[i]; }
    }
  }

  lemma {:induction false} LogGoesOn(
      r: Reader, seen: seq<Files>, seen': seq<Files>, start: nat, log: seq<Program>, at: seq<nat>, cut: nat,
      p: Program, q: Program, changed: bool)
    requires Logged(r, seen, start, log, at) && |log| > 0 && log[|log| - 1] == p && seen <= seen' &&
             |seen| <= cut <= |seen'|
    requires forall i :: |seen| <= i < cut ==> Adopted(r, seen'[i]) == Some(p)
    requires forall i :: cut <= i < |seen'| ==> Adopted(r, seen'[i]) == Some(q)
    requires !changed ==> cut == |seen'|
    ensures var log' := if changed then log + [q] else log;
            Logged(r, seen', start, log', AtGoesOn(at, |seen|, |seen'|, cut, |log| - 1))
  {
    hide Adopted;
    var at' := AtGoesOn(at, |seen|, |seen'|, cut, |log| - 1);
    var log' := if changed then log + [q] else log;
    forall i | 0 <= i < |at'|
      ensures at'[i] < |log'| && Adopted(r, seen'[start + i]) == Some(log'[at'[i]])
    {
      if i < |at| { assert seen'[start + i] == seen[start + i]; }
    }
  }

  /** How many staging files of the session have to be removed before it can be written again. */
  function Stale(f: Files): nat { (if SessionTemp in f then 1 else 0) + (if SessionBackup in f then 1 else 0) }

  /** A session of this text can take the place of the installed one. */
  predicate Writable(r: Reader, f: Files, m: Meta) { |r.format(m)| < SESSION_CAPACITY && Session in f }

  /** No staging file of an earlier snapshot is in the way. */
  predicate StagingFree(f: Files) { EditTemp !in f && EditBackup !in f }

  /** The work files numbered `k` and up, and the free names for putting them away. */
  function WorksFrom(f: Files, k: nat): nat
    decreases WORK_NAMES - k
  {
    if k >= WORK_NAMES then 0 else (if Work(k) in f then 1 else 0) + WorksFrom(f, k + 1)
  }

  function RoomsFrom(f: Files, k: nat): nat
    decreases WORK_NAMES - k
  {
    if k >= WORK_NAMES then 0 else (if Rescued(k) in f then 0 else 1) + RoomsFrom(f, k + 1)
  }

  // ---------- a sitting ----------

  datatype Act = Edits(change: Change) | Flags(dirty: bool) | Restarts

  /** What a program is to its user: all but the name of its work file. */
  datatype Content = Content(doc: Document, filename: string, dirty: bool, mode: Mode)

  function ContentOf(p: Program): Content { Content(p.doc, p.meta.filename, p.meta.dirty, p.meta.mode) }

  function Played(c: Content, a: Act): Content {
    match a
    case Edits(e) => Content(e.doc, e.filename, e.dirty, e.mode)
    case Flags(dirty) => c.(dirty := dirty)
    case Restarts => c
  }

  function PlayedAll(c: Content, acts: seq<Act>): Content {
    if acts == [] then c else Played(PlayedAll(c, acts[..|acts| - 1]), acts[|acts| - 1])
  }

  /** The session metadata under this name fits its file, whichever work file and flag it has. */
  ghost predicate Short(r: Reader, filename: string, mode: Mode) {
    forall k: nat, dirty: bool :: |r.format(Meta(k, filename, dirty, mode))| < SESSION_CAPACITY
  }

  /** ... and reads back. */
  ghost predicate AlwaysLegible(r: Reader, filename: string, mode: Mode) {
    forall k: nat, dirty: bool :: Legible(r, Meta(k, filename, dirty, mode))
  }

  ghost predicate Roomy(r: Reader, a: Act) {
    a.Edits? ==> r.check(a.change.text, a.change.mode, a.change.doc) && Short(r, a.change.filename, a.change.mode)
  }

  function Flagged(p: Program, dirty: bool): Program { p.(meta := p.meta.(dirty := dirty)) }

  /** The backup of a session can be renamed to its name by the second of two operations, of which the first is
      to remove the session that does not stand. */
  predicate Replaceable(f: Files, first: bool, second: bool, overwrites: bool) {
    second && (overwrites || Session !in f || first)
  }

  /** The first work name that is neither taken nor the current one; -1 if there is none from `k` on. */
  function FirstFree(f: Files, current: nat, k: nat): int
    decreases WORK_NAMES - k
  {
    if k >= WORK_NAMES then -1
    else if k != current && Work(k) !in f then k
    else FirstFree(f, current, k + 1)
  }

  /** Only the current work file is left. */
  predicate Tidy(f: Files, current: nat) { forall k :: 0 <= k < WORK_NAMES && k != current ==> Work(k) !in f }

  lemma {:induction false} TidyLeavesNames(f: Files, current: nat)
    requires Tidy(f, current)
    ensures FirstFree(f, current, 0) >= 0
  {
    assert Work(0) !in f || Work(1) !in f;
  }

  class Store {
    const card: Card
    var program: Program

    constructor (card: Card)
      ensures this.card == card && program == Program([], Meta(0, "", false, ClassicNumbered))
    {
      this.card := card;
      program := Program([], Meta(0, "", false, ClassicNumbered));
    }

    ghost predicate Valid()
      reads this, card
    {
      Sound(card.reader, card.files, program)
    }

    /** Every card state so far unread by the next boot: still the current program. */
    ghost predicate Kept(from: nat)
      reads this, card
    {
      from <= |card.seen| && forall i :: from <= i < |card.seen| ==> Sound(card.reader, card.seen[i], program)
    }

    /** Nothing will fail any more, and nothing is in the way of the next edit. */
    ghost predicate Ready()
      reads this, card
    {
      (forall t :: card.clock <= t ==> !card.fails(t)) && StagingFree(card.files) && Session in card.files &&
      FirstFree(card.files, program.meta.work, 0) >= 0 && Short(card.reader, program.meta.filename, program.meta.mode)
    }

    /** Staging files of a session that is installed are stale. */
    method ClearStale()
      requires Valid()
      modifies card
      ensures Valid() && old(card.seen) <= card.seen && Kept(|old(card.seen)|)
      ensures EqualBut(card.files, old(card.files), {SessionTemp, SessionBackup})
      ensures Session in old(card.files) ==> card.clock == old(card.clock) + Stale(old(card.files)) &&
                                             (SessionTemp !in card.files && SessionBackup !in card.files <==>
                                              card.Quiet(old(card.clock), card.clock))
      ensures Session !in old(card.files) ==> card.files == old(card.files) && card.clock == old(card.clock)
    {
      if Session in card.files && card.reader.session(card.files[Session]).Some? {
        ghost var f := card.files;
        assert Candidate(card.reader, f, Session) == Some(program);
        if SessionTemp in card.files {
          var _ := card.Remove(SessionTemp);
          StillCandidate(card.reader, f, card.files, program, {SessionTemp, SessionBackup});
        }
        if SessionBackup in card.files {
          var _ := card.Remove(SessionBackup);
          StillCandidate(card.reader, f, card.files, program, {SessionTemp, SessionBackup});
        }
      }
    }

    /** The new session, written beside the installed one. */
    method Stage(text: string) returns (ok: bool, writer: Writer)
      requires Valid()
      modifies card
      ensures Valid() && old(card.seen) <= card.seen && Kept(|old(card.seen)|) && fresh(writer)
      ensures EqualBut(card.files, old(card.files), {SessionTemp})
      ensures ok <==> SessionTemp !in old(card.files) && SessionBackup !in old(card.files) &&
                      card.Quiet(old(card.clock), old(card.clock) + 2)
      ensures card.clock >= old(card.clock) && (ok ==> card.clock == old(card.clock) + 2)
      ensures ok ==> writer.card == card && writer.target == Session && writer.temp == SessionTemp && writer.backup == SessionBackup &&
                     writer.Valid() && writer.isOpen && SessionBackup !in card.files &&
                         card.files[SessionTemp] == text &&
                     Candidate(card.reader, card.files, Session) == Some(program)
    {
      hide Candidate, Sound, EqualBut;
      writer := new Writer(card, Session, SessionTemp, SessionBackup);
      ghost var f, from := card.files, |card.seen|;
      ok := writer.Open();
      ghost var g, n := card.files, |card.seen|;
      SameFiles(f, {SessionTemp});
      if ok {
        OneChanged(f, SessionTemp, "", {SessionTemp});
        ok := writer.Write(text);
        ghost var m := |card.seen|;
        AllTrans(card.seen, n, g, f, {SessionTemp});
        EqualButTrans(card.files, g, f, {SessionTemp});
        if ok {
          EqualButGet(card.files, f, {SessionTemp}, SessionBackup);
        } else {
          ghost var h := card.files;
          writer.Abort();
          EqualButTrans(card.files, h, f, {SessionTemp});
          AllTrans(card.seen, m, h, f, {SessionTemp});
        }
      }
      Unread(card.reader, f, card.files, program, {SessionTemp});
      KeptWhile(card.reader, f, card.seen, from, program);
      if ok { StandsWithoutBackup(card.reader, card.files, program); }
    }

    /** The staged session takes the place of the installed one. */
    method Install(writer: Writer, q: Program) returns (ok: bool, ghost cut: nat)
      requires Valid() && Candidate(card.reader, card.files, Session) == Some(program) && SessionBackup !in card.files
      requires writer.card == card && writer.target == Session && writer.temp == SessionTemp &&
          writer.backup == SessionBackup
      requires writer.Valid() && writer.isOpen && card.reader.session(card.files[SessionTemp]) == Some(q.meta)
      requires Work(q.meta.work) in card.files &&
          card.reader.document(card.files[Work(q.meta.work)], q.meta.mode) == Some(q.doc)
      modifies card, writer
      ensures old(card.seen) <= card.seen && Switches(card.reader, card.seen, |old(card.seen)|, cut, program, q)
      ensures ok == (cut < |card.seen|) && Sound(card.reader, card.files, if ok then q else program)
      ensures EqualBut(card.files, old(card.files), {Session, SessionTemp, SessionBackup})
      ensures ok <==> card.Quiet(old(card.clock), old(card.clock) + 3)
      ensures card.clock >= old(card.clock) && (ok ==> Session in card.files)
    {
      hide Candidate;
      ghost var f := card.files;
      assert Session in f by { StandsIsSound(card.reader, f, program); }
      ok, cut := writer.Commit();
      forall s ensures BeforeSwap(f, s, Session, SessionBackup) ==> Sound(card.reader, s, program)
               ensures AfterSwap(f, s, Session, SessionTemp, SessionBackup) ==>
                   Candidate(card.reader, s, Session) == Some(q) {
        SwitchIsAtomic(card.reader, f, s, program, q);
      }
      if ok { StandsIsSound(card.reader, card.files, q); }
      SwapTouches(f, card.files, Session, SessionTemp, SessionBackup);
      if !ok {
        ghost var g, from := card.files, |card.seen|;
        writer.Abort();
        Unread(card.reader, g, card.files, program, {SessionTemp});
        KeptWhile(card.reader, g, card.seen, from, program);
        EqualButMore(card.files, g, {SessionTemp}, {Session, SessionTemp, SessionBackup});
        cut := |card.seen|;
      }
    }

    /** The atomic switch to the work file and metadata of `q`. */
    method WriteSession(q: Program) returns (ok: bool, ghost cut: nat)
      requires Valid() && Work(q.meta.work) in card.files &&
          card.reader.session(card.reader.format(q.meta)) == Some(q.meta)
      requires card.reader.document(card.files[Work(q.meta.work)], q.meta.mode) == Some(q.doc)
      modifies card
      ensures old(card.seen) <= card.seen && Switches(card.reader, card.seen, |old(card.seen)|, cut, program, q)
      ensures ok == (cut < |card.seen|) && Sound(card.reader, card.files, if ok then q else program)
      ensures EqualBut(card.files, old(card.files), {Session, SessionTemp, SessionBackup})
      ensures ok <==> Writable(card.reader, old(card.files), q.meta) &&
                      card.Quiet(old(card.clock), old(card.clock) + Stale(old(card.files)) + 5)
      ensures card.clock >= old(card.clock) && (ok ==> Session in card.files)
    {
      hide Candidate, Sound;
      cut := |card.seen|;
      var text := card.reader.format(q.meta);
      if |text| >= SESSION_CAPACITY { return false, cut; }
      ghost var f := card.files;
      assert Session in f || SessionBackup in f by { SomeSession(card.reader, f, program); }
      ClearStale();
      ghost var g := card.files;
      var writer;
      ok, writer := Stage(text);
      ghost var h := card.files;
      EqualButMore(g, f, {SessionTemp, SessionBackup}, {Session, SessionTemp, SessionBackup});
      EqualButMore(h, g, {SessionTemp}, {Session, SessionTemp, SessionBackup});
      EqualButTrans(h, g, f, {Session, SessionTemp, SessionBackup});
      EqualButGet(h, f, {Session, SessionTemp, SessionBackup}, Work(q.meta.work));
      cut := |card.seen|;
      if ok {
        ok, cut := Install(writer, q);
        EqualButTrans(card.files, h, f, {Session, SessionTemp, SessionBackup});
      }
    }

    /** A name for the next work file; the card may be full of them. */
    method NewWorkName() returns (k: int)
      requires Valid()
      ensures k == FirstFree(card.files, program.meta.work, 0)
      ensures k >= 0 ==> Work(k) !in card.files && k != program.meta.work
      ensures -1 <= k < WORK_NAMES
    {
      k := 0;
      while k < WORK_NAMES
        invariant 0 <= k <= WORK_NAMES
        invariant FirstFree(card.files, program.meta.work, k) == FirstFree(card.files, program.meta.work, 0)
      {
        if k != program.meta.work && Work(k) !in card.files { return; }
        k := k + 1;
      }
      k := -1;
    }

    /** The whole changed program, written to a new work file and read back. */
    method Snapshot(c: Change, k: nat) returns (ok: bool)
      requires Valid() && Work(k) !in card.files
      modifies card
      ensures Valid() && old(card.seen) <= card.seen && Kept(|old(card.seen)|)
      ensures EqualBut(card.files, old(card.files), {Work(k), EditTemp, EditBackup})
      ensures ok ==> Work(k) in card.files && card.files[Work(k)] == c.text && StagingFree(card.files)
      ensures ok <==> StagingFree(old(card.files)) && card.reader.check(c.text, c.mode, c.doc) &&
                      card.Quiet(old(card.clock), old(card.clock) + 4)
      ensures card.clock >= old(card.clock) && (ok ==> card.clock == old(card.clock) + 4)
      ensures !StagingFree(old(card.files)) ==> card.files == old(card.files)
      ensures StagingFree(old(card.files)) && !card.fails(old(card.clock)) &&
              !card.Quiet(old(card.clock), old(card.clock) + 4) ==>
                card.clock > old(card.clock) + 1 && (EditTemp in card.files <==> card.fails(card.clock - 1))
    {
      hide Sound, EqualBut;
      ghost var f, from, names := card.files, |card.seen|, {Work(k), EditTemp, EditBackup};
      SoundAdopts(card.reader, f, program);
      var writer := new Writer(card, Work(k), EditTemp, EditBackup);
      ok := writer.WriteWhole(c.text);
      if ok && !card.reader.check(c.text, c.mode, c.doc) {
        ghost var g, n := card.files, |card.seen|;
        var _ := card.Remove(Work(k));
        RemovedOnly(g, Work(k), names);
        EqualButTrans(card.files, g, f, names);
        ok := false;
      }
      AllKept(card.reader, f, card.seen, from, program, names);
      Unread(card.reader, f, card.files, program, names);
    }

    /** Work files other than the program's own are left over. */
    method CleanUp()
      requires Valid()
      modifies card
      ensures Valid() && old(card.seen) <= card.seen && Kept(|old(card.seen)|)
      ensures SameButWork(card.files, old(card.files)) && card.clock >= old(card.clock)
      ensures card.Quiet(old(card.clock), card.clock) ==> Tidy(card.files, program.meta.work)
    {
      hide Sound;
      ghost var from := |card.seen|;
      for k := 0 to WORK_NAMES
        invariant Valid() && old(card.seen) <= card.seen && Kept(from)
        invariant SameButWork(card.files, old(card.files)) && card.clock >= old(card.clock)
        invariant card.Quiet(old(card.clock), card.clock) ==>
                    forall j :: 0 <= j < k && j != program.meta.work ==> Work(j) !in card.files
      {
        if k != program.meta.work && Work(k) in card.files { Discard(k); }
      }
    }

    /** Remove a work file that is not the program's. */
    method Discard(k: nat)
      requires Valid() && k != program.meta.work
      modifies card
      ensures Valid() && card.seen == old(card.seen) + [card.files] && EqualBut(card.files, old(card.files), {Work(k)})
      ensures SameButWork(card.files, old(card.files)) && card.clock == old(card.clock) + 1
      ensures card.files == old(card.files) || card.files == old(card.files) - {Work(k)}
      ensures !card.fails(old(card.clock)) ==> Work(k) !in card.files
    {
      ghost var f := card.files;
      var _ := card.Remove(Work(k));
      RemovedOnly(f, Work(k), {Work(k)});
      Unread(card.reader, f, card.files, program, {Work(k)});
    }

    /** Switch to the new work file; then forget the old one. */
    method Publish(q: Program) returns (ok: bool, ghost cut: nat)
      requires Valid() && Work(q.meta.work) in card.files &&
          card.reader.session(card.reader.format(q.meta)) == Some(q.meta)
      requires card.reader.document(card.files[Work(q.meta.work)], q.meta.mode) == Some(q.doc) &&
          q.meta.work != program.meta.work
      modifies this, card
      ensures Valid() && program == (if ok then q else old(program)) && old(card.seen) <= card.seen &&
          ok == (cut < |card.seen|)
      ensures Switches(card.reader, card.seen, |old(card.seen)|, cut, old(program), q)
      ensures ok <==> Writable(card.reader, old(card.files), q.meta) &&
                      card.Quiet(old(card.clock), old(card.clock) + Stale(old(card.files)) + 5)
      ensures card.clock >= old(card.clock) && (ok ==> Session in card.files)
      ensures ok && card.Quiet(old(card.clock), card.clock) ==> Tidy(card.files, q.meta.work)
      ensures StagingFree(old(card.files)) ==> StagingFree(card.files)
    {
      hide Sound;
      ghost var f := card.files;
      ok, cut := WriteSession(q);
      EqualButGet(card.files, f, {Session, SessionTemp, SessionBackup}, EditTemp);
      EqualButGet(card.files, f, {Session, SessionTemp, SessionBackup}, EditBackup);
      if ok {
        var old_ := program.meta.work;
        program := q;
        Discard(old_);
        CleanUp();
      } else {
        Discard(q.meta.work);
        cut := |card.seen|;
      }
    }

    /** One edit: a new work file, verified, then the switch. Power may go at any point: the next boot
        finds the program before the edit or after it, and after it once the session is switched. */
    method Edit(c: Change) returns (ok: bool, ghost cut: nat, ghost q: Program)
      requires Valid() && Faithful(card.reader, c)
      modifies this, card
      ensures Valid() && program == (if ok then q else old(program)) && old(card.seen) <= card.seen &&
          ok == (cut < |card.seen|)
      ensures var k := FirstFree(old(card.files), old(program).meta.work, 0);
              q == Changed(c, if k < 0 then 0 else k) &&
              (ok <==> k >= 0 && StagingFree(old(card.files)) && card.reader.check(c.text, c.mode, c.doc) &&
                       Writable(card.reader, old(card.files), q.meta) &&
                       card.Quiet(old(card.clock), old(card.clock) + Stale(old(card.files)) + 9))
      ensures Switches(card.reader, card.seen, |old(card.seen)|, cut, old(program), q)
      ensures card.clock >= old(card.clock) && (ok ==> Session in card.files && StagingFree(card.files))
      ensures ok && card.Quiet(old(card.clock), card.clock) ==> Tidy(card.files, program.meta.work)
      ensures !StagingFree(old(card.files)) ==> card.files == old(card.files)
      ensures StagingFree(old(card.files)) && FirstFree(old(card.files), old(program).meta.work, 0) >= 0 &&
              !card.fails(old(card.clock)) && !card.Quiet(old(card.clock), old(card.clock) + 4) ==>
                card.clock > old(card.clock) + 1 && (EditTemp in card.files <==> card.fails(card.clock - 1))
    {
      hide Sound, Faithful, EqualBut, FirstFree, Switches;
      cut, q := |card.seen|, Changed(c, 0);
      assert Switches(card.reader, card.seen, |old(card.seen)|, cut, program, q) by { NothingSwitched(card.reader, card.seen, program, q); }
      var k := NewWorkName();
      if k < 0 { return false, cut, q; }
      q := Changed(c, k);
      ghost var f := card.files;
      ok := Snapshot(c, k);
      cut := |card.seen|;
      EqualButGet(card.files, f, {Work(k), EditTemp, EditBackup}, Session);
      EqualButGet(card.files, f, {Work(k), EditTemp, EditBackup}, SessionTemp);
      EqualButGet(card.files, f, {Work(k), EditTemp, EditBackup}, SessionBackup);
      KeptSwitches(card.reader, card.seen, |old(card.seen)|, program, q);
      if !ok { return; }
      ghost var before, n := card.seen, |card.seen|;
      assert Legible(card.reader, q.meta) && card.reader.document(c.text, c.mode) == Some(c.doc) by { Reads(card.reader, c, k); }
      ok, cut := Publish(Changed(c, k));
      SwitchesLater(card.reader, card.seen, |old(card.seen)|, n, cut, old(program), q);
    }

    /** The saved flag is kept in the session too: the same work file under new metadata. */
    method SetDirty(dirty: bool) returns (ok: bool, ghost cut: nat)
      requires Valid() && Legible(card.reader, program.meta.(dirty := dirty))
      modifies this, card
      ensures Valid() && old(card.seen) <= card.seen && program == if ok then Flagged(old(program), dirty) else old(program)
      ensures Switches(card.reader, card.seen, |old(card.seen)|, cut, old(program), Flagged(old(program), dirty))
      ensures ok <==> old(program).meta.dirty == dirty ||
                      (Writable(card.reader, old(card.files), program.meta.(dirty := dirty)) &&
                       card.Quiet(old(card.clock), old(card.clock) + Stale(old(card.files)) + 5))
      ensures EqualBut(card.files, old(card.files), {Session, SessionTemp, SessionBackup})
      ensures card.clock >= old(card.clock) && (ok && Session in old(card.files) ==> Session in card.files)
      ensures old(program).meta.dirty == dirty || !ok || cut < |card.seen|
      ensures !ok ==> cut == |card.seen|
    {
      ok, cut := true, |card.seen|;
      SameFiles(card.files, {Session, SessionTemp, SessionBackup});
      if program.meta.dirty != dirty {
        var q := Flagged(program, dirty);
        SoundReads(card.reader, card.files, program);
        ok, cut := WriteSession(q);
        if ok { program := q; }
      }
    }

    /** Bring the session that stands back under its own name. */
    method Reinstall() returns (p: Option<Program>)
      modifies card
      ensures old(card.seen) <= card.seen
      ensures forall i :: |old(card.seen)| <= i < |card.seen| ==>
          Adopted(card.reader, card.seen[i]) == Adopted(card.reader, old(card.files))
      ensures Adopted(card.reader, card.files) == Adopted(card.reader, old(card.files))
      ensures p.Some? ==> p == Adopted(card.reader, old(card.files)) && Candidate(card.reader, card.files, Session) == p
      ensures EqualBut(card.files, old(card.files), {Session, SessionTemp, SessionBackup})
      ensures card.clock >= old(card.clock)
      ensures p.Some? <==> Candidate(card.reader, old(card.files), Session).Some? ||
                           (Candidate(card.reader, old(card.files), SessionBackup).Some? &&
                            Replaceable(old(card.files), !card.fails(old(card.clock)), !card.fails(old(card.clock) + 1), card.overwrites))
      ensures p.None? && Session !in old(card.files) && SessionBackup in old(card.files) &&
              Candidate(card.reader, old(card.files), SessionBackup).Some? ==>
                card.files == old(card.files)
    {
      hide Candidate, Sound;
      ghost var r, f := card.reader, card.files;
      p := Candidate(card.reader, card.files, Session);
      if p.Some? {
        var _ := card.Remove(SessionBackup);
        SessionStands(r, f, card.files, p.value, SessionBackup);
        ghost var g := card.files;
        var _ := card.Remove(SessionTemp);
        SessionStands(r, g, card.files, p.value, SessionTemp);
      } else {
        p := FromBackup();
      }
    }

    /** The same when the session itself does not stand. */
    method FromBackup() returns (p: Option<Program>)
      requires Candidate(card.reader, card.files, Session).None?
      modifies card
      ensures old(card.seen) <= card.seen
      ensures forall i :: |old(card.seen)| <= i < |card.seen| ==>
          Adopted(card.reader, card.seen[i]) == Adopted(card.reader, old(card.files))
      ensures Adopted(card.reader, card.files) == Adopted(card.reader, old(card.files))
      ensures p.Some? ==> p == Adopted(card.reader, old(card.files)) && Candidate(card.reader, card.files, Session) == p
      ensures EqualBut(card.files, old(card.files), {Session, SessionTemp, SessionBackup})
      ensures card.clock >= old(card.clock)
      ensures p.Some? <==> Candidate(card.reader, old(card.files), SessionBackup).Some? &&
                           Replaceable(old(card.files), !card.fails(old(card.clock)), !card.fails(old(card.clock) + 1), card.overwrites)
      ensures p.None? && Session !in old(card.files) && SessionBackup in old(card.files) &&
              Candidate(card.reader, old(card.files), SessionBackup).Some? ==>
                card.files == old(card.files)
    {
      hide Candidate, Sound;
      ghost var r, f := card.reader, card.files;
      p := Candidate(card.reader, card.files, SessionBackup);
      if p.Some? { BackupIsThere(r, f); }
      if p.None? {
        var _ := card.Remove(SessionTemp);
        StaysLost(r, f, card.files);
        ghost var g := card.files;
        var _ := card.Remove(SessionBackup);
        StaysLost(r, g, card.files);
        return;
      }
      var _ := card.Remove(Session);
      BackupStands(r, f, card.files, p.value);
      ghost var g := card.files;
      var ok := card.Rename(SessionBackup, Session);
      if !ok { return None; }
      BackupReturns(r, g, card.files, p.value);
      ghost var h := card.files;
      var _ := card.Remove(SessionTemp);
      SessionStands(r, h, card.files, p.value, SessionTemp);
    }

    /** What the next boot does first. It may itself be cut short: whatever it was going to take up, the
        boot after it will. A staging file of a snapshot that was cut short stays where it is. */
    method Recover() returns (ok: bool)
      modifies this, card
      ensures old(card.seen) <= card.seen
      ensures forall i :: |old(card.seen)| <= i < |card.seen| ==>
          Adopted(card.reader, card.seen[i]) == Adopted(card.reader, old(card.files))
      ensures Adopted(card.reader, card.files) == Adopted(card.reader, old(card.files))
      ensures ok <==> Candidate(card.reader, old(card.files), Session).Some? ||
                      (Candidate(card.reader, old(card.files), SessionBackup).Some? &&
                       Replaceable(old(card.files), !card.fails(old(card.clock)), !card.fails(old(card.clock) + 1), card.overwrites))
      ensures ok ==> Adopted(card.reader, old(card.files)) == Some(program) && Valid() && Session in card.files
      ensures old(Valid()) ==> Valid() && program == old(program)
      ensures EditTemp in card.files <==> EditTemp in old(card.files)
      ensures EditBackup in card.files <==> EditBackup in old(card.files)
      ensures card.clock >= old(card.clock) &&
              (ok && card.Quiet(old(card.clock), card.clock) ==> Tidy(card.files, program.meta.work))
    {
      hide Candidate, Sound, EqualBut, Adopted, Replaceable;
      ghost var r, f, was, stood := card.reader, card.files, program, Valid();
      if stood { SoundCases(r, f, program); }
      var p := Reinstall();
      EqualButGet(card.files, f, {Session, SessionTemp, SessionBackup}, EditTemp);
      EqualButGet(card.files, f, {Session, SessionTemp, SessionBackup}, EditBackup);
      if p.None? { return false; }
      program := p.value;
      StandsIsSound(r, card.files, program);
      ghost var n := |card.seen|;
      CleanUp();
      forall i | n <= i < |card.seen| ensures Adopted(r, card.seen[i]) == Some(program) { SoundAdopts(r,
        card.seen[i], program); }
      SoundAdopts(r, card.files, program);
      ok := true;
    }

    method FindRoom(first: nat, ghost f: Files) returns (serial: nat)
      requires first <= WORK_NAMES && RoomsAsIn(card.files, f, first)
      ensures first <= serial <= WORK_NAMES && RoomsFrom(f, first) == RoomsFrom(f, serial)
      ensures RoomsAsIn(card.files, f, serial) && (serial < WORK_NAMES ==> Rescued(serial) !in card.files)
    {
      hide RoomsAsIn, RoomsFrom;
      serial := first;
      while serial < WORK_NAMES && Rescued(serial) in card.files
        invariant first <= serial <= WORK_NAMES && RoomsFrom(f, first) == RoomsFrom(f, serial)
        invariant RoomsAsIn(card.files, f, serial)
      {
        RoomTaken(card.files, f, serial);
        serial := serial + 1;
      }
    }

    /** One work file renamed to the first free of the names from `first` on. */
    method PutAside(k: nat, first: nat, ghost f: Files) returns (ok: bool, serial: nat)
      requires Work(k) in card.files && k < WORK_NAMES && first <= WORK_NAMES
      requires PutAway(card.files, f, k) && RoomsAsIn(card.files, f, first)
      modifies card
      ensures ok <==> RoomsFrom(f, first) > 0 && !card.fails(old(card.clock))
      ensures TextsKept(old(card.files), card.files) && serial <= WORK_NAMES
      ensures card.seen == old(card.seen) + [card.files] || (card.seen == old(card.seen) && card.files == old(card.files))
      ensures ok ==> card.clock == old(card.clock) + 1 && RoomsFrom(f, first) == 1 + RoomsFrom(f, serial)
      ensures ok ==> PutAway(card.files, f, k + 1) && RoomsAsIn(card.files, f, serial)
    {
      hide TextsKept, PutAway, RoomsAsIn, RoomsFrom, Renamed;
      ghost var g := card.files;
      NoMoreRooms(f);
      NothingLost(g);
      serial := FindRoom(first, f);
      if serial == WORK_NAMES { return false, serial; }
      RoomTaken(card.files, f, serial);
      ok := card.Rename(Work(k), Rescued(serial));
      if ok {
        TextMoved(g, card.files, k, serial);
        OneMorePutAway(g, card.files, f, k, serial);
        serial := serial + 1;
      }
    }

    /** With no session to go by, work files are put away under names the user can load: all of them if there are
        names enough and no rename fails. */
    method PreserveUnverified() returns (ok: bool)
      modifies card
      ensures old(card.seen) <= card.seen && TextsKept(old(card.files), card.files)
      ensures AllTextsKept(old(card.files), card.seen, |old(card.seen)|)
      ensures ok ==> forall k :: 0 <= k < WORK_NAMES ==> Work(k) !in card.files
      ensures ok <==> WorksFrom(old(card.files), 0) <= RoomsFrom(old(card.files), 0) &&
                      card.Quiet(old(card.clock), old(card.clock) + WorksFrom(old(card.files), 0))
    {
      hide TextsKept, PutAway, RoomsAsIn, AllTextsKept, WorksFrom, RoomsFrom;
      ghost var f, from, start := card.files, |card.seen|, card.clock;
      NothingLost(f);
      NothingPutAway(f);
      NoMoreRooms(f);
      NoneSeen(f, card.seen);
      var serial := 0;
      for k := 0 to WORK_NAMES
        invariant old(card.seen) <= card.seen && TextsKept(f, card.files) && 0 <= serial <= WORK_NAMES
        invariant AllTextsKept(f, card.seen, from)
        invariant PutAway(card.files, f, k) && RoomsAsIn(card.files, f, serial)
        invariant start <= card.clock && card.Quiet(start, card.clock)
        invariant WorksFrom(f, 0) == card.clock - start + WorksFrom(f, k)
        invariant RoomsFrom(f, 0) == card.clock - start + RoomsFrom(f, serial)
      {
        StillThere(card.files, f, k);
        if Work(k) in card.files {
          ghost var g, seen := card.files, card.seen;
          ok, serial := PutAside(k, serial, f);
          KeptOn(f, g, card.files);
          OneMoreKept(f, seen, card.seen, from, card.files);
          if !ok { return; }
        }
      }
      NoneLeft(card.files, f);
      ok := true;
    }

    method DoEdit(change: Change) returns (ok: bool, ghost cut: nat)
      requires Valid() && Faithful(card.reader, change)
      modifies this, card
      ensures Valid() && old(card.seen) <= card.seen && |old(card.seen)| <= cut <= |card.seen|
      ensures forall i :: |old(card.seen)| <= i < cut ==> Adopted(card.reader, card.seen[i]) == Some(old(program))
      ensures forall i :: cut <= i < |card.seen| ==> Adopted(card.reader, card.seen[i]) == Some(program)
      ensures if ok then ContentOf(program) == Played(ContentOf(old(program)), Edits(change))
              else program == old(program) && cut == |card.seen|
      ensures old(Ready()) && Roomy(card.reader, Edits(change)) ==> ok && Ready()
    {
      hide Sound, Faithful, Adopted, FirstFree, Switches, Tidy;
      ghost var p, q, n := program, program, |card.seen|;
      ok, cut, q := Edit(change);
      SwitchesAdopts(card.reader, card.seen, n, cut, p, q);
      if ok && card.Quiet(old(card.clock), card.clock) { TidyLeavesNames(card.files, program.meta.work); }
    }

    method DoFlag(dirty: bool) returns (ghost changed: bool, ghost cut: nat)
      requires Valid() && Legible(card.reader, program.meta.(dirty := dirty))
      modifies this, card
      ensures Valid() && old(card.seen) <= card.seen && |old(card.seen)| <= cut <= |card.seen|
      ensures forall i :: |old(card.seen)| <= i < cut ==> Adopted(card.reader, card.seen[i]) == Some(old(program))
      ensures forall i :: cut <= i < |card.seen| ==> Adopted(card.reader, card.seen[i]) == Some(program)
      ensures if changed then ContentOf(program) == Played(ContentOf(old(program)), Flags(dirty))
              else program == old(program) && cut == |card.seen|
      ensures old(Ready()) ==> Ready() && ContentOf(program) == Played(ContentOf(old(program)), Flags(dirty))
    {
      hide Sound, Adopted, FirstFree, Switches, Tidy, EqualBut;
      ghost var p, q, n, f := program, Flagged(program, dirty), |card.seen|, card.files;
      var ok;
      ok, cut := SetDirty(dirty);
      SwitchesAdopts(card.reader, card.seen, n, cut, p, q);
      changed := program != p;
      if !changed { cut := |card.seen|; }
      SameNames(card.files, f, program.meta.work);
    }

    /** An edit, a change of the dirty flag, or a restart in the middle of the sitting. */
    method Do(a: Act) returns (ghost changed: bool, ghost cut: nat)
      requires Valid() && (a.Edits? ==> Faithful(card.reader, a.change))
      requires a.Flags? ==> Legible(card.reader, program.meta.(dirty := a.dirty))
      modifies this, card
      ensures Valid() && old(card.seen) <= card.seen && |old(card.seen)| <= cut <= |card.seen|
      ensures forall i :: |old(card.seen)| <= i < cut ==> Adopted(card.reader, card.seen[i]) == Some(old(program))
      ensures forall i :: cut <= i < |card.seen| ==> Adopted(card.reader, card.seen[i]) == Some(program)
      ensures if changed then ContentOf(program) == Played(ContentOf(old(program)), a)
              else program == old(program) && cut == |card.seen|
      ensures old(Ready()) && Roomy(card.reader, a) ==> Ready() && ContentOf(program) == Played(ContentOf(old(program)), a)
    {
      hide Sound, Faithful, Adopted, FirstFree, Switches, Tidy, Short;
      match a
      case Edits(change) =>
        changed, cut := DoEdit(change);
      case Flags(dirty) =>
        changed, cut := DoFlag(dirty);
      case Restarts =>
        SoundAdopts(card.reader, card.files, program);
        SoundCases(card.reader, card.files, program);
        var ok := Recover();
        changed, cut := false, |card.seen|;
        SoundAdopts(card.reader, card.files, program);
        if ok && card.Quiet(old(card.clock), card.clock) { TidyLeavesNames(card.files, program.meta.work); }
    }

    /** A whole sitting of edits, changes of the dirty flag and restarts: whichever card state the power goes at,
        the next boot takes up one of the programs the sitting went through, and never an earlier one than a cut
        before it would. Those programs are what the acts that succeeded make of each other, in their order; and
        if nothing fails and nothing is in the way, the program at the end is what all of them make. */
    method EditAll(acts: seq<Act>) returns (ghost log: seq<Program>, ghost done: seq<nat>, ghost at: seq<nat>)
      requires Valid() && AlwaysLegible(card.reader, program.meta.filename, program.meta.mode)
      requires forall e :: 0 <= e < |acts| ==> Sensible(card.reader, acts[e])
      modifies this, card
      ensures Valid() && Follows(old(program), log, acts, done) && log[|log| - 1] == program
      ensures old(card.seen) <= card.seen && Logged(card.reader, card.seen, |old(card.seen)|, log, at)
      ensures old(Ready()) && (forall e :: 0 <= e < |acts| ==> Roomy(card.reader, acts[e])) ==>
                Ready() && ContentOf(program) == PlayedAll(ContentOf(old(program)), acts)
    {
      hide Sound, Adopted, AlwaysLegible, Sensible, Roomy, Follows, Logged;
      log, done, at := [program], [], [];
      ghost var start, c, ready := |card.seen|, ContentOf(program), Ready();
      LogBegins(card.reader, card.seen, program, acts);
      for e := 0 to |acts|
        invariant Valid() && AlwaysLegible(card.reader, program.meta.filename, program.meta.mode)
        invariant Follows(old(program), log, acts, done) && |log| > 0 && log[|log| - 1] == program && DoneBefore(done, e)
        invariant old(card.seen) <= card.seen && Logged(card.reader, card.seen, start, log, at)
        invariant ready && (forall i :: 0 <= i < |acts| ==> Roomy(card.reader, acts[i])) ==>
                    Ready() && ContentOf(program) == PlayedAll(c, acts[..e])
      {
        assert acts[..e + 1][..e] == acts[..e];
        ghost var p, seen := program, card.seen;
        MakesSense(card.reader, acts[e], p);
        ghost var changed, cut;
        changed, cut := Do(acts[e]);
        LogGoesOn(card.reader, seen, card.seen, start, log, at, cut, p, program, changed);
        if changed {
          log := log + [program];
          StaysLegible(card.reader, p, acts[e], program);
          DoneGoesOn(old(program), log, acts, done, e);
          done := done + [e];
        }
        at := AtGoesOn(at, |seen|, |card.seen|, cut, |log| - 1 - if changed then 1 else 0);
      }
      assert acts[..|acts|] == acts;
    }
  }

  /** A snapshot whose power is cut after its first operation leaves its staging file; the next boot recovers the
      program from before, and from then on no edit is accepted, although the card is faultless. */
  method LeftoverBlocksEdits(r: Reader, files: Files, p: Program, c: Change, later: seq<Change>) returns (store: Store)
    requires Candidate(r, files, Session) == Some(p) && StagingFree(files) && FirstFree(files, p.meta.work, 0) >= 0
    requires Faithful(r, c) && forall i :: 0 <= i < |later| ==> Faithful(r, later[i])
    ensures store.Valid() && store.program == p && !StagingFree(store.card.files) && store.card.reader == r
    ensures forall t :: !store.card.fails(t)
  {
    hide Candidate, Sound, FirstFree, Faithful;
    var card := new Card(r, t => t > 0, t => "", true, files);
    var cut := new Store(card);
    StandsIsSound(r, files, p);
    cut.program := p;
    var ok, restarted := false, false;
    ghost var n, q;
    ok, n, q := cut.Edit(c);
    assert card.fails(1) && !card.fails(0);
    assert !ok && EditTemp in card.files;
    SoundCases(r, card.files, p);
    var again := new Card(r, t => false, t => "", true, card.files);
    store := new Store(again);
    ok := store.Recover();
    assert ok;
    for i := 0 to |later|
      invariant store.Valid() && store.program == p && EditTemp in again.files
    {
      ok, n, q := store.Edit(later[i]);
      assert !ok;
    }
  }

  // ---------- recovering ----------

  lemma {:induction false} SoundReads(r: Reader, f: Files, p: Program)
    requires Sound(r, f, p)
    ensures Work(p.meta.work) in f && r.document(f[Work(p.meta.work)], p.meta.mode) == Some(p.doc)
  {}

  lemma {:induction false} BackupIsThere(r: Reader, f: Files)
    requires Candidate(r, f, SessionBackup).Some?
    ensures SessionBackup in f
  {}

  /** What stands while editing is what is adopted, from the one place or the other. */
  lemma {:induction false} SoundCases(r: Reader, f: Files, p: Program)
    requires Sound(r, f, p)
    ensures Adopted(r, f) == Some(p)
    ensures Candidate(r, f, Session).Some? || (Session !in f && SessionBackup in f && Candidate(r, f, SessionBackup).Some?)
  {}

  lemma {:induction false} StaysLost(r: Reader, f: Files, s: Files)
    requires Adopted(r, f).None? && (s == f || s == f - {SessionTemp} || s == f - {SessionBackup})
    ensures Adopted(r, s).None?
  {}

  lemma {:induction false} BackupStands(r: Reader, f: Files, s: Files, p: Program)
    requires Candidate(r, f, Session).None? && Candidate(r, f, SessionBackup) == Some(p) && (s == f ||
        s == f - {Session})
    ensures Adopted(r, s) == Some(p) && Candidate(r, s, Session).None? && Candidate(r, s, SessionBackup) == Some(p)
  {}

  lemma {:induction false} BackupReturns(r: Reader, f: Files, s: Files, p: Program)
    requires Candidate(r, f, SessionBackup) == Some(p) && SessionBackup in f &&
        s == f[Session := f[SessionBackup]] - {SessionBackup}
    ensures Candidate(r, s, Session) == Some(p) && Adopted(r, s) == Some(p)
  {}

  lemma {:induction false} SessionStands(r: Reader, f: Files, s: Files, p: Program, n: Name)
    requires Candidate(r, f, Session) == Some(p) && n != Session && !n.Work? && (s == f || s == f - {n})
    ensures Candidate(r, s, Session) == Some(p) && Adopted(r, s) == Some(p)
  {}

  lemma {:induction false} SomeSession(r: Reader, f: Files, p: Program)
    requires Sound(r, f, p)
    ensures Session in f || SessionBackup in f
  {}

  lemma {:induction false} StandsWithoutBackup(r: Reader, f: Files, p: Program)
    requires Sound(r, f, p) && SessionBackup !in f
    ensures Candidate(r, f, Session) == Some(p)
  {}

  lemma {:induction false} StandsIsSound(r: Reader, f: Files, p: Program)
    requires Candidate(r, f, Session) == Some(p)
    ensures Sound(r, f, p) && Session in f
  {}

  predicate HoldsText(n: Name) { n.Work? || n.Rescued? }

  /** Every work text of `f` is still on the card, and what was put away stays as it was. */
  ghost predicate TextsKept(f: Files, s: Files) {
    (forall n :: n in f && HoldsText(n) ==> exists k :: k in s && HoldsText(k) && s[k] == f[n]) &&
    (forall k: nat :: Rescued(k) in f ==> Rescued(k) in s && s[Rescued(k)] == f[Rescued(k)])
  }

  ghost predicate AllTextsKept(f: Files, seen: seq<Files>, from: nat) {
    forall i :: from <= i < |seen| ==> TextsKept(f, seen[i])
  }

  lemma {:induction false} NoneSeen(f: Files, seen: seq<Files>)
    ensures AllTextsKept(f, seen, |seen|)
  {}

  lemma {:induction false} OneMoreKept(f: Files, was: seq<Files>, seen: seq<Files>, from: nat, s: Files)
    requires AllTextsKept(f, was, from) && TextsKept(f, s) && (seen == was || seen == was + [s])
    ensures AllTextsKept(f, seen, from)
  {
    hide TextsKept;
  }

  lemma {:induction false} NothingLost(f: Files)
    ensures TextsKept(f, f)
  {}

  /** The work files below `k` have been put away, the others are as they were. */
  ghost predicate PutAway(s: Files, f: Files, k: nat) {
    (forall j: nat :: j < k ==> Work(j) !in s) && (forall j: nat :: k <= j ==> (Work(j) in s <==> Work(j) in f))
  }

  ghost predicate RoomsAsIn(s: Files, f: Files, k: nat) {
    forall j: nat :: k <= j ==> (Rescued(j) in s <==> Rescued(j) in f)
  }

  lemma {:induction false} NothingPutAway(f: Files)
    ensures PutAway(f, f, 0) && RoomsAsIn(f, f, 0)
  {}

  lemma {:induction false} RoomTaken(s: Files, f: Files, k: nat)
    requires RoomsAsIn(s, f, k) && k < WORK_NAMES
    ensures RoomsAsIn(s, f, k + 1) && RoomsFrom(f, k) == (if Rescued(k) in s then 0 else 1) + RoomsFrom(f, k + 1)
  {}

  lemma {:induction false} NoMoreRooms(f: Files)
    ensures RoomsFrom(f, WORK_NAMES) == 0 && WorksFrom(f, WORK_NAMES) == 0
  {}

  lemma {:induction false} StillThere(s: Files, f: Files, k: nat)
    requires PutAway(s, f, k) && k < WORK_NAMES
    ensures WorksFrom(f, k) == (if Work(k) in s then 1 else 0) + WorksFrom(f, k + 1)
    ensures Work(k) !in s ==> PutAway(s, f, k + 1)
  {}

  lemma {:induction false} NoneLeft(s: Files, f: Files)
    requires PutAway(s, f, WORK_NAMES)
    ensures forall k :: 0 <= k < WORK_NAMES ==> Work(k) !in s
  {}

  lemma {:induction false} OneMorePutAway(g: Files, s: Files, f: Files, k: nat, j: nat)
    requires Work(k) in g && s == Renamed(g, Work(k), Rescued(j)) && PutAway(g, f, k) && RoomsAsIn(g, f, j + 1)
    ensures PutAway(s, f, k + 1) && RoomsAsIn(s, f, j + 1)
  {}

  lemma {:induction false} TextMoved(f: Files, s: Files, k: nat, j: nat)
    requires Work(k) in f && Rescued(j) !in f && s == Renamed(f, Work(k), Rescued(j))
    ensures TextsKept(f, s)
  {
    forall n | n in f && HoldsText(n) ensures exists o :: o in s && HoldsText(o) && s[o] == f[n] {
      if n == Work(k) { assert Rescued(j) in s && s[Rescued(j)] == f[n]; } else { assert n in s && s[n] == f[n]; }
    }
  }

  lemma {:induction false} KeptOn(f: Files, g: Files, s: Files)
    requires TextsKept(f, g) && TextsKept(g, s)
    ensures TextsKept(f, s)
  {
    forall n | n in f && HoldsText(n) ensures exists o :: o in s && HoldsText(o) && s[o] == f[n] {
      var k :| k in g && HoldsText(k) && g[k] == f[n];
      var o :| o in s && HoldsText(o) && s[o] == g[k];
    }
  }

  lemma {:induction false} StillCandidate(r: Reader, f: Files, s: Files, p: Program, names: set<Name>)
    requires Candidate(r, f, Session) == Some(p) && EqualBut(s, f, names) && Session !in names &&
        Work(p.meta.work) !in names
    ensures Candidate(r, s, Session) == Some(p)
  {
    EqualButGet(s, f, names, Session);
    EqualButGet(s, f, names, Work(p.meta.work));
  }

  lemma {:induction false} RemovedOnly(f: Files, n: Name, names: set<Name>)
    requires n in names
    ensures EqualBut(f - {n}, f, names) && EqualBut(f, f, names)
  {
    EqualButBy(f - {n}, f, names);
  }

  lemma {:induction false} AllKept(r: Reader, f: Files, seen: seq<Files>, from: nat, p: Program, names: set<Name>)
    requires Sound(r, f, p) && from <= |seen| && Session !in names && SessionBackup !in names &&
        Work(p.meta.work) !in names
    requires forall i :: from <= i < |seen| ==> EqualBut(seen[i], f, names)
    ensures forall i :: from <= i < |seen| ==> Sound(r, seen[i], p)
  {
    forall i | from <= i < |seen| ensures Sound(r, seen[i], p) { Unread(r, f, seen[i], p, names); }
  }

  lemma {:induction false} KeptWhile(r: Reader, f: Files, seen: seq<Files>, from: nat, p: Program)
    requires Sound(r, f, p) && from <= |seen|
    ensures (forall i :: from <= i < |seen| ==> EqualBut(seen[i], f, {SessionTemp})) ==>
            forall i :: from <= i < |seen| ==> Sound(r, seen[i], p)
  {
    if forall i :: from <= i < |seen| ==> EqualBut(seen[i], f, {SessionTemp}) {
      forall i | from <= i < |seen| ensures Sound(r, seen[i], p) { Unread(r, f, seen[i], p, {SessionTemp}); }
    }
  }
}
