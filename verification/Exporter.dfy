/**
 Projecting a session journal to a JSONL file that may be torn at any byte: after any
 sequence of journal growth, exports and crashes the file is a byte prefix of the
 rendered journal, and an export that completes makes it equal.
 */
module Exporter {
  import opened Wrappers
  import opened JsonLines

  // ------------------------------------------------------------------ reading

  datatype Reading = Complete(events: seq<Event>) | CorruptTail(events: seq<Event>) | CorruptMiddle | ForeignSession

  /** What the lines amount to: a bad last line is forgiven, a bad one before it is not. */
  function ReadLines(codec: Codec, session: string, lines: seq<Bytes>, read: seq<Event>): Reading {
    if |lines| == 0 then Complete(read)
    else
      match codec.parse(lines[0])
      case None => if |lines| > 1 then CorruptMiddle else CorruptTail(read)
      case Some(e) => if e.session != session then ForeignSession else ReadLines(codec, session, lines[1..], read + [e])
  }

  method ReadLoop(codec: Codec, session: string, lines: seq<Bytes>) returns (r: Reading)
    ensures r == ReadLines(codec, session, lines, [])
  {
    var events: seq<Event> := [];
    var i := 0;
    while i < |lines|
      invariant 0 <= i <= |lines|
      invariant ReadLines(codec, session, lines, []) == ReadLines(codec, session, lines[i..], events)
    {
      assert lines[i..][0] == lines[i] && lines[i..][1..] == lines[i + 1..];
      match codec.parse(lines[i]) {
      case None =>
        return if i + 1 < |lines| then CorruptMiddle else CorruptTail(events);
      case Some(e) =>
        if e.session != session {
          return ForeignSession;
        }
        events := events + [e];
      }
      i := i + 1;
    }
    return Complete(events);
  }

  /** Where the last complete line ends. */
  function LineEnd(raw: Bytes): (n: nat)
    ensures n <= |raw| && (n > 0 ==> raw[n - 1] == NEWLINE)
  {
    if |raw| == 0 then 0 else if raw[|raw| - 1] == NEWLINE then |raw| else LineEnd(raw[..|raw| - 1])
  }

  // --------------------------------------------------------------- the journal

  predicate DistinctIds(events: seq<Event>) {
    forall i, j :: 0 <= i < j < |events| ==> events[i].id != events[j].id
  }

  /** A journal of one session whose records are stable under redaction and parse back. */
  ghost predicate Sound(codec: Codec, session: string, journal: seq<Event>) {
    && DistinctIds(journal)
    && forall e :: e in journal ==>
         ObjectText(codec.render(e)) && codec.parse(codec.render(e)) == Some(e) && e.session == session
  }

  ghost predicate SingleLines(codec: Codec, journal: seq<Event>) {
    forall e :: e in journal ==> OneLine(codec.render(e))
  }

  lemma {:induction false} RenderedConcat(codec: Codec, a: seq<Event>, b: seq<Event>)
    ensures Rendered(codec, a + b) == Rendered(codec, a) + Rendered(codec, b)
  {
    if |b| == 0 {
      assert a + b == a;
    } else {
      RenderedConcat(codec, a, b[..|b| - 1]);
      assert (a + b)[..|a + b| - 1] == a + b[..|b| - 1];
    }
  }

  lemma {:induction false} RenderedOne(codec: Codec, e: Event)
    ensures Rendered(codec, [e]) == codec.render(e) + [NEWLINE]
  {
    assert [e][..0] == [];
    assert Rendered(codec, []) == [];
  }

  lemma {:induction false} RenderedFront(codec: Codec, journal: seq<Event>)
    requires |journal| > 0
    ensures Rendered(codec, journal) == codec.render(journal[0]) + [NEWLINE] + Rendered(codec, journal[1..])
  {
    assert journal == [journal[0]] + journal[1..];
    RenderedConcat(codec, [journal[0]], journal[1..]);
    RenderedOne(codec, journal[0]);
  }

  /** Reading a rendered journal gives the journal. */
  lemma {:induction false} ReadsBack(codec: Codec, session: string, journal: seq<Event>, read: seq<Event>)
    requires SingleLines(codec, journal)
    requires forall e :: e in journal ==> ObjectText(codec.render(e)) && codec.parse(codec.render(e)) == Some(e) && e.session == session
    ensures ReadLines(codec, session, SplitLines(Rendered(codec, journal)), read) == Complete(read + journal)
    decreases |journal|
  {
    if |journal| > 0 {
      var e := journal[0];
      RenderedFront(codec, journal);
      LineReadBack(codec.render(e), Rendered(codec, journal[1..]));
      ReadsBack(codec, session, journal[1..], read + [e]);
      assert read + [e] + journal[1..] == read + journal;
    } else {
      assert read + journal == read;
    }
  }

  /** No proper prefix of a record is a record. */
  ghost predicate PrefixFree(codec: Codec, journal: seq<Event>) {
    forall e, i :: e in journal && 0 <= i < |codec.render(e)| ==> codec.parse(codec.render(e)[..i]).None?
  }

  /** Reading back a complete export fails exactly when some record holds a raw line-break character. */
  lemma {:induction false} ReadFailsIff(codec: Codec, session: string, journal: seq<Event>, read: seq<Event>)
    requires PrefixFree(codec, journal)
    requires forall e :: e in journal ==> ObjectText(codec.render(e)) && codec.parse(codec.render(e)) == Some(e) && e.session == session
    ensures var r := ReadLines(codec, session, SplitLines(Rendered(codec, journal)), read);
            && (r == CorruptMiddle <==> !SingleLines(codec, journal))
            && (r == Complete(read + journal) <==> SingleLines(codec, journal))
    decreases |journal|
  {
    if |journal| == 0 {
      assert read + journal == read;
    } else {
      var e := journal[0];
      RenderedFront(codec, journal);
      if OneLine(codec.render(e)) {
        LineReadBack(codec.render(e), Rendered(codec, journal[1..]));
        ReadFailsIff(codec, session, journal[1..], read + [e]);
        assert read + [e] + journal[1..] == read + journal;
        assert forall x :: x in journal <==> x == e || x in journal[1..];
      } else {
        assert e in journal;
        var i := LineCut(codec.render(e), Rendered(codec, journal[1..]));
        assert codec.parse(codec.render(e)[..i]).None?;
      }
    }
  }

  // -------------------------------------------------------------- torn writes

  /** The file holds a byte prefix of the rendered journal; a missing file counts as empty. */
  ghost predicate Covers(codec: Codec, file: Option<Bytes>, journal: seq<Event>) {
    file.Some? ==> file.value <= Rendered(codec, journal)
  }

  lemma {:induction false} CoversGrowth(codec: Codec, file: Option<Bytes>, journal: seq<Event>, more: seq<Event>)
    requires Covers(codec, file, journal)
    ensures Covers(codec, file, journal + more)
  {
    RenderedConcat(codec, journal, more);
  }

  lemma {:induction false} LineEndOf(whole: Bytes, torn: Bytes)
    requires NEWLINE !in torn && (|whole| > 0 ==> whole[|whole| - 1] == NEWLINE)
    ensures LineEnd(whole + torn) == |whole|
    decreases |torn|
  {
    if |torn| == 0 {
      assert whole + torn == whole;
    } else {
      assert (whole + torn)[|whole| + |torn| - 1] == torn[|torn| - 1] && torn[|torn| - 1] in torn;
      assert (whole + torn)[..|whole| + |torn| - 1] == whole + torn[..|torn| - 1];
      LineEndOf(whole, torn[..|torn| - 1]);
    }
  }

  /** Cutting a torn file at its last newline leaves whole records, the first `k` of the journal. */
  lemma {:induction false} TornFile(codec: Codec, journal: seq<Event>, raw: Bytes) returns (k: nat)
    requires forall e :: e in journal ==> ObjectText(codec.render(e))
    requires raw <= Rendered(codec, journal)
    ensures k <= |journal| && raw[..LineEnd(raw)] == Rendered(codec, journal[..k])
    decreases |journal|
  {
    if |journal| == 0 {
      k := 0;
    } else {
      var n := |journal| - 1;
      var before := Rendered(codec, journal[..n]);
      if |raw| <= |before| {
        assert raw <= before;
        k := TornFile(codec, journal[..n], raw);
        assert journal[..n][..k] == journal[..k];
      } else {
        k := LastTorn(codec, journal, raw);
      }
    }
  }

  lemma {:induction false} LastTorn(codec: Codec, journal: seq<Event>, raw: Bytes) returns (k: nat)
    requires |journal| > 0 && forall e :: e in journal ==> ObjectText(codec.render(e))
    requires raw <= Rendered(codec, journal) && |raw| > |Rendered(codec, journal[..|journal| - 1])|
    ensures k <= |journal| && raw[..LineEnd(raw)] == Rendered(codec, journal[..k])
  {
    var n := |journal| - 1;
    var before, record := Rendered(codec, journal[..n]), codec.render(journal[n]);
    var torn := raw[|before|..];
    assert raw == before + torn && torn <= record + [NEWLINE];
    if |torn| == |record| + 1 {
      assert raw == Rendered(codec, journal) && raw[|raw| - 1] == NEWLINE;
      k := n + 1;
      assert journal[..k] == journal;
    } else {
      assert torn <= record;
      assert journal[n] in journal;
      RenderedEnds(codec, journal[..n]);
      LineEndOf(before, torn);
      k := n;
    }
  }

  lemma {:induction false} RenderedEnds(codec: Codec, journal: seq<Event>)
    ensures var raw := Rendered(codec, journal); |raw| > 0 ==> raw[|raw| - 1] == NEWLINE
  {
  }

  // ----------------------------------------------------------------- exporting

  datatype ExportError = CorruptMiddleRecord | AnotherSession

  datatype Outcome = Crashed | Raised(error: ExportError) | Done(exported: nat, present: nat, repaired: bool, rewritten: bool)

  function Content(file: Option<Bytes>): Bytes {
    if file.Some? then file.value else []
  }

  /** A file on a machine that stops after `power` more written bytes or metadata changes. */
  class Disk {
    var file: Option<Bytes>
    var power: nat

    constructor (file: Option<Bytes>, power: nat)
      ensures this.file == file && this.power == power
    {
      this.file, this.power := file, power;
    }

    method Truncate(n: nat) returns (ok: bool)
      requires file.Some? && n <= |file.value|
      modifies this
      ensures ok <==> old(power) > 0
      ensures file == (if ok then Some(old(file).value[..n]) else old(file))
      ensures ok ==> power == old(power) - 1
    {
      ok := power > 0;
      if ok {
        file, power := Some(file.value[..n]), power - 1;
      }
    }

    /** Bytes reach the end of the file one by one until the power is gone. */
    method Append(data: Bytes) returns (ok: bool)
      modifies this
      ensures ok <==> old(power) >= |data|
      ensures file.Some? && Content(old(file)) <= file.value <= Content(old(file)) + data
      ensures ok ==> file.value == Content(old(file)) + data
      ensures ok ==> power == old(power) - |data|
    {
      var n := if power < |data| then power else |data|;
      file := Some(Content(file) + data[..n]);
      ok := n == |data|;
      power := power - n;
    }

    /** Write from the start over what is there. */
    method Overwrite(data: Bytes) returns (ok: bool)
      requires file.Some?
      modifies this
      ensures ok <==> old(power) > |data|
      ensures ok ==> file == Some(data) && power == old(power) - |data| - 1
      ensures file.Some?
    {
      var n := if power < |data| then power else |data|;
      var rest := if n < |file.value| then file.value[n..] else [];
      if power > |data| {
        file, power, ok := Some(data), power - |data| - 1, true;
      } else {
        file, power, ok := Some(data[..n] + rest), 0, false;
      }
    }
  }

  datatype Prefix = Failed(outcome: Outcome) | Found(events: seq<Event>, repaired: bool)

  /** Records are single lines, or at least no record starts another one. */
  ghost predicate Separable(codec: Codec, journal: seq<Event>) {
    SingleLines(codec, journal) || PrefixFree(codec, journal)
  }

  /** The complete lines of the file are the first `k` records of a sound journal. */
  ghost predicate Holds(codec: Codec, session: string, file: Option<Bytes>, journal: seq<Event>, k: nat) {
    && file.Some? && k <= |journal| && Sound(codec, session, journal) && Separable(codec, journal)
    && file.value[..LineEnd(file.value)] == Rendered(codec, journal[..k])
  }

  /** What reading the first `k` records gives: them, or a corrupt middle if one of them is cut. */
  ghost function HeldReading(codec: Codec, journal: seq<Event>, k: nat): Reading
    requires k <= |journal|
  {
    if SingleLines(codec, journal[..k]) then Complete(journal[..k]) else CorruptMiddle
  }

  lemma {:induction false} HeldLinesRead(codec: Codec, session: string, file: Option<Bytes>, journal: seq<Event>, k: nat)
    requires Holds(codec, session, file, journal, k)
    ensures ReadLines(codec, session, SplitLines(file.value[..LineEnd(file.value)]), []) == HeldReading(codec, journal, k)
  {
    var held := journal[..k];
    assert forall e :: e in held ==> e in journal;
    assert [] + held == held;
    if SingleLines(codec, held) {
      ReadsBack(codec, session, held, []);
    } else {
      ReadFailsIff(codec, session, held, []);
    }
  }

  /** `_read_complete_prefix`: drop a torn tail, then parse the lines that are left. */
  method ReadCompletePrefix(codec: Codec, session: string, disk: Disk, ghost journal: seq<Event>, ghost k: nat)
    returns (p: Prefix)
    modifies disk
    ensures Holds(codec, session, old(disk.file), journal, k) ==>
              && (p.Found? ==> && SingleLines(codec, journal[..k]) && p.events == journal[..k]
                               && disk.file == Some(Rendered(codec, journal[..k])) && disk.power + 1 >= old(disk.power)
                               && (p.repaired <==> LineEnd(old(disk.file).value) < |old(disk.file).value|))
              && (p == Failed(Crashed) ==> && disk.file == old(disk.file) && old(disk.power) == 0
                                           && LineEnd(old(disk.file).value) < |old(disk.file).value|)
              && (p.Failed? && p != Failed(Crashed) ==>
                    && p == Failed(Raised(CorruptMiddleRecord)) && !SingleLines(codec, journal[..k])
                    && disk.file == Some(Rendered(codec, journal[..k])))
    ensures old(disk.file).None? ==> p == Found([], false) && disk.file.None? && disk.power == old(disk.power)
    ensures p.Failed? ==> !p.outcome.Done?
    ensures p == Failed(Crashed) ==> old(disk.file).Some?
  {
    hide Rendered, Sound, SingleLines, PrefixFree, ReadLines, SplitLines;
    if disk.file.None? {
      return Found([], false);
    }
    ghost var was := disk.file;
    var end := LineEnd(disk.file.value);
    var repaired := end < |disk.file.value|;
    if repaired {
      var ok := disk.Truncate(end);
      if !ok {
        return Failed(Crashed);
      }
    }
    var raw := disk.file.value;
    assert raw == was.value[..end];
    var reading := ReadLoop(codec, session, SplitLines(raw));
    if Holds(codec, session, was, journal, k) {
      HeldLinesRead(codec, session, was, journal, k);
    }
    match reading
    case Complete(events) => return Found(events, repaired);
    case CorruptTail(events) =>
      var kept := disk.Overwrite(Rendered(codec, events));
      if !kept {
        return Failed(Crashed);
      }
      return Found(events, true);
    case CorruptMiddle => return Failed(Raised(CorruptMiddleRecord));
    case ForeignSession => return Failed(Raised(AnotherSession));
  }

  lemma {:induction false} RecordInside(codec: Codec, missing: seq<Event>, i: nat)
    requires i < |missing|
    ensures Rendered(codec, missing[..i + 1]) == Rendered(codec, missing[..i]) + (codec.render(missing[i]) + [NEWLINE])
    ensures Rendered(codec, missing[..i + 1]) <= Rendered(codec, missing)
  {
    assert missing[..i + 1][..i] == missing[..i];
    assert missing == missing[..i + 1] + missing[i + 1..];
    RenderedConcat(codec, missing[..i + 1], missing[i + 1..]);
  }

  lemma {:induction false} PrefixExtends(was: Bytes, done: Bytes, record: Bytes, all: Bytes, file: Bytes)
    requires done + record <= all && was + done <= file <= was + done + record
    ensures was <= file <= was + all && was + done + record == was + (done + record)
  {
    assert was + done + record == was + (done + record);
  }

  /** Append the missing records one by one. */
  method AppendRecords(codec: Codec, disk: Disk, missing: seq<Event>) returns (ok: bool)
    modifies disk
    ensures missing == [] ==> ok && disk.file == old(disk.file) && disk.power == old(disk.power)
    ensures missing != [] ==> disk.file.Some?
    ensures Content(old(disk.file)) <= Content(disk.file) <= Content(old(disk.file)) + Rendered(codec, missing)
    ensures ok ==> Content(disk.file) == Content(old(disk.file)) + Rendered(codec, missing)
    ensures old(disk.power) >= |Rendered(codec, missing)| ==> ok
  {
    hide Rendered;
    NothingRendered(codec);
    ghost var was := Content(disk.file);
    var i := 0;
    assert missing[..0] == [] && was + [] == was;
    while i < |missing|
      invariant 0 <= i <= |missing|
      invariant i == 0 ==> disk.file == old(disk.file)
      invariant i > 0 ==> disk.file.Some?
      invariant Content(disk.file) == was + Rendered(codec, missing[..i])
      invariant disk.power + |Rendered(codec, missing[..i])| == old(disk.power)
    {
      RecordInside(codec, missing, i);
      var record := codec.render(missing[i]) + [NEWLINE];
      var written := disk.Append(record);
      PrefixExtends(was, Rendered(codec, missing[..i]), record, Rendered(codec, missing), disk.file.value);
      if !written {
        return false;
      }
      i := i + 1;
    }
    assert missing[..|missing|] == missing;
    return true;
  }

  predicate ValidPrefix(existing: seq<Event>, journal: seq<Event>) {
    DistinctIds(existing) && existing <= journal
  }

  /** The complete lines of a covered file are the first records of the journal. */
  lemma {:induction false} CoveredHolds(codec: Codec, session: string, file: Option<Bytes>, journal: seq<Event>) returns (k: nat)
    requires Sound(codec, session, journal) && Separable(codec, journal) && Covers(codec, file, journal)
    ensures k <= |journal| && ValidPrefix(journal[..k], journal)
    ensures if file.Some? then Holds(codec, session, file, journal, k) else k == 0
  {
    k := 0;
    if file.Some? {
      k := TornFile(codec, journal, file.value);
    }
  }

  lemma {:induction false} HeldIsCovered(codec: Codec, journal: seq<Event>, k: nat)
    requires k <= |journal|
    ensures Rendered(codec, journal[..k]) <= Rendered(codec, journal)
  {
    assert journal == journal[..k] + journal[k..];
    RenderedConcat(codec, journal[..k], journal[k..]);
  }

  /** Two lengths that a file's complete lines could have are the same. */
  lemma {:induction false} HeldUnique(codec: Codec, journal: seq<Event>, m: nat, n: nat)
    requires m <= n <= |journal| && Rendered(codec, journal[..m]) == Rendered(codec, journal[..n])
    ensures m == n
  {
    assert journal[..n] == journal[..m] + journal[m..n];
    RenderedConcat(codec, journal[..m], journal[m..n]);
    RenderedEmpty(codec, journal[m..n]);
  }

  lemma {:induction false} RenderedEmpty(codec: Codec, journal: seq<Event>)
    ensures Rendered(codec, journal) == [] <==> journal == []
  {
  }

  lemma {:induction false} HeldFacts(codec: Codec, session: string, journal: seq<Event>, k: nat)
    requires k <= |journal| && Sound(codec, session, journal)
    ensures ValidPrefix(journal[..k], journal) && Rendered(codec, journal[..k]) <= Rendered(codec, journal)
    ensures SingleLines(codec, journal) ==> SingleLines(codec, journal[..k])
  {
    HeldIsCovered(codec, journal, k);
    assert forall e :: e in journal[..k] ==> e in journal;
  }

  /**
   Export the journal over a file that holds its first records, whole or torn. The file stays a
   prefix of the rendered journal whatever happens, and becomes equal to it when the call
   completes; it raises exactly when a record that is already there holds a line break.
   */
  method Export(codec: Codec, session: string, journal: seq<Event>, disk: Disk) returns (o: Outcome)
    modifies disk
    ensures Sound(codec, session, journal) && Separable(codec, journal) && Covers(codec, old(disk.file), journal) ==>
              && Covers(codec, disk.file, journal)
              && (o.Done? ==> disk.file == Some(Rendered(codec, journal)) && o.exported + o.present == |journal| && !o.rewritten)
              && (o.Raised? ==> o == Raised(CorruptMiddleRecord) && !SingleLines(codec, journal))
              && (old(disk.power) > |Rendered(codec, journal)| && SingleLines(codec, journal) ==> o.Done?)
    ensures o.Done? && o.rewritten ==> disk.file == Some(Rendered(codec, journal)) && o.exported == |journal| && o.present == 0
    ensures forall n: nat :: Holds(codec, session, old(disk.file), journal, n)
                             && (old(disk.power) > 0 || LineEnd(old(disk.file).value) == |old(disk.file).value|) ==>
              (o == Raised(CorruptMiddleRecord) <==> !SingleLines(codec, journal[..n]))
    ensures o.Done? && old(disk.file).None? ==> o == Done(|journal|, 0, false, false)
    ensures forall n: nat :: Holds(codec, session, old(disk.file), journal, n) && o.Done? ==>
              o == Done(|journal| - n, n, LineEnd(old(disk.file).value) < |old(disk.file).value|, false)
  {
    hide Sound, SingleLines, PrefixFree, Separable, Rendered, Holds, LineEnd, DistinctIds, ReadLines, SplitLines;
    ghost var k: nat := 0;
    ghost var was := disk.file;
    if Sound(codec, session, journal) && Separable(codec, journal) && Covers(codec, disk.file, journal) {
      k := CoveredHolds(codec, session, disk.file, journal);
    } else if n: nat :| Holds(codec, session, disk.file, journal, n) {
      k := n;
    }
    HoldsMeans(codec, session, was, journal);
    if Sound(codec, session, journal) && k <= |journal| {
      HeldFacts(codec, session, journal, k);
    }
    SameHeld(codec, session, was, journal, k);
    NothingRendered(codec);
    NothingHeld(journal);
    var p := ReadCompletePrefix(codec, session, disk, journal, k);
    match p
    case Failed(outcome) => return outcome;
    case Found(existing, repaired) =>
      o := Bring(codec, journal, existing, repaired, disk);
  }

  lemma {:induction false} HoldsMeans(codec: Codec, session: string, file: Option<Bytes>, journal: seq<Event>)
    ensures forall n: nat :: Holds(codec, session, file, journal, n) ==>
              file.Some? && n <= |journal| && Sound(codec, session, journal)
  {
  }

  /** A file holds one number of records. */
  lemma {:induction false} SameHeld(codec: Codec, session: string, file: Option<Bytes>, journal: seq<Event>, k: nat)
    ensures forall n: nat :: Holds(codec, session, file, journal, n) && Holds(codec, session, file, journal, k) ==> n == k
  {
    hide Sound, SingleLines, PrefixFree, Rendered;
    forall n: nat | Holds(codec, session, file, journal, n) && Holds(codec, session, file, journal, k)
      ensures n == k
    {
      if n <= k {
        HeldUnique(codec, journal, n, k);
      } else {
        HeldUnique(codec, journal, k, n);
      }
    }
  }

  /** Bring a file that holds the existing records up to the journal, or replace it when they do not agree. */
  method Bring(codec: Codec, journal: seq<Event>, existing: seq<Event>, repaired: bool, disk: Disk) returns (o: Outcome)
    modifies disk
    ensures !o.Raised?
    ensures o.Done? ==> if ValidPrefix(existing, journal) then o == Done(|journal| - |existing|, |existing|, repaired, false)
                        else o == Done(|journal|, 0, repaired, true)
    ensures o.Done? && o.rewritten ==> disk.file == Some(Rendered(codec, journal)) && o.exported == |journal| && o.present == 0
    ensures ValidPrefix(existing, journal) && Content(old(disk.file)) == Rendered(codec, existing) ==>
              && Covers(codec, disk.file, journal)
              && (o.Done? ==> disk.file == Some(Rendered(codec, journal)) && o.exported + o.present == |journal| && !o.rewritten)
              && (old(disk.power) >= |Rendered(codec, journal)| + (if old(disk.file).None? then 1 else 0) ==> o.Done?)
  {
    hide Rendered, DistinctIds;
    if !ValidPrefix(existing, journal) {
      if disk.power == 0 {
        return Crashed;
      }
      disk.file, disk.power := Some(Rendered(codec, journal)), disk.power - 1;
      return Done(|journal|, 0, repaired, true);
    }
    var missing := journal[|existing|..];
    assert journal == existing + missing;
    RenderedConcat(codec, existing, missing);
    var ok := AppendRecords(codec, disk, missing);
    if !ok {
      return Crashed;
    }
    if disk.file.None? {
      NothingRendered(codec);
      if disk.power == 0 {
        return Crashed;
      }
      disk.file, disk.power := Some([]), disk.power - 1;
    }
    return Done(|missing|, |existing|, repaired, false);
  }

  lemma {:induction false} NothingHeld(journal: seq<Event>)
    ensures ValidPrefix([], journal)
  {
  }

  lemma {:induction false} NothingRendered(codec: Codec)
    ensures Rendered(codec, []) == []
  {
  }

  // ----------------------------------------------------------------------- runs

  /** The journal grows, or an export is tried on a machine with so much power left. */
  datatype Tick = Grow(events: seq<Event>) | Try(power: nat)

  function JournalAfter(ticks: seq<Tick>): seq<Event> {
    if |ticks| == 0 then []
    else
      var last := ticks[|ticks| - 1];
      JournalAfter(ticks[..|ticks| - 1]) + if last.Grow? then last.events else []
  }

  lemma {:induction false} JournalGrows(ticks: seq<Tick>, n: nat)
    requires n <= |ticks|
    ensures JournalAfter(ticks[..n]) <= JournalAfter(ticks)
    decreases |ticks| - n
  {
    if n < |ticks| {
      JournalGrows(ticks, n + 1);
      assert ticks[..n + 1][..n] == ticks[..n];
    } else {
      assert ticks[..n] == ticks;
    }
  }

  lemma {:induction false} SoundPrefix(codec: Codec, session: string, journal: seq<Event>, part: seq<Event>)
    requires part <= journal && Sound(codec, session, journal) && Separable(codec, journal)
    ensures Sound(codec, session, part) && Separable(codec, part)
    ensures SingleLines(codec, journal) ==> SingleLines(codec, part)
  {
    assert forall e :: e in part ==> e in journal;
  }

  /**
   Every schedule: starting from no file, the file is a byte prefix of the rendered
   journal all along, and equal to it whenever the last export of the schedule completed,
   which an export with power enough does if no record holds a line break.
   */
  method RunSchedule(codec: Codec, session: string, ticks: seq<Tick>) returns (file: Option<Bytes>, complete: bool)
    requires Sound(codec, session, JournalAfter(ticks)) && Separable(codec, JournalAfter(ticks))
    ensures Covers(codec, file, JournalAfter(ticks))
    ensures complete ==> file == Some(Rendered(codec, JournalAfter(ticks)))
    ensures (&& |ticks| > 0 && ticks[|ticks| - 1].Try? && ticks[|ticks| - 1].power > |Rendered(codec, JournalAfter(ticks))|
             && SingleLines(codec, JournalAfter(ticks))) ==> complete
  {
    hide Sound, SingleLines, PrefixFree, Separable, Rendered, Holds;
    file, complete := None, false;
    var journal: seq<Event> := [];
    var i := 0;
    while i < |ticks|
      invariant 0 <= i <= |ticks| && journal == JournalAfter(ticks[..i]) && Covers(codec, file, journal)
      invariant complete ==> file == Some(Rendered(codec, journal))
      invariant (&& i > 0 && ticks[i - 1].Try? && ticks[i - 1].power > |Rendered(codec, journal)|
                 && SingleLines(codec, JournalAfter(ticks))) ==> complete
    {
      assert ticks[..i + 1][..i] == ticks[..i];
      match ticks[i] {
      case Grow(events) =>
        CoversGrowth(codec, file, journal, events);
        assert journal + [] == journal;
        journal, complete := journal + events, complete && events == [];
      case Try(power) =>
        JournalGrows(ticks, i);
        SoundPrefix(codec, session, JournalAfter(ticks), journal);
        var disk := new Disk(file, power);
        var o := Export(codec, session, journal, disk);
        file, complete := disk.file, o.Done?;
        assert journal + [] == journal;
      }
      i := i + 1;
    }
    assert ticks[..|ticks|] == ticks;
  }
}
