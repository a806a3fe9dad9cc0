/**
 JSONL text as bytes: rendering a journal one record per line, and cutting bytes into
 lines the way Python's `str.splitlines` does, which also breaks at U+0085, U+2028
 and U+2029.
 */
module JsonLines {
  import opened Wrappers

  type Byte = x: int | 0 <= x < 256

  type Bytes = seq<Byte>

  const NEWLINE: Byte := 0x0A

  datatype Event = Event(id: string, session: string, body: string)

  /** How events become JSON text and back; `render` includes the redaction applied on output. */
  datatype Codec = Codec(render: Event -> Bytes, parse: Bytes -> Option<Event>)

  function Rendered(codec: Codec, journal: seq<Event>): Bytes {
    if |journal| == 0 then []
    else Rendered(codec, journal[..|journal| - 1]) + codec.render(journal[|journal| - 1]) + [NEWLINE]
  }

  // -------------------------------------------------------------- line breaks

  /** Bytes of the line break that starts at `i`, or 0. */
  function BreakAt(raw: Bytes, i: nat): (n: nat)
    requires i < |raw|
    ensures i + n <= |raw|
  {
    if raw[i] == 0x0D && i + 1 < |raw| && raw[i + 1] == 0x0A then 2
    else if 0x0A <= raw[i] <= 0x0D || 0x1C <= raw[i] <= 0x1E then 1
    else if raw[i] == 0xC2 && i + 1 < |raw| && raw[i + 1] == 0x85 then 2
    else if raw[i] == 0xE2 && i + 2 < |raw| && raw[i + 1] == 0x80 && (raw[i + 2] == 0xA8 || raw[i + 2] == 0xA9) then 3
    else 0
  }

  predicate Unbroken(raw: Bytes, n: nat)
    requires n <= |raw|
  {
    forall i :: 0 <= i < n ==> BreakAt(raw, i) == 0
  }

  /** The record has no character that `splitlines` breaks at. */
  predicate OneLine(record: Bytes) {
    Unbroken(record, |record|)
  }

  function FirstBreak(raw: Bytes, from: nat): (i: nat)
    requires from <= |raw| && Unbroken(raw, from)
    ensures i <= |raw| && Unbroken(raw, i) && (i < |raw| ==> BreakAt(raw, i) > 0)
    decreases |raw| - from
  {
    if from == |raw| || BreakAt(raw, from) > 0 then from else FirstBreak(raw, from + 1)
  }

  function SplitLines(raw: Bytes): seq<Bytes> {
    var i := FirstBreak(raw, 0);
    if |raw| == 0 then []
    else if i == |raw| then [raw]
    else [raw[..i]] + SplitLines(raw[i + BreakAt(raw, i)..])
  }

  /** A break that starts in a record cannot reach across the newline that ends it. */
  lemma {:induction false} BreaksStayInside(record: Bytes, rest: Bytes, i: nat)
    requires i < |record| && NEWLINE !in record
    ensures BreakAt(record + [NEWLINE] + rest, i) == 0 <==> BreakAt(record, i) == 0
  {
    var raw := record + [NEWLINE] + rest;
    assert forall j :: 0 <= j < |record| ==> raw[j] == record[j] && record[j] in record;
    assert raw[|record|] == NEWLINE;
  }

  lemma {:induction false} FirstBreakIs(raw: Bytes, from: nat, i: nat)
    requires from <= i <= |raw| && Unbroken(raw, i) && (i < |raw| ==> BreakAt(raw, i) > 0)
    ensures FirstBreak(raw, from) == i
    decreases i - from
  {
    if from < i {
      FirstBreakIs(raw, from + 1, i);
    }
  }

  /** A record without break characters is read back as its own line. */
  lemma {:induction false} LineReadBack(record: Bytes, rest: Bytes)
    requires OneLine(record) && NEWLINE !in record
    ensures SplitLines(record + [NEWLINE] + rest) == [record] + SplitLines(rest)
  {
    var raw := record + [NEWLINE] + rest;
    forall i | 0 <= i < |record|
      ensures BreakAt(raw, i) == 0
    {
      BreaksStayInside(record, rest, i);
    }
    assert raw[|record|] == NEWLINE;
    FirstBreakIs(raw, 0, |record|);
    assert raw[..|record|] == record && raw[|record| + 1..] == rest;
  }

  const CLOSING_BRACE: Byte := 0x7D

  /** A JSON object on one line of text: no raw newline, and a closing brace at the end. */
  predicate ObjectText(record: Bytes) {
    NEWLINE !in record && |record| > 0 && record[|record| - 1] == CLOSING_BRACE
  }

  /** A record with a break character is cut there, and something is left behind the cut. */
  lemma {:induction false} LineCut(record: Bytes, rest: Bytes) returns (i: nat)
    requires ObjectText(record) && !OneLine(record)
    ensures i < |record| && |SplitLines(record + [NEWLINE] + rest)| > 1
    ensures SplitLines(record + [NEWLINE] + rest)[0] == record[..i]
  {
    var raw := record + [NEWLINE] + rest;
    i := FirstBreak(record, 0);
    forall k | 0 <= k <= i && k < |record|
      ensures BreakAt(raw, k) == 0 <==> BreakAt(record, k) == 0
    {
      BreaksStayInside(record, rest, k);
    }
    FirstBreakIs(raw, 0, i);
    assert raw[..i] == record[..i];
    CutStaysInside(record, rest, i);
    var tail := raw[i + BreakAt(raw, i)..];
    assert |tail| > 0;
  }

  lemma {:induction false} CutStaysInside(record: Bytes, rest: Bytes, i: nat)
    requires ObjectText(record) && i < |record| && BreakAt(record, i) > 0
    ensures i + BreakAt(record + [NEWLINE] + rest, i) < |record|
  {
    var raw := record + [NEWLINE] + rest;
    assert forall j :: 0 <= j < |record| ==> raw[j] == record[j] && record[j] in record;
    assert raw[|record|] == NEWLINE && raw[|record| - 1] == CLOSING_BRACE;
  }

  /** JSON text may hold U+0085, U+2028 or U+2029 unescaped, and each of them breaks the line. */
  lemma {:induction false} RawBreaksOccur()
    ensures var next, line, paragraph := [0x7B, 0xC2, 0x85, 0x7D], [0x7B, 0xE2, 0x80, 0xA8, 0x7D], [0x7B, 0xE2, 0x80, 0xA9, 0x7D];
            ObjectText(next) && !OneLine(next) && ObjectText(line) && !OneLine(line) && ObjectText(paragraph) && !OneLine(paragraph)
  {
    assert BreakAt([0x7B, 0xC2, 0x85, 0x7D], 1) == 2;
    assert BreakAt([0x7B, 0xE2, 0x80, 0xA8, 0x7D], 1) == 3;
    assert BreakAt([0x7B, 0xE2, 0x80, 0xA9, 0x7D], 1) == 3;
  }
}
