/**
 Text in the model context: truncation around a marker, and the token estimate of
 a serialized message, which is a third of its UTF-8 bytes rounded up, plus four.
 */
module ContextText {
  import opened Wrappers

  // --------------------------------------------------------------- truncation

  function Digits(n: nat): (s: string)
    ensures |s| >= 1
  {
    if n < 10 then [(48 + n) as char] else Digits(n / 10) + [(48 + n % 10) as char]
  }

  lemma {:induction false} DigitsShort(n: nat)
    ensures |Digits(n)| <= n + 1 && (n > 0 ==> |Digits(n)| <= n)
  {
    if n >= 10 {
      DigitsShort(n / 10);
    }
  }

  lemma {:induction false} DigitsInjective(m: nat, n: nat)
    requires Digits(m) == Digits(n)
    ensures m == n
  {
    var a, b := Digits(m), Digits(n);
    assert a[|a| - 1] == (48 + m % 10) as char && b[|b| - 1] == (48 + n % 10) as char;
    if m >= 10 && n >= 10 {
      assert a[..|a| - 1] == Digits(m / 10) && b[..|b| - 1] == Digits(n / 10);
      DigitsInjective(m / 10, n / 10);
    }
  }

  const MARKER_HEAD: string := "\n... [truncated "
  const MARKER_TAIL: string := " chars] ...\n"

  function Marker(n: nat): (s: string)
    ensures |s| == 28 + |Digits(n)|
  {
    MARKER_HEAD + Digits(n) + MARKER_TAIL
  }

  lemma {:induction false} MarkerInjective(m: nat, n: nat)
    requires Marker(m) == Marker(n)
    ensures m == n
  {
    assert |Digits(m)| == |Digits(n)|;
    assert Marker(m)[16..16 + |Digits(m)|] == Digits(m);
    assert Marker(n)[16..16 + |Digits(n)|] == Digits(n);
    DigitsInjective(m, n);
  }

  function Max(a: nat, b: nat): nat {
    if a < b then b else a
  }

  /** How many leading and trailing characters a truncated text keeps. */
  function Kept(length: nat, limit: nat): (p: (nat, nat))
    requires limit < length
    ensures p.0 + p.1 + |Marker(length - limit)| == Max(limit, |Marker(length - limit)|) && p.0 + p.1 < length
    ensures 3 * p.0 <= 2 * (p.0 + p.1) < 3 * p.0 + 3
  {
    var room := if limit < |Marker(length - limit)| then 0 else limit - |Marker(length - limit)|;
    (room * 2 / 3, room - room * 2 / 3)
  }

  function TruncateText(text: string, limit: nat): (r: (string, bool))
    ensures r.1 <==> |text| > limit
    ensures !r.1 ==> r.0 == text
    ensures r.1 ==> |r.0| == Max(limit, |Marker(|text| - limit)|)
    ensures r.1 ==> var (head, tail) := Kept(|text|, limit);
                    && r.0[..head] == text[..head] && r.0[|r.0| - tail..] == text[|text| - tail..]
                    && r.0[head..|r.0| - tail] == Marker(|text| - limit)
  {
    if |text| <= limit then (text, false)
    else
      var (head, tail) := Kept(|text|, limit);
      (text[..head] + Marker(|text| - limit) + text[|text| - tail..], true)
  }

  /** At the limits the engine uses, a truncated text is strictly shorter than the text was. */
  lemma {:induction false} TruncationShrinks(text: string, limit: nat)
    requires limit >= 29 && |text| > limit
    ensures |TruncateText(text, limit).0| < |text|
  {
    DigitsShort(|text| - limit);
  }

  /** Truncating twice is truncating once exactly when the marker fits the limit or is the whole text's size. */
  lemma {:induction false} TruncationIdempotentIff(text: string, limit: nat)
    ensures var once := TruncateText(text, limit).0;
            TruncateText(once, limit).0 == once
            <==> |text| <= limit || |Marker(|text| - limit)| <= limit || |text| == |Marker(|text| - limit)|
  {
    if |text| > limit {
      var n := |text| - limit;
      var once := TruncateText(text, limit).0;
      if |Marker(n)| > limit {
        assert once == Marker(n);
        var m := |once| - limit;
        if |Marker(m)| > limit {
          assert TruncateText(once, limit).0 == Marker(m);
          if Marker(m) == Marker(n) {
            MarkerInjective(m, n);
          }
        }
      }
    }
  }

  // ---------------------------------------------------------- token estimates

  /** UTF-8 bytes of one character. */
  function Utf8Bytes(c: char): nat {
    var n := c as int;
    if n < 0x80 then 1 else if n < 0x800 then 2 else if n < 0x10000 then 3 else 4
  }

  /** Bytes of one character inside a JSON string literal that is not forced to ASCII. */
  function EscapedBytes(c: char): nat {
    if c == '\"' || c == '\\' || c == '\n' || c == '\r' || c == '\t' || c as int == 8 || c as int == 12 then 2
    else if c as int < 32 then 6
    else Utf8Bytes(c)
  }

  function TextBytes(text: string): nat {
    if |text| == 0 then 0 else TextBytes(text[..|text| - 1]) + EscapedBytes(text[|text| - 1])
  }

  function RawBytes(text: string): nat {
    if |text| == 0 then 0 else RawBytes(text[..|text| - 1]) + Utf8Bytes(text[|text| - 1])
  }

  datatype MessageRole = SystemRole | UserRole | AssistantRole | ToolRole

  /** A message; each tool call is held as its JSON text. */
  datatype Message = Message(role: MessageRole, content: string, toolCallId: Option<string>, toolCalls: seq<string>)

  function RoleBytes(role: MessageRole): nat {
    match role
    case SystemRole => 6
    case UserRole => 4
    case AssistantRole => 9
    case ToolRole => 4
  }

  function CallBytes(calls: seq<string>): nat {
    if |calls| == 0 then 0
    else RawBytes(calls[|calls| - 1]) + (if |calls| == 1 then 0 else 2) + CallBytes(calls[..|calls| - 1])
  }

  /** The four keys with their quotes, the quotes of role and content, all separators and brackets. */
  const KEY_BYTES: nat := 63

  /** Bytes of everything but the content's characters: keys, quotes, separators, call id and calls. */
  function FrameBytes(m: Message): nat {
    KEY_BYTES + RoleBytes(m.role)
    + (if m.toolCallId.None? then 4 else 2 + TextBytes(m.toolCallId.value)) + CallBytes(m.toolCalls)
  }

  function CeilThird(n: nat): (r: nat)
    ensures 3 * r - 2 <= n <= 3 * r
  {
    (n + 2) / 3
  }

  function EstimateMessage(m: Message): nat {
    CeilThird(FrameBytes(m) + TextBytes(m.content)) + 4
  }

  function EstimateMessages(ms: seq<Message>): nat {
    if |ms| == 0 then 0 else EstimateMessages(ms[..|ms| - 1]) + EstimateMessage(ms[|ms| - 1])
  }

  // ------------------------------------------------------------ serialization

  function HexDigit(n: nat): char
    requires n < 16
  {
    if n < 10 then (48 + n) as char else (87 + n) as char
  }

  /** One character inside a JSON string literal. */
  function EscapeJson(c: char): string {
    if c == '\"' then "\\\""
    else if c == '\\' then "\\\\"
    else if c == '\n' then "\\n"
    else if c == '\r' then "\\r"
    else if c == '\t' then "\\t"
    else if c as int == 8 then "\\b"
    else if c as int == 12 then "\\f"
    else if c as int < 32 then "\\u00" + [HexDigit(c as int / 16), HexDigit(c as int % 16)]
    else [c]
  }

  function EscapeText(text: string): string {
    if |text| == 0 then "" else EscapeText(text[..|text| - 1]) + EscapeJson(text[|text| - 1])
  }

  function RoleName(role: MessageRole): string {
    match role
    case SystemRole => "system"
    case UserRole => "user"
    case AssistantRole => "assistant"
    case ToolRole => "tool"
  }

  function JoinCalls(calls: seq<string>): string {
    if |calls| == 0 then ""
    else JoinCalls(calls[..|calls| - 1]) + (if |calls| == 1 then "" else ", ") + calls[|calls| - 1]
  }

  /** The JSON object whose size is estimated, as `json.dumps` writes it. */
  function Serialize(m: Message): string {
    "{\"role\": \"" + RoleName(m.role) + "\", \"content\": \"" + EscapeText(m.content) + "\", \"tool_call_id\": "
    + (if m.toolCallId.None? then "null" else "\"" + EscapeText(m.toolCallId.value) + "\"")
    + ", \"tool_calls\": [" + JoinCalls(m.toolCalls) + "]}"
  }

  lemma {:induction false} RawBytesConcat(a: string, b: string)
    ensures RawBytes(a + b) == RawBytes(a) + RawBytes(b)
  {
    if |b| == 0 {
      assert a + b == a;
    } else {
      RawBytesConcat(a, b[..|b| - 1]);
      assert (a + b)[..|a + b| - 1] == a + b[..|b| - 1];
    }
  }

  lemma {:induction false} AsciiBytes(s: string)
    requires forall i :: 0 <= i < |s| ==> s[i] as int < 128
    ensures RawBytes(s) == |s|
  {
    if |s| > 0 {
      AsciiBytes(s[..|s| - 1]);
    }
  }

  lemma {:induction false} EscapeJsonBytes(c: char)
    ensures RawBytes(EscapeJson(c)) == EscapedBytes(c)
  {
    if |EscapeJson(c)| == 1 {
      assert [c][..0] == "";
      assert RawBytes([c][..0]) == 0;
    } else {
      AsciiBytes(EscapeJson(c));
    }
  }

  lemma {:induction false} EscapeTextBytes(text: string)
    ensures RawBytes(EscapeText(text)) == TextBytes(text)
  {
    if |text| > 0 {
      EscapeTextBytes(text[..|text| - 1]);
      EscapeJsonBytes(text[|text| - 1]);
      RawBytesConcat(EscapeText(text[..|text| - 1]), EscapeJson(text[|text| - 1]));
    }
  }

  lemma {:induction false} JoinCallsBytes(calls: seq<string>)
    ensures RawBytes(JoinCalls(calls)) == CallBytes(calls)
  {
    if |calls| > 0 {
      var before, comma := JoinCalls(calls[..|calls| - 1]), if |calls| == 1 then "" else ", ";
      JoinCallsBytes(calls[..|calls| - 1]);
      AsciiBytes(comma);
      RawBytesConcat(before, comma);
      RawBytesConcat(before + comma, calls[|calls| - 1]);
    }
  }

  /** The size the estimate is computed from is the size of the serialized message. */
  lemma {:induction false} SerializedBytes(m: Message)
    ensures RawBytes(Serialize(m)) == FrameBytes(m) + TextBytes(m.content)
  {
    hide RawBytes, EscapeText, JoinCalls, CallBytes, TextBytes;
    var a, b, c := "{\"role\": \"", RoleName(m.role), "\", \"content\": \"";
    var d, e := EscapeText(m.content), "\", \"tool_call_id\": ";
    var f := if m.toolCallId.None? then "null" else "\"" + EscapeText(m.toolCallId.value) + "\"";
    var g, i, j := ", \"tool_calls\": [", JoinCalls(m.toolCalls), "]}";
    assert Serialize(m) == a + b + c + d + e + f + g + i + j;
    RawBytesConcat(a, b);
    RawBytesConcat(a + b, c);
    RawBytesConcat(a + b + c, d);
    RawBytesConcat(a + b + c + d, e);
    RawBytesConcat(a + b + c + d + e, f);
    RawBytesConcat(a + b + c + d + e + f, g);
    RawBytesConcat(a + b + c + d + e + f + g, i);
    RawBytesConcat(a + b + c + d + e + f + g + i, j);
    AsciiBytes(a);
    AsciiBytes(b);
    AsciiBytes(c);
    AsciiBytes(e);
    AsciiBytes(g);
    AsciiBytes(j);
    EscapeTextBytes(m.content);
    JoinCallsBytes(m.toolCalls);
    CallIdBytes(m.toolCallId);
  }

  lemma {:induction false} CallIdBytes(id: Option<string>)
    ensures RawBytes(if id.None? then "null" else "\"" + EscapeText(id.value) + "\"")
            == if id.None? then 4 else 2 + TextBytes(id.value)
  {
    if id.None? {
      AsciiBytes("null");
    } else {
      var text := EscapeText(id.value);
      AsciiBytes("\"");
      RawBytesConcat("\"", text);
      RawBytesConcat("\"" + text, "\"");
      EscapeTextBytes(id.value);
    }
  }

  /** The estimate is a third of the serialized bytes, rounded up, plus four. */
  lemma {:induction false} EstimateIsThird(m: Message)
    ensures EstimateMessage(m) >= 4 && 3 * (EstimateMessage(m) - 4) - 2 <= RawBytes(Serialize(m)) <= 3 * (EstimateMessage(m) - 4)
  {
    SerializedBytes(m);
  }

  lemma {:induction false} TextBytesConcat(a: string, b: string)
    ensures TextBytes(a + b) == TextBytes(a) + TextBytes(b)
  {
    if |b| == 0 {
      assert a + b == a;
    } else {
      TextBytesConcat(a, b[..|b| - 1]);
      assert (a + b)[..|a + b| - 1] == a + b[..|b| - 1];
    }
  }

  lemma {:induction false} EstimateConcat(a: seq<Message>, b: seq<Message>)
    ensures EstimateMessages(a + b) == EstimateMessages(a) + EstimateMessages(b)
  {
    if |b| == 0 {
      assert a + b == a;
    } else {
      EstimateConcat(a, b[..|b| - 1]);
      assert (a + b)[..|a + b| - 1] == a + b[..|b| - 1];
    }
  }

  lemma {:induction false} EstimateOne(m: Message)
    ensures EstimateMessages([m]) == EstimateMessage(m)
  {
    assert [m][..0] == [];
    assert EstimateMessages([m][..0]) == 0;
  }

  function Merged(first: Message, memory: Message): Message {
    first.(content := first.content + "\n\n" + memory.content)
  }

  /** Appending one message's text to another costs no more than sending it on its own. */
  lemma {:induction false} MergingIsCheaper(first: Message, memory: Message)
    ensures EstimateMessage(Merged(first, memory)) <= EstimateMessage(first) + EstimateMessage(memory)
  {
    TextBytesConcat(first.content + "\n\n", memory.content);
    TextBytesConcat(first.content, "\n\n");
    NewlinesBytes();
    var frame, text := FrameBytes(first) + TextBytes(first.content), TextBytes(memory.content);
    assert FrameBytes(Merged(first, memory)) == FrameBytes(first);
    assert TextBytes(Merged(first, memory).content) == TextBytes(first.content) + 4 + text;
    assert CeilThird(frame + 4 + text) <= CeilThird(frame) + CeilThird(FrameBytes(memory) + text);
  }

  lemma {:induction false} NewlinesBytes()
    ensures TextBytes("\n\n") == 4
  {
    assert "\n\n"[..1] == "\n" && "\n"[..0] == "";
    assert TextBytes("\n"[..0]) == 0;
    assert TextBytes("\n") == 2;
  }
}
