/**
 JSON Pointer text as in RFC 6901: escaping of reference tokens (section 4), joining
 and splitting of pointers, and decimal array indices.
 */
module JsonPointer {
  import opened Wrappers
  import opened ContextText

  // ---------------------------------------------------------------- escaping

  /** `s.replace(a, r)` for one character. */
  function ReplaceChar(s: string, a: char, r: string): string {
    if |s| == 0 then "" else (if s[0] == a then r else [s[0]]) + ReplaceChar(s[1..], a, r)
  }

  /** `s.replace(ab, c)` for a pair of characters, left to right. */
  function ReplacePair(s: string, a: char, b: char, c: char): string {
    if |s| < 2 then s
    else if s[0] == a && s[1] == b then [c] + ReplacePair(s[2..], a, b, c)
    else [s[0]] + ReplacePair(s[1..], a, b, c)
  }

  function Escape(key: string): string {
    ReplaceChar(ReplaceChar(key, '~', "~0"), '/', "~1")
  }

  function Unescape(token: string): string {
    ReplacePair(ReplacePair(token, '~', '1', '/'), '~', '0', '~')
  }

  /** The token grammar of the RFC: `~` only as `~0` or `~1`, and no `/`. */
  predicate ValidToken(t: string) {
    |t| == 0
    || (t[0] != '~' && t[0] != '/' && ValidToken(t[1..]))
    || (|t| >= 2 && t[0] == '~' && (t[1] == '0' || t[1] == '1') && ValidToken(t[2..]))
  }

  function EscapeOne(c: char): string {
    if c == '~' then "~0" else if c == '/' then "~1" else [c]
  }

  lemma {:induction false} EscapeFront(key: string)
    requires |key| > 0
    ensures Escape(key) == EscapeOne(key[0]) + Escape(key[1..])
  {
    var rest := ReplaceChar(key[1..], '~', "~0");
    if key[0] == '~' {
      var all := "~0" + rest;
      assert all[1..] == "0" + rest && all[1..][1..] == rest;
      assert ReplaceChar(all, '/', "~1") == "~" + ReplaceChar(all[1..], '/', "~1");
      assert ReplaceChar(all[1..], '/', "~1") == "0" + ReplaceChar(rest, '/', "~1");
    } else {
      assert ([key[0]] + rest)[1..] == rest;
    }
  }

  lemma {:induction false} UnescapeFront(c: char, s: string)
    ensures Unescape(EscapeOne(c) + s) == [c] + Unescape(s)
  {
    var t := ReplacePair(s, '~', '1', '/');
    if c == '~' {
      var all := "~0" + s;
      PlainFront('0', s, '~', '1', '/');
      assert all[1..] == ['0'] + s;
      assert ReplacePair(all, '~', '1', '/') == "~" + ReplacePair(['0'] + s, '~', '1', '/');
      assert ReplacePair(all, '~', '1', '/') == "~0" + t;
      assert ("~0" + t)[2..] == t;
    } else if c == '/' {
      var all := "~1" + s;
      assert all[2..] == s;
      assert ReplacePair(all, '~', '1', '/') == ['/'] + t;
      PlainFront('/', t, '~', '0', '~');
    } else {
      PlainFront(c, s, '~', '1', '/');
      PlainFront(c, t, '~', '0', '~');
    }
  }

  lemma {:induction false} PlainFront(c: char, s: string, a: char, b: char, r: char)
    requires c != a
    ensures ReplacePair([c] + s, a, b, r) == [c] + ReplacePair(s, a, b, r)
  {
    var all := [c] + s;
    if |s| > 0 {
      assert all[1..] == s;
    } else {
      assert all == [c];
    }
  }

  /** Unescaping undoes escaping for every key. */
  lemma {:induction false} UnescapeEscape(key: string)
    ensures Unescape(Escape(key)) == key
  {
    if |key| > 0 {
      EscapeFront(key);
      UnescapeFront(key[0], Escape(key[1..]));
      UnescapeEscape(key[1..]);
    }
  }

  lemma {:induction false} EscapeIsValid(key: string)
    ensures ValidToken(Escape(key)) && '/' !in Escape(key)
  {
    if |key| > 0 {
      EscapeFront(key);
      EscapeIsValid(key[1..]);
      var head, tail := EscapeOne(key[0]), Escape(key[1..]);
      assert (head + tail)[|head|..] == tail;
    }
  }

  /** Escaping undoes unescaping exactly on the tokens of the grammar. */
  lemma {:induction false} EscapeUnescapeIff(token: string)
    ensures Escape(Unescape(token)) == token <==> ValidToken(token)
  {
    if ValidToken(token) {
      EscapeUnescape(token);
    } else {
      EscapeIsValid(Unescape(token));
    }
  }

  lemma {:induction false} EscapeUnescape(token: string)
    requires ValidToken(token)
    ensures Escape(Unescape(token)) == token
  {
    if |token| > 0 {
      var c := if token[0] != '~' then token[0] else if token[1] == '0' then '~' else '/';
      var n := |EscapeOne(c)|;
      assert token == EscapeOne(c) + token[n..];
      UnescapeFront(c, token[n..]);
      EscapeUnescape(token[n..]);
      var key := [c] + Unescape(token[n..]);
      assert key[1..] == Unescape(token[n..]);
      EscapeFront(key);
    }
  }

  // --------------------------------------------------------- joining, splitting

  function Join(parts: seq<string>): string {
    if |parts| == 0 then "" else "/" + Escape(parts[0]) + Join(parts[1..])
  }

  /** `s.split("/")`. */
  function Split(s: string): (r: seq<string>)
    ensures |r| > 0
  {
    if |s| == 0 then [""]
    else if s[0] == '/' then [""] + Split(s[1..])
    else
      var r := Split(s[1..]);
      [[s[0]] + r[0]] + r[1..]
  }

  function UnescapeAll(tokens: seq<string>): seq<string> {
    seq(|tokens|, i requires 0 <= i < |tokens| => Unescape(tokens[i]))
  }

  /** The reference tokens of a pointer. */
  function ParsePointer(pointer: string): seq<string> {
    UnescapeAll(Split(pointer)[1..])
  }

  lemma {:induction false} SplitToken(token: string, rest: string)
    requires '/' !in token && (|rest| == 0 || rest[0] == '/')
    ensures Split(token + rest) == [token] + Split(rest)[1..]
  {
    if |token| == 0 {
      assert token + rest == rest;
    } else {
      assert (token + rest)[1..] == token[1..] + rest && (token + rest)[0] == token[0] && token[0] in token;
      SplitToken(token[1..], rest);
      assert [token[0]] + token[1..] == token;
    }
  }

  /** Parsing a joined pointer gives back its parts, whatever characters they hold. */
  lemma {:induction false} ParseJoin(parts: seq<string>)
    ensures ParsePointer(Join(parts)) == parts
    decreases |parts|
  {
    if |parts| > 0 {
      var token, rest := Escape(parts[0]), Join(parts[1..]);
      EscapeIsValid(parts[0]);
      UnescapeEscape(parts[0]);
      ParseJoin(parts[1..]);
      assert Join(parts) == "/" + (token + rest) && Join(parts)[1..] == token + rest;
      assert |rest| == 0 || rest[0] == '/';
      SplitToken(token, rest);
      assert Split(Join(parts)) == [""] + Split(token + rest);
      assert Split(Join(parts))[1..] == [token] + Split(rest)[1..];
      assert ParsePointer(Join(parts)) == [parts[0]] + ParsePointer(rest);
    }
  }

  lemma {:induction false} JoinAppend(parts: seq<string>, last: string)
    ensures Join(parts + [last]) == Join(parts) + "/" + Escape(last)
    decreases |parts|
  {
    if |parts| == 0 {
      assert parts + [last] == [last];
      assert Join([last][1..]) == "";
    } else {
      JoinAppend(parts[1..], last);
      assert (parts + [last])[1..] == parts[1..] + [last];
      assert "/" + Escape(parts[0]) + (Join(parts[1..]) + "/" + Escape(last)) == Join(parts) + "/" + Escape(last);
    }
  }

  // ------------------------------------------------------------------ indices

  predicate IsDigits(s: string) {
    |s| > 0 && forall i :: 0 <= i < |s| ==> '0' <= s[i] <= '9'
  }

  function Value(s: string): nat
    requires forall i :: 0 <= i < |s| ==> '0' <= s[i] <= '9'
  {
    if |s| == 0 then 0 else Value(s[..|s| - 1]) * 10 + (s[|s| - 1] as int - '0' as int)
  }

  /** The index a token denotes in a list, if it consists of digits. */
  function Index(token: string): Option<nat> {
    if IsDigits(token) then Some(Value(token)) else None
  }

  lemma {:induction false} IndexOfDigits(n: nat)
    ensures Index(Digits(n)) == Some(n)
  {
    DigitsAreDigits(n);
    var s := Digits(n);
    if n < 10 {
      assert s[..0] == "";
      assert Value(s[..0]) == 0;
    } else {
      IndexOfDigits(n / 10);
      assert s[..|s| - 1] == Digits(n / 10);
    }
  }

  lemma {:induction false} DigitsAreDigits(n: nat)
    ensures IsDigits(Digits(n))
  {
    if n >= 10 {
      DigitsAreDigits(n / 10);
    }
  }

  lemma {:induction false} PlainIsEscaped(s: string)
    requires '~' !in s && '/' !in s
    ensures Escape(s) == s
  {
    if |s| > 0 {
      EscapeFront(s);
      assert s[0] in s;
      assert forall c :: c in s[1..] ==> c in s;
      PlainIsEscaped(s[1..]);
    }
  }

  lemma {:induction false} DigitsEscaped(n: nat)
    ensures Escape(Digits(n)) == Digits(n)
  {
    DigitsAreDigits(n);
    PlainIsEscaped(Digits(n));
  }
}
