/**
 Secret-safe tool arguments: redaction, credential references put in and resolved at
 JSON pointers, and the check in front of execution. Arguments that come back are the
 original ones; anything else is refused.
 */
module SecretArguments {
  import opened Wrappers
  import opened ContextText
  import opened JsonPointer

  // ------------------------------------------------------------------- values

  datatype Json = Null | Bool(b: bool) | Num(n: int) | Str(s: string) | List(items: seq<Json>) | Dict(entries: seq<Entry>)

  datatype Entry = Entry(key: string, value: Json)

  const MARK: string := "[REDACTED]"
  const CREDENTIAL: string := "$credential_ref"

  predicate OccursAt(s: string, part: string, i: nat) {
    i + |part| <= |s| && s[i..i + |part|] == part
  }

  predicate Contains(s: string, part: string) {
    exists i :: 0 <= i <= |s| && OccursAt(s, part, i)
  }

  function Arity(v: Json): nat {
    match v
    case List(items) => |items|
    case Dict(entries) => |entries|
    case _ => 0
  }

  function Child(v: Json, i: nat): (c: Json)
    requires i < Arity(v)
    ensures c < v
  {
    if v.List? then v.items[i]
    else
      assert v.entries[i] < v;
      v.entries[i].value
  }

  function WithChild(v: Json, i: nat, x: Json): (w: Json)
    requires i < Arity(v)
    ensures Arity(w) == Arity(v) && SameNode(v, w)
    ensures forall j :: 0 <= j < Arity(v) ==> Child(w, j) == if j == i then x else Child(v, j)
  {
    if v.List? then List(v.items[i := x]) else Dict(v.entries[i := v.entries[i].(value := x)])
  }

  /** Same scalar, or same kind of container with the same keys or length. */
  predicate SameNode(v: Json, w: Json) {
    match v
    case List(items) => w.List? && |w.items| == |items|
    case Dict(entries) =>
      w.Dict? && |w.entries| == |entries| && forall i :: 0 <= i < |entries| ==> w.entries[i].key == entries[i].key
    case _ => w == v
  }

  lemma {:induction false} NodesEqual(v: Json, w: Json)
    requires SameNode(v, w) && forall i :: 0 <= i < Arity(v) ==> Child(v, i) == Child(w, i)
    ensures v == w
  {
    if v.List? {
      assert forall i :: 0 <= i < Arity(v) ==> Child(v, i) == v.items[i] && Child(w, i) == w.items[i];
      assert v.items == w.items;
    } else if v.Dict? {
      forall i | 0 <= i < |v.entries|
        ensures v.entries[i] == w.entries[i]
      {
        assert Child(v, i) == Child(w, i);
      }
      assert v.entries == w.entries;
    }
  }

  // ------------------------------------------------------------------ pointers

  function Find(entries: seq<Entry>, key: string, from: nat): (r: Option<nat>)
    requires from <= |entries|
    ensures r.Some? ==> r.value < |entries| && entries[r.value].key == key
    ensures r.None? ==> forall i :: from <= i < |entries| ==> entries[i].key != key
    decreases |entries| - from
  {
    if from == |entries| then None else if entries[from].key == key then Some(from) else Find(entries, key, from + 1)
  }

  /** The child a token names: a key of an object, or an index into a list. */
  function Locate(v: Json, token: string): (r: Option<nat>)
    ensures r.Some? ==> r.value < Arity(v)
  {
    match v
    case Dict(entries) => Find(entries, token, 0)
    case List(items) =>
      (match Index(token)
       case Some(n) => if n < |items| then Some(n) else None
       case None => None)
    case _ => None
  }

  function Get(v: Json, path: seq<string>): Option<Json>
    decreases |path|
  {
    if |path| == 0 then Some(v)
    else
      match Locate(v, path[0])
      case None => None
      case Some(i) => Get(Child(v, i), path[1..])
  }

  /** Replace the value that the path leads to; nothing when the path does not exist. */
  function Set(v: Json, path: seq<string>, x: Json): Option<Json>
    decreases |path|
  {
    if |path| == 0 then Some(x)
    else
      match Locate(v, path[0])
      case None => None
      case Some(i) =>
        match Set(Child(v, i), path[1..], x)
        case None => None
        case Some(w) => Some(WithChild(v, i, w))
  }

  lemma {:induction false} FindSame(a: seq<Entry>, b: seq<Entry>, key: string, from: nat)
    requires |a| == |b| && from <= |a| && forall i :: 0 <= i < |a| ==> a[i].key == b[i].key
    ensures Find(a, key, from) == Find(b, key, from)
    decreases |a| - from
  {
    if from < |a| {
      FindSame(a, b, key, from + 1);
    }
  }

  lemma {:induction false} LocateSame(v: Json, w: Json, token: string)
    requires SameNode(v, w)
    ensures Locate(v, token) == Locate(w, token)
  {
    if v.Dict? {
      FindSame(v.entries, w.entries, token, 0);
    }
  }

  /** A path can be written exactly when it can be read. */
  lemma {:induction false} SetIffGet(v: Json, path: seq<string>, x: Json)
    ensures Set(v, path, x).Some? <==> Get(v, path).Some?
    decreases |path|
  {
    if |path| > 0 && Locate(v, path[0]).Some? {
      SetIffGet(Child(v, Locate(v, path[0]).value), path[1..], x);
    }
  }

  /** What is written is what is read. */
  lemma {:induction false} GetSet(v: Json, path: seq<string>, x: Json)
    requires Set(v, path, x).Some?
    ensures Get(Set(v, path, x).value, path) == Some(x)
    decreases |path|
  {
    if |path| > 0 {
      var i := Locate(v, path[0]).value;
      var w := Set(Child(v, i), path[1..], x).value;
      GetSet(Child(v, i), path[1..], x);
      LocateSame(v, WithChild(v, i, w), path[0]);
    }
  }

  /** Two tokens that no value resolves to the same child. */
  predicate TokensApart(a: string, b: string) {
    a != b && (Index(a).None? || Index(b).None? || Index(a) != Index(b))
  }

  /** Paths that part ways: neither leads into the value of the other. */
  predicate Apart(p: seq<string>, q: seq<string>)
    decreases |p|
  {
    |p| > 0 && |q| > 0 && (TokensApart(p[0], q[0]) || (p[0] == q[0] && Apart(p[1..], q[1..])))
  }

  lemma {:induction false} ApartSymmetric(p: seq<string>, q: seq<string>)
    ensures Apart(p, q) <==> Apart(q, p)
    decreases |p|
  {
    if |p| > 0 && |q| > 0 {
      ApartSymmetric(p[1..], q[1..]);
    }
  }

  /** Writing at one path does not change what is read at a path apart from it. */
  lemma {:induction false} GetSetApart(v: Json, p: seq<string>, q: seq<string>, x: Json)
    requires Apart(p, q) && Set(v, p, x).Some?
    ensures Get(Set(v, p, x).value, q) == Get(v, q)
    decreases |p|
  {
    var i := Locate(v, p[0]).value;
    var w := Set(Child(v, i), p[1..], x).value;
    LocateSame(v, WithChild(v, i, w), q[0]);
    if p[0] == q[0] {
      if Apart(p[1..], q[1..]) {
        GetSetApart(Child(v, i), p[1..], q[1..], x);
      }
    } else {
      assert Locate(v, q[0]) != Some(i);
    }
  }

  // --------------------------------------------------------- counting markers

  datatype Kind = MarkedText | CredentialKey

  predicate HasCredentialKey(v: Json) {
    v.Dict? && Find(v.entries, CREDENTIAL, 0).Some?
  }

  function Own(kind: Kind, v: Json): nat {
    match kind
    case MarkedText => if v.Str? && Contains(v.s, MARK) then 1 else 0
    case CredentialKey => if HasCredentialKey(v) then 1 else 0
  }

  /** How many marked strings, or objects with a credential key, the value holds. */
  function Count(kind: Kind, v: Json): nat
    decreases v, Arity(v) + 1
  {
    Own(kind, v) + CountBelow(kind, v, Arity(v))
  }

  function CountBelow(kind: Kind, v: Json, n: nat): nat
    requires n <= Arity(v)
    decreases v, n
  {
    if n == 0 then 0 else CountBelow(kind, v, n - 1) + Count(kind, Child(v, n - 1))
  }

  lemma {:induction false} CountWithChild(kind: Kind, v: Json, i: nat, x: Json, n: nat)
    requires i < Arity(v) && n <= Arity(v)
    ensures CountBelow(kind, WithChild(v, i, x), n) + (if i < n then Count(kind, Child(v, i)) else 0)
            == CountBelow(kind, v, n) + (if i < n then Count(kind, x) else 0)
    decreases n
  {
    hide Count, WithChild, SameNode;
    if n > 0 {
      CountWithChild(kind, v, i, x, n - 1);
    }
  }

  lemma {:induction false} OwnSame(kind: Kind, v: Json, i: nat, x: Json)
    requires i < Arity(v)
    ensures Own(kind, WithChild(v, i, x)) == Own(kind, v)
  {
    if v.Dict? {
      FindSame(v.entries, WithChild(v, i, x).entries, CREDENTIAL, 0);
    }
  }

  /** Conservation: a write takes away what was counted in the old value and adds what the new one holds. */
  lemma {:induction false} CountSet(kind: Kind, v: Json, path: seq<string>, x: Json)
    requires Set(v, path, x).Some?
    ensures Get(v, path).Some?
            && Count(kind, Set(v, path, x).value) + Count(kind, Get(v, path).value) == Count(kind, v) + Count(kind, x)
    decreases |path|
  {
    hide CountBelow, Own, Locate, WithChild, SameNode, Child;
    if |path| > 0 {
      var i := Locate(v, path[0]).value;
      var w := Set(Child(v, i), path[1..], x).value;
      CountSet(kind, Child(v, i), path[1..], x);
      CountWithChild(kind, v, i, w, Arity(v));
      OwnSame(kind, v, i, w);
    }
  }

  lemma {:induction false} CountChild(kind: Kind, v: Json, i: nat, n: nat)
    requires i < n <= Arity(v)
    ensures Count(kind, Child(v, i)) <= CountBelow(kind, v, n)
    decreases n
  {
    if i < n - 1 {
      CountChild(kind, v, i, n - 1);
    }
  }

  lemma {:induction false} CountPart(kind: Kind, v: Json, path: seq<string>)
    requires Get(v, path).Some?
    ensures Count(kind, Get(v, path).value) <= Count(kind, v)
    decreases |path|
  {
    hide CountBelow, Own, Locate, Child;
    if |path| > 0 {
      var i := Locate(v, path[0]).value;
      CountPart(kind, Child(v, i), path[1..]);
      CountChild(kind, v, i, Arity(v));
    }
  }

  // ------------------------------------------------------------- executability

  /** `assert_executable_tool_arguments`. */
  predicate Executable(v: Json)
    decreases v
  {
    match v
    case Str(s) => !Contains(s, MARK)
    case Dict(entries) => !HasCredentialKey(v) && forall i :: 0 <= i < Arity(v) ==> Executable(Child(v, i))
    case List(items) => forall i :: 0 <= i < Arity(v) ==> Executable(Child(v, i))
    case _ => true
  }

  /** Arguments are executable exactly when they hold no marked string and no credential key. */
  lemma {:induction false} ExecutableIff(v: Json)
    ensures Executable(v) <==> Count(MarkedText, v) == 0 && Count(CredentialKey, v) == 0
    decreases v, 0
  {
    hide CountBelow, Contains, Find;
    forall i | 0 <= i < Arity(v)
      ensures Executable(Child(v, i)) <==> Count(MarkedText, Child(v, i)) == 0 && Count(CredentialKey, Child(v, i)) == 0
    {
      ExecutableIff(Child(v, i));
    }
    NoneBelow(MarkedText, v, Arity(v));
    NoneBelow(CredentialKey, v, Arity(v));
  }

  lemma {:induction false} NoneBelow(kind: Kind, v: Json, n: nat)
    requires n <= Arity(v)
    ensures CountBelow(kind, v, n) == 0 <==> forall i :: 0 <= i < n ==> Count(kind, Child(v, i)) == 0
    decreases n
  {
    if n > 0 {
      NoneBelow(kind, v, n - 1);
    }
  }

  // ----------------------------------------------------------------- redaction

  /** What the redactor does to a text and which keys it takes for sensitive. */
  datatype Redactor = Redactor(text: string -> string, sensitive: string -> bool)

  /** Text is left alone or ends up holding the marker. */
  ghost predicate Marks(r: Redactor) {
    forall s :: r.text(s) == s || Contains(r.text(s), MARK)
  }

  predicate IsCredentialMarker(v: Json) {
    v.Dict? && |v.entries| == 1 && v.entries[0].key == CREDENTIAL && v.entries[0].value.Str?
    && "credential://" <= v.entries[0].value.s
  }

  function Redact(v: Json, r: Redactor): Json
    decreases v
  {
    match v
    case Str(s) => Str(r.text(s))
    case List(items) => List(seq(Arity(v), i requires 0 <= i < Arity(v) => Redact(Child(v, i), r)))
    case Dict(entries) =>
      Dict(seq(Arity(v), i requires 0 <= i < Arity(v) =>
        Entry(entries[i].key,
              if r.sensitive(entries[i].key) && !IsCredentialMarker(Child(v, i)) then Str(MARK) else Redact(Child(v, i), r))))
    case _ => v
  }

  /** `s` shows `a` except where it holds a marked string or a credential object. */
  ghost predicate Veiled(a: Json, s: Json)
    decreases a
  {
    || (s.Str? && Contains(s.s, MARK))
    || HasCredentialKey(s)
    || (SameNode(a, s) && forall i :: 0 <= i < Arity(a) ==> Veiled(Child(a, i), Child(s, i)))
  }

  lemma {:induction false} MarkContainsMark()
    ensures Contains(MARK, MARK)
  {
    assert OccursAt(MARK, MARK, 0);
  }

  lemma {:induction false} RedactVeils(v: Json, r: Redactor)
    requires Marks(r)
    ensures Veiled(v, Redact(v, r))
    decreases v
  {
    MarkContainsMark();
    forall i | 0 <= i < Arity(v)
      ensures Veiled(Child(v, i), Redact(Child(v, i), r))
    {
      RedactVeils(Child(v, i), r);
    }
  }

  lemma {:induction false} RedactChild(v: Json, r: Redactor)
    ensures var w := Redact(v, r);
            && Arity(w) == Arity(v) && HasCredentialKey(w) == HasCredentialKey(v)
            && forall i :: 0 <= i < Arity(v) ==> Child(w, i) == Str(MARK) || Child(w, i) == Redact(Child(v, i), r)
  {
    if v.Dict? {
      FindSame(v.entries, Redact(v, r).entries, CREDENTIAL, 0);
    }
  }

  /** Redaction brings in no credential key. */
  lemma {:induction false} RedactAddsNoCredential(v: Json, r: Redactor)
    requires Count(CredentialKey, v) == 0
    ensures Count(CredentialKey, Redact(v, r)) == 0
    decreases v
  {
    hide Redact, CountBelow, HasCredentialKey;
    var w := Redact(v, r);
    RedactChild(v, r);
    NoneBelow(CredentialKey, v, Arity(v));
    PlainText(MARK);
    forall i | 0 <= i < Arity(w)
      ensures Count(CredentialKey, Child(w, i)) == 0
    {
      RedactAddsNoCredential(Child(v, i), r);
    }
    NoneBelow(CredentialKey, w, Arity(w));
  }

  lemma {:induction false} PlainText(s: string)
    ensures Count(CredentialKey, Str(s)) == 0
  {
    hide Contains, Find;
  }

  /** A veiled value that is executable hides nothing. */
  lemma {:induction false} UnveiledIsOriginal(a: Json, s: Json)
    requires Veiled(a, s) && Executable(s)
    ensures s == a
    decreases a
  {
    forall i | 0 <= i < Arity(a)
      ensures Child(a, i) == Child(s, i)
    {
      UnveiledIsOriginal(Child(a, i), Child(s, i));
    }
    NodesEqual(a, s);
  }

  /** Writing a credential object anywhere keeps the veil. */
  lemma {:induction false} VeilCredential(a: Json, s: Json, path: seq<string>, x: Json)
    requires Veiled(a, s) && Set(s, path, x).Some? && HasCredentialKey(x)
    ensures Veiled(a, Set(s, path, x).value)
    decreases |path|
  {
    if |path| > 0 {
      var i := Locate(s, path[0]).value;
      var w := Set(Child(s, i), path[1..], x).value;
      OwnSame(CredentialKey, s, i, w);
      if !HasCredentialKey(s) {
        VeilCredential(Child(a, i), Child(s, i), path[1..], x);
      }
    }
  }

  /** So does writing back the true value. */
  lemma {:induction false} VeilTruth(a: Json, s: Json, path: seq<string>, x: string)
    requires Veiled(a, s) && Set(s, path, Str(x)).Some? && Get(a, path) == Some(Str(x))
    ensures Veiled(a, Set(s, path, Str(x)).value)
    decreases |path|
  {
    if |path| > 0 {
      var i := Locate(s, path[0]).value;
      var w := Set(Child(s, i), path[1..], Str(x)).value;
      OwnSame(CredentialKey, s, i, w);
      if !HasCredentialKey(s) {
        LocateSame(a, s, path[0]);
        VeilTruth(Child(a, i), Child(s, i), path[1..], x);
      }
    }
  }
}
