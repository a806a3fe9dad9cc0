/**
 Persisting tool arguments and materializing them again: the result is the original
 arguments or a refusal, decided by whether anything was redacted.
 */
module SecretRoundTrip {
  import opened Wrappers
  import opened ContextText
  import opened JsonPointer
  import opened SecretArguments

  // ------------------------------------------------------------ redacted paths

  /** The token that names a child. */
  function Token(v: Json, i: nat): string
    requires i < Arity(v)
  {
    if v.Dict? then v.entries[i].key else Digits(i)
  }

  function Extended(path: string, v: Json, i: nat): string
    requires i < Arity(v)
  {
    path + "/" + (if v.Dict? then Escape(v.entries[i].key) else Digits(i))
  }

  /** `_collect_redacted_paths`, in the order of its walk. */
  function Collect(v: Json, path: string): seq<string>
    decreases v, Arity(v) + 1
  {
    if v.Str? then (if Contains(v.s, MARK) then [if path == "" then "/" else path] else [])
    else CollectBelow(v, path, Arity(v))
  }

  function CollectBelow(v: Json, path: string, n: nat): seq<string>
    requires n <= Arity(v)
    decreases v, n
  {
    if n == 0 then [] else CollectBelow(v, path, n - 1) + Collect(Child(v, n - 1), Extended(path, v, n - 1))
  }

  /** One path per marked string. */
  lemma {:induction false} CollectCounts(v: Json, path: string)
    ensures |Collect(v, path)| == Count(MarkedText, v)
    decreases v, Arity(v) + 1
  {
    hide Contains;
    if !v.Str? {
      CollectBelowCounts(v, path, Arity(v));
    }
  }

  lemma {:induction false} CollectBelowCounts(v: Json, path: string, n: nat)
    requires n <= Arity(v)
    ensures |CollectBelow(v, path, n)| == CountBelow(MarkedText, v, n)
    decreases v, n
  {
    if n > 0 {
      CollectBelowCounts(v, path, n - 1);
      CollectCounts(Child(v, n - 1), Extended(path, v, n - 1));
    }
  }

  /** Executable means: no redacted path to report and no credential key anywhere. */
  lemma {:induction false} ExecutableIffNothingReported(v: Json)
    ensures Executable(v) <==> Collect(v, "") == [] && Count(CredentialKey, v) == 0
  {
    hide Executable, Collect, Count;
    ExecutableIff(v);
    CollectCounts(v, "");
  }

  /** The keys of every object are distinct, as in any dictionary. */
  ghost predicate WellFormed(v: Json)
    decreases v
  {
    && (v.Dict? ==> forall i, j :: 0 <= i < j < |v.entries| ==> v.entries[i].key != v.entries[j].key)
    && forall i :: 0 <= i < Arity(v) ==> WellFormed(Child(v, i))
  }

  lemma {:induction false} TokenLocates(v: Json, i: nat)
    requires WellFormed(v) && i < Arity(v)
    ensures Locate(v, Token(v, i)) == Some(i)
  {
    if v.List? {
      IndexOfDigits(i);
    }
  }

  /** The path leads, by the walk that writes use, to a string that holds the marker. */
  ghost predicate LeadsToMark(v: Json, path: seq<string>) {
    var target := Get(v, path);
    target.Some? && target.value.Str? && Contains(target.value.s, MARK)
  }

  lemma {:induction false} CollectLeads(v: Json, parts: seq<string>, p: string) returns (more: seq<string>)
    requires WellFormed(v) && p in Collect(v, Join(parts)) && (v.Str? ==> |parts| > 0)
    ensures p == Join(parts + more) && LeadsToMark(v, more)
    decreases v, Arity(v) + 1
  {
    hide Contains;
    if v.Str? {
      more := [];
      assert parts + more == parts;
      assert Join(parts) != "";
    } else {
      more := CollectBelowLeads(v, parts, p, Arity(v));
    }
  }

  lemma {:induction false} CollectBelowLeads(v: Json, parts: seq<string>, p: string, n: nat) returns (more: seq<string>)
    requires WellFormed(v) && n <= Arity(v) && p in CollectBelow(v, Join(parts), n)
    ensures p == Join(parts + more) && LeadsToMark(v, more)
    decreases v, n
  {
    hide Join, Collect, Extended, Token, LeadsToMark;
    if p in CollectBelow(v, Join(parts), n - 1) {
      more := CollectBelowLeads(v, parts, p, n - 1);
    } else {
      var token := Token(v, n - 1);
      ExtendedIsJoin(v, parts, n - 1);
      var rest := CollectLeads(Child(v, n - 1), parts + [token], p);
      more := [token] + rest;
      assert parts + more == parts + [token] + rest;
      StepLeads(v, n - 1, rest);
    }
  }

  lemma {:induction false} StepLeads(v: Json, i: nat, rest: seq<string>)
    requires WellFormed(v) && i < Arity(v) && LeadsToMark(Child(v, i), rest)
    ensures LeadsToMark(v, [Token(v, i)] + rest)
  {
    hide Contains, WellFormed;
    TokenLocates(v, i);
    assert ([Token(v, i)] + rest)[1..] == rest;
  }

  lemma {:induction false} ExtendedIsJoin(v: Json, parts: seq<string>, i: nat)
    requires i < Arity(v)
    ensures Extended(Join(parts), v, i) == Join(parts + [Token(v, i)])
  {
    JoinAppend(parts, Token(v, i));
    DigitsEscaped(i);
  }

  /** Every reported path, read as a JSON pointer, leads to a marked string of the arguments. */
  lemma {:induction false} ReportedPathsLead(v: Json, p: string)
    requires WellFormed(v) && !v.Str? && p in Collect(v, "")
    ensures LeadsToMark(v, ParsePointer(p))
  {
    hide LeadsToMark;
    var more := CollectLeads(v, [], p);
    assert [] + more == more;
    ParseJoin(more);
  }

  // ------------------------------------------------------ persist, materialize

  datatype Binding = Binding(path: string, reference: string)

  datatype Persisted = Persisted(arguments: Json, bindings: seq<Binding>, redactedPaths: seq<string>)

  datatype ArgumentError = NoSuchPath | UnresolvedArgument

  function CredentialObject(reference: string): Json {
    Dict([Entry(CREDENTIAL, Str(reference))])
  }

  function PathOf(b: Binding): seq<string> {
    ParsePointer(b.path)
  }

  /** `_set_json_pointer`: the whole value itself cannot be replaced. */
  function Put(v: Json, path: seq<string>, x: Json): Option<Json> {
    if |path| == 0 then None else Set(v, path, x)
  }

  /** One write per binding, in order. */
  function PutEach(v: Json, bindings: seq<Binding>, value: Binding -> Json): Option<Json> {
    if |bindings| == 0 then Some(v)
    else
      var b := bindings[|bindings| - 1];
      match PutEach(v, bindings[..|bindings| - 1], value)
      case None => None
      case Some(w) => Put(w, PathOf(b), value(b))
  }

  function Sealed(b: Binding): Json {
    CredentialObject(b.reference)
  }

  function PersistSpec(arguments: Json, bindings: seq<Binding>, r: Redactor): Result<Persisted, ArgumentError> {
    match PutEach(Redact(arguments, r), bindings, Sealed)
    case None => Failure(NoSuchPath)
    case Some(safe) => Success(Persisted(safe, bindings, Collect(safe, "")))
  }

  function MaterializeSpec(p: Persisted, resolver: string -> string): Result<Json, ArgumentError> {
    match PutEach(p.arguments, p.bindings, (b: Binding) => Str(resolver(b.reference)))
    case None => Failure(NoSuchPath)
    case Some(v) => if Executable(v) then Success(v) else Failure(UnresolvedArgument)
  }

  lemma {:induction false} PutEachStops(v: Json, bindings: seq<Binding>, value: Binding -> Json, n: nat)
    requires n <= |bindings| && PutEach(v, bindings[..n], value).None?
    ensures PutEach(v, bindings, value).None?
    decreases |bindings|
  {
    if n == |bindings| {
      assert bindings[..n] == bindings;
    } else {
      assert bindings[..|bindings| - 1][..n] == bindings[..n];
      PutEachStops(v, bindings[..|bindings| - 1], value, n);
    }
  }

  method PutLoop(v: Json, bindings: seq<Binding>, value: Binding -> Json) returns (r: Option<Json>)
    ensures r == PutEach(v, bindings, value)
  {
    hide Set, ParsePointer;
    var current := v;
    var i := 0;
    while i < |bindings|
      invariant 0 <= i <= |bindings| && PutEach(v, bindings[..i], value) == Some(current)
    {
      assert bindings[..i + 1][..i] == bindings[..i];
      match Put(current, PathOf(bindings[i]), value(bindings[i])) {
      case None =>
        PutEachStops(v, bindings, value, i + 1);
        return None;
      case Some(next) =>
        current := next;
      }
      i := i + 1;
    }
    assert bindings[..|bindings|] == bindings;
    return Some(current);
  }

  method PersistToolArguments(arguments: Json, bindings: seq<Binding>, r: Redactor) returns (p: Result<Persisted, ArgumentError>)
    ensures p == PersistSpec(arguments, bindings, r)
  {
    var safe := PutLoop(Redact(arguments, r), bindings, Sealed);
    match safe
    case None => return Failure(NoSuchPath);
    case Some(v) => return Success(Persisted(v, bindings, Collect(v, "")));
  }

  method Materialize(p: Persisted, resolver: string -> string) returns (r: Result<Json, ArgumentError>)
    ensures r == MaterializeSpec(p, resolver)
  {
    var resolved := PutLoop(p.arguments, p.bindings, (b: Binding) => Str(resolver(b.reference)));
    match resolved
    case None => return Failure(NoSuchPath);
    case Some(v) => return if Executable(v) then Success(v) else Failure(UnresolvedArgument);
  }

  // ---------------------------------------------------------------- round trip

  ghost predicate PathsApart(bindings: seq<Binding>) {
    forall i, j :: 0 <= i < j < |bindings| ==> Apart(PathOf(bindings[i]), PathOf(bindings[j]))
  }

  /** References are made of characters that cannot spell the marker. */
  ghost predicate CleanReferences(bindings: seq<Binding>) {
    forall i :: 0 <= i < |bindings| ==> '[' !in bindings[i].reference
  }

  /** The resolver knows the string that each path holds. */
  ghost predicate TrueSecrets(arguments: Json, bindings: seq<Binding>, resolver: string -> string) {
    forall i :: 0 <= i < |bindings| ==>
      Get(arguments, PathOf(bindings[i])) == Some(Str(resolver(bindings[i].reference)))
  }

  lemma {:induction false} CleanText(s: string)
    requires '[' !in s
    ensures !Contains(s, MARK)
  {
    forall i | 0 <= i <= |s|
      ensures !OccursAt(s, MARK, i)
    {
      if i + |MARK| <= |s| {
        assert s[i] in s && MARK[0] == '[';
        assert s[i..i + |MARK|][0] == s[i];
      }
    }
  }

  lemma {:induction false} CredentialCounts(reference: string)
    requires '[' !in reference
    ensures var c := CredentialObject(reference);
            HasCredentialKey(c) && Count(CredentialKey, c) == 1 && Count(MarkedText, c) == 0
  {
    CleanText(reference);
    var c := CredentialObject(reference);
    assert Child(c, 0) == Str(reference) && Arity(c) == 1 && Arity(Str(reference)) == 0;
    hide Contains;
    TextCounts(reference);
    assert CountBelow(CredentialKey, c, 1) == CountBelow(CredentialKey, c, 0) + Count(CredentialKey, Child(c, 0));
    assert CountBelow(MarkedText, c, 1) == CountBelow(MarkedText, c, 0) + Count(MarkedText, Child(c, 0));
  }

  lemma {:induction false} TextCounts(s: string)
    ensures Count(CredentialKey, Str(s)) == 0 && Count(MarkedText, Str(s)) == if Contains(s, MARK) then 1 else 0
  {
    hide Contains, Find;
  }

  /** After `k` of the bindings are sealed. */
  ghost predicate SealedUpTo(a: Json, safe: Json, s: Json, bindings: seq<Binding>, k: nat)
    requires k <= |bindings|
  {
    && Veiled(a, s) && Count(CredentialKey, s) == k
    && (forall j :: 0 <= j < k ==> Get(s, PathOf(bindings[j])) == Some(Sealed(bindings[j])))
    && (forall j :: k <= j < |bindings| ==> Get(s, PathOf(bindings[j])) == Get(safe, PathOf(bindings[j])))
  }

  lemma {:induction false} Seal(a: Json, safe: Json, bindings: seq<Binding>, k: nat)
    requires k <= |bindings| && PathsApart(bindings) && CleanReferences(bindings)
    requires Veiled(a, safe) && Count(CredentialKey, safe) == 0 && PutEach(safe, bindings[..k], Sealed).Some?
    ensures SealedUpTo(a, safe, PutEach(safe, bindings[..k], Sealed).value, bindings, k)
    decreases k
  {
    hide Count, Veiled, Get, Set, Apart, ParsePointer, HasCredentialKey;
    if k > 0 {
      assert bindings[..k][..k - 1] == bindings[..k - 1];
      Seal(a, safe, bindings, k - 1);
      var s, b := PutEach(safe, bindings[..k - 1], Sealed).value, bindings[k - 1];
      SealOne(a, safe, s, bindings, k - 1);
    }
  }

  lemma {:induction false} SealOne(a: Json, safe: Json, s: Json, bindings: seq<Binding>, k: nat)
    requires k < |bindings| && PathsApart(bindings) && CleanReferences(bindings)
    requires Count(CredentialKey, safe) == 0 && SealedUpTo(a, safe, s, bindings, k)
    requires Put(s, PathOf(bindings[k]), Sealed(bindings[k])).Some?
    ensures SealedUpTo(a, safe, Put(s, PathOf(bindings[k]), Sealed(bindings[k])).value, bindings, k + 1)
  {
    hide Count, Veiled, Get, Set, Apart, ParsePointer, HasCredentialKey;
    var path, x := PathOf(bindings[k]), Sealed(bindings[k]);
    CredentialCounts(bindings[k].reference);
    VeilCredential(a, s, path, x);
    CountSet(CredentialKey, s, path, x);
    CountPart(CredentialKey, safe, path);
    GetSet(s, path, x);
    forall j | 0 <= j < |bindings| && j != k
      ensures Get(Set(s, path, x).value, PathOf(bindings[j])) == Get(s, PathOf(bindings[j]))
    {
      ApartSymmetric(PathOf(bindings[j]), path);
      GetSetApart(s, path, PathOf(bindings[j]), x);
    }
  }

  /** After the first `k` bindings are resolved again. */
  ghost predicate ResolvedUpTo(a: Json, s: Json, v: Json, bindings: seq<Binding>, k: nat)
    requires k <= |bindings|
  {
    && Veiled(a, v) && Count(CredentialKey, v) + k == |bindings| && Count(MarkedText, v) == Count(MarkedText, s)
    && (forall j :: k <= j < |bindings| ==> Get(v, PathOf(bindings[j])) == Some(Sealed(bindings[j])))
  }

  lemma {:induction false} ResolveOne(a: Json, s: Json, v: Json, bindings: seq<Binding>, k: nat, resolver: string -> string)
    requires k < |bindings| && PathsApart(bindings) && CleanReferences(bindings) && TrueSecrets(a, bindings, resolver)
    requires Executable(a) && ResolvedUpTo(a, s, v, bindings, k) && |PathOf(bindings[k])| > 0
    ensures var w := Put(v, PathOf(bindings[k]), Str(resolver(bindings[k].reference)));
            w.Some? && ResolvedUpTo(a, s, w.value, bindings, k + 1)
  {
    hide Count, Veiled, Get, Set, Apart, ParsePointer, HasCredentialKey, Executable, Contains;
    var path, text := PathOf(bindings[k]), resolver(bindings[k].reference);
    CredentialCounts(bindings[k].reference);
    TextCounts(text);
    ExecutableIff(a);
    CountPart(MarkedText, a, path);
    SetIffGet(v, path, Str(text));
    VeilTruth(a, v, path, text);
    CountSet(CredentialKey, v, path, Str(text));
    CountSet(MarkedText, v, path, Str(text));
    forall j | k < j < |bindings|
      ensures Get(Set(v, path, Str(text)).value, PathOf(bindings[j])) == Get(v, PathOf(bindings[j]))
    {
      GetSetApart(v, path, PathOf(bindings[j]), Str(text));
    }
  }

  lemma {:induction false} ResolveAll(a: Json, s: Json, bindings: seq<Binding>, k: nat, resolver: string -> string)
    requires k <= |bindings| && PathsApart(bindings) && CleanReferences(bindings) && TrueSecrets(a, bindings, resolver)
    requires Executable(a) && ResolvedUpTo(a, s, s, bindings, 0)
    requires forall j :: 0 <= j < |bindings| ==> |PathOf(bindings[j])| > 0
    ensures var v := PutEach(s, bindings[..k], (b: Binding) => Str(resolver(b.reference)));
            v.Some? && ResolvedUpTo(a, s, v.value, bindings, k)
    decreases k
  {
    hide Count, Veiled, Get, Set, Apart, ParsePointer, HasCredentialKey, Executable, Put;
    if k > 0 {
      ResolveAll(a, s, bindings, k - 1, resolver);
      assert bindings[..k][..k - 1] == bindings[..k - 1];
      var v := PutEach(s, bindings[..k - 1], (b: Binding) => Str(resolver(b.reference))).value;
      ResolveOne(a, s, v, bindings, k - 1, resolver);
    }
  }

  lemma {:induction false} PutEachPaths(v: Json, bindings: seq<Binding>, value: Binding -> Json)
    requires PutEach(v, bindings, value).Some?
    ensures forall j :: 0 <= j < |bindings| ==> |PathOf(bindings[j])| > 0
    decreases |bindings|
  {
    hide Set, ParsePointer;
    if |bindings| > 0 {
      PutEachPaths(v, bindings[..|bindings| - 1], value);
    }
  }

  /**
   Persisting executable arguments and materializing them with the true secrets gives
   back exactly the arguments when nothing was redacted, and is refused otherwise: a
   placeholder never comes through.
   */
  lemma {:induction false} RoundTrip(arguments: Json, bindings: seq<Binding>, r: Redactor, resolver: string -> string, p: Persisted)
    requires Marks(r) && Executable(arguments) && PathsApart(bindings) && CleanReferences(bindings)
    requires TrueSecrets(arguments, bindings, resolver) && PersistSpec(arguments, bindings, r) == Success(p)
    ensures MaterializeSpec(p, resolver) == if p.redactedPaths == [] then Success(arguments) else Failure(UnresolvedArgument)
  {
    hide Count, Veiled, Get, Set, Apart, ParsePointer, HasCredentialKey, Executable, Put, Collect, Redact;
    var safe, s, n := Redact(arguments, r), p.arguments, |bindings|;
    RedactVeils(arguments, r);
    ExecutableIff(arguments);
    RedactAddsNoCredential(arguments, r);
    PutEachPaths(safe, bindings, Sealed);
    assert bindings[..n] == bindings;
    Seal(arguments, safe, bindings, n);
    ResolveAll(arguments, s, bindings, n, resolver);
    var v := PutEach(s, bindings, (b: Binding) => Str(resolver(b.reference))).value;
    CollectCounts(s, "");
    ExecutableIff(v);
    if Executable(v) {
      UnveiledIsOriginal(arguments, v);
    }
  }
}
