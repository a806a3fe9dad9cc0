/**
 What persisted tool arguments give away. Redaction shows at every path the original
 value, its redacted text, the marker, or nothing; and arguments that differ only in
 what is to be hidden are persisted as the same record.
 */
module SecretSecrecy {
  import opened Wrappers
  import opened ContextText
  import opened JsonPointer
  import opened SecretArguments
  import opened SecretRoundTrip

  /** The value is held by a sensitive key and is not a reference to a credential. */
  predicate HiddenChild(v: Json, i: nat, r: Redactor)
    requires i < Arity(v)
  {
    v.Dict? && r.sensitive(v.entries[i].key) && !IsCredentialMarker(Child(v, i))
  }

  /** The path passes, or ends at, a value that a sensitive key hides. */
  predicate Behind(v: Json, path: seq<string>, r: Redactor)
    decreases |path|
  {
    |path| > 0 && Locate(v, path[0]).Some?
    && var i := Locate(v, path[0]).value;
       HiddenChild(v, i, r) || Behind(Child(v, i), path[1..], r)
  }

  /** What an open place shows: redacted text for a string, the same scalar, or a container of the same shape. */
  predicate Shows(shown: Json, original: Json, r: Redactor) {
    if original.Str? then shown == Str(r.text(original.s)) else SameNode(original, shown)
  }

  lemma {:induction false} RedactNode(v: Json, r: Redactor)
    ensures var w := Redact(v, r);
            && Shows(w, v, r) && Arity(w) == Arity(v)
            && forall i :: 0 <= i < Arity(v) ==>
                 Child(w, i) == if HiddenChild(v, i, r) then Str(MARK) else Redact(Child(v, i), r)
  {
  }

  /** Redaction keeps the shape of containers, so a token names the same child before and after. */
  lemma {:induction false} RedactLocates(v: Json, r: Redactor, token: string)
    ensures Locate(Redact(v, r), token) == Locate(v, token)
  {
    hide Redact;
    RedactNode(v, r);
    if !v.Str? {
      LocateSame(v, Redact(v, r), token);
    }
  }

  /**
   Redaction, path by path: a place outside every sensitive key shows its value with the
   text redacted, the value of a sensitive key is the marker, and nothing below it exists.
   */
  lemma {:induction false} RedactedAt(v: Json, path: seq<string>, r: Redactor)
    requires Get(v, path).Some?
    ensures !Behind(v, path, r) ==>
              Get(Redact(v, r), path).Some? && Shows(Get(Redact(v, r), path).value, Get(v, path).value, r)
    ensures Behind(v, path, r) && !Behind(v, path[..|path| - 1], r) ==> Get(Redact(v, r), path) == Some(Str(MARK))
    ensures Behind(v, path, r) && Behind(v, path[..|path| - 1], r) ==> Get(Redact(v, r), path) == None
    decreases |path|
  {
    hide Redact, Locate, Child, IsCredentialMarker;
    RedactNode(v, r);
    if |path| > 0 {
      var i := Locate(v, path[0]).value;
      RedactLocates(v, r, path[0]);
      if HiddenChild(v, i, r) {
        BelowText(MARK, path[1..]);
      } else {
        RedactedAt(Child(v, i), path[1..], r);
      }
      if |path| > 1 {
        assert path[..|path| - 1][1..] == path[1..][..|path| - 2];
      }
    }
  }

  lemma {:induction false} BelowText(s: string, path: seq<string>)
    ensures Get(Str(s), path) == if path == [] then Some(Str(s)) else None
  {
  }

  // ------------------------------------------------------------- what is hidden

  /** The same arguments up to what sensitive keys hide and what the redactor wipes from texts. */
  ghost predicate SameOutside(a: Json, b: Json, r: Redactor)
    decreases a
  {
    if a.Str? then b.Str? && r.text(a.s) == r.text(b.s)
    else
      && SameNode(a, b)
      && (forall i :: 0 <= i < Arity(a) ==> HiddenChild(a, i, r) == HiddenChild(b, i, r))
      && (forall i :: 0 <= i < Arity(a) ==> HiddenChild(a, i, r) || SameOutside(Child(a, i), Child(b, i), r))
  }

  lemma {:induction false} RedactsAlike(a: Json, b: Json, r: Redactor)
    requires SameOutside(a, b, r)
    ensures Redact(a, r) == Redact(b, r)
    decreases a
  {
    hide Redact, IsCredentialMarker;
    var v, w := Redact(a, r), Redact(b, r);
    RedactNode(a, r);
    RedactNode(b, r);
    if !a.Str? {
      forall i | 0 <= i < Arity(a)
        ensures Child(v, i) == Child(w, i)
      {
        if !HiddenChild(a, i, r) {
          RedactsAlike(Child(a, i), Child(b, i), r);
        }
      }
      NodesEqual(v, w);
    }
  }

  /** Whatever a sensitive key holds, and whatever is wiped from a text, has no influence on the record. */
  lemma {:induction false} SecretsStayOut(a: Json, b: Json, bindings: seq<Binding>, r: Redactor)
    requires SameOutside(a, b, r)
    ensures PersistSpec(a, bindings, r) == PersistSpec(b, bindings, r)
  {
    RedactsAlike(a, b, r);
  }

  // ------------------------------------------------------- what a reference hides

  lemma {:induction false} SetSet(v: Json, path: seq<string>, x: Json, y: Json)
    requires Set(v, path, x).Some?
    ensures Set(Set(v, path, x).value, path, y) == Set(v, path, y)
    decreases |path|
  {
    hide Locate, Child, WithChild, SameNode;
    if |path| > 0 {
      var i := Locate(v, path[0]).value;
      var w := Set(Child(v, i), path[1..], x).value;
      LocateWithChild(v, i, w, path[0]);
      SetSet(Child(v, i), path[1..], x, y);
      SetIffGet(Child(v, i), path[1..], x);
      SetIffGet(Child(v, i), path[1..], y);
      WriteTwice(v, i, w, Set(Child(v, i), path[1..], y).value);
    }
  }

  lemma {:induction false} LocateWithChild(v: Json, i: nat, w: Json, token: string)
    requires i < Arity(v)
    ensures Locate(WithChild(v, i, w), token) == Locate(v, token)
  {
    LocateSame(v, WithChild(v, i, w), token);
  }

  lemma {:induction false} WriteTwice(v: Json, i: nat, x: Json, y: Json)
    requires i < Arity(v)
    ensures WithChild(WithChild(v, i, x), i, y) == WithChild(v, i, y)
  {
    NodesEqual(WithChild(WithChild(v, i, x), i, y), WithChild(v, i, y));
  }

  lemma {:induction false} WriteSame(v: Json, i: nat)
    requires i < Arity(v)
    ensures WithChild(v, i, Child(v, i)) == v
  {
    NodesEqual(WithChild(v, i, Child(v, i)), v);
  }

  lemma {:induction false} WritesCommute(v: Json, i: nat, j: nat, x: Json, y: Json)
    requires i < Arity(v) && j < Arity(v) && i != j
    ensures WithChild(WithChild(v, i, x), j, y) == WithChild(WithChild(v, j, y), i, x)
  {
    NodesEqual(WithChild(WithChild(v, i, x), j, y), WithChild(WithChild(v, j, y), i, x));
  }

  /** Writes at paths that part ways can be swapped. */
  lemma {:induction false} SetsCommute(v: Json, p: seq<string>, q: seq<string>, x: Json, y: Json)
    requires Apart(p, q) && Set(v, p, x).Some?
    ensures Set(Set(v, p, x).value, q, y).Some? <==> Set(v, q, y).Some?
    ensures Set(v, q, y).Some? ==>
              && Set(Set(v, q, y).value, p, x).Some?
              && Set(Set(v, p, x).value, q, y).value == Set(Set(v, q, y).value, p, x).value
    decreases |p|
  {
    hide Locate, Child, WithChild, SameNode;
    var i := Locate(v, p[0]).value;
    var w := Set(Child(v, i), p[1..], x).value;
    LocateWithChild(v, i, w, q[0]);
    if Locate(v, q[0]).Some? {
      var j := Locate(v, q[0]).value;
      if p[0] == q[0] {
        SetsCommute(Child(v, i), p[1..], q[1..], x, y);
        if Set(Child(v, i), q[1..], y).Some? {
          var u := Set(Child(v, i), q[1..], y).value;
          LocateWithChild(v, i, u, p[0]);
          WriteTwice(v, i, w, Set(w, q[1..], y).value);
          WriteTwice(v, i, u, Set(u, p[1..], x).value);
        }
      } else {
        OtherChild(v, p[0], q[0]);
        if Set(Child(v, j), q[1..], y).Some? {
          var u := Set(Child(v, j), q[1..], y).value;
          LocateWithChild(v, j, u, p[0]);
          WritesCommute(v, i, j, w, u);
        }
      }
    }
  }

  lemma {:induction false} OtherChild(v: Json, a: string, b: string)
    requires TokensApart(a, b) && Locate(v, a).Some? && Locate(v, b).Some?
    ensures Locate(v, a) != Locate(v, b)
  {
  }

  /** Redacting after a write is writing the redacted text, unless the place was hidden anyway. */
  lemma {:induction false} RedactSet(v: Json, path: seq<string>, x: string, r: Redactor)
    requires Count(CredentialKey, v) == 0 && Set(v, path, Str(x)).Some?
    ensures var changed := Redact(Set(v, path, Str(x)).value, r);
            if Behind(v, path, r) then changed == Redact(v, r)
            else Set(Redact(v, r), path, Str(r.text(x))) == Some(changed)
    decreases |path|
  {
    hide Redact, Locate, IsCredentialMarker, Count, CountBelow, Child, WithChild, SameNode;
    RedactNode(Str(x), r);
    if |path| > 0 {
      var i := Locate(v, path[0]).value;
      var w := Set(Child(v, i), path[1..], Str(x)).value;
      RedactLocates(v, r, path[0]);
      RedactNode(v, r);
      WriteSame(Redact(v, r), i);
      NoCredentialChild(v, i);
      RedactSet(Child(v, i), path[1..], x, r);
      RedactWithChild(v, i, path[1..], x, r);
    }
  }

  lemma {:induction false} NoCredentialChild(v: Json, i: nat)
    requires Count(CredentialKey, v) == 0 && i < Arity(v)
    ensures Count(CredentialKey, Child(v, i)) == 0
  {
    CountChild(CredentialKey, v, i, Arity(v));
  }

  lemma {:induction false} NoMarker(v: Json)
    requires Count(CredentialKey, v) == 0
    ensures !IsCredentialMarker(v)
  {
    if IsCredentialMarker(v) {
      assert HasCredentialKey(v);
    }
  }

  lemma {:induction false} StillNoMarker(v: Json, path: seq<string>, x: string)
    requires Count(CredentialKey, v) == 0 && Set(v, path, Str(x)).Some?
    ensures !IsCredentialMarker(Set(v, path, Str(x)).value)
  {
    hide Count, Set, IsCredentialMarker;
    PlainText(x);
    CountSet(CredentialKey, v, path, Str(x));
    NoMarker(Set(v, path, Str(x)).value);
  }

  lemma {:induction false} RedactWithChild(v: Json, i: nat, path: seq<string>, x: string, r: Redactor)
    requires Count(CredentialKey, v) == 0 && i < Arity(v) && Set(Child(v, i), path, Str(x)).Some?
    ensures var w := Set(Child(v, i), path, Str(x)).value;
            Redact(WithChild(v, i, w), r)
            == if HiddenChild(v, i, r) then Redact(v, r) else WithChild(Redact(v, r), i, Redact(w, r))
  {
    hide Count, CountBelow, Redact, IsCredentialMarker, Set;
    var w := Set(Child(v, i), path, Str(x)).value;
    var changed, shown := WithChild(v, i, w), Redact(v, r);
    NoCredentialChild(v, i);
    StillNoMarker(Child(v, i), path, x);
    NoMarker(Child(v, i));
    RedactNode(v, r);
    RedactNode(changed, r);
    NodesEqual(Redact(changed, r), if HiddenChild(v, i, r) then shown else WithChild(shown, i, Redact(w, r)));
  }

  /** A value written at the path of a binding is overwritten by its reference. */
  lemma {:induction false} PutEachCovers(s: Json, bindings: seq<Binding>, k: nat, x: Json, n: nat)
    requires k < |bindings| && n <= |bindings| && PathsApart(bindings) && Set(s, PathOf(bindings[k]), x).Some?
    ensures var plain := PutEach(s, bindings[..n], Sealed);
            var other := PutEach(Set(s, PathOf(bindings[k]), x).value, bindings[..n], Sealed);
            if plain.None? then other.None?
            else if k < n then other == plain
            else Set(plain.value, PathOf(bindings[k]), x).Some? && other == Set(plain.value, PathOf(bindings[k]), x)
    decreases n
  {
    hide Set, Apart, ParsePointer;
    if n > 0 {
      PutEachCovers(s, bindings, k, x, n - 1);
      assert bindings[..n][..n - 1] == bindings[..n - 1];
      var plain := PutEach(s, bindings[..n - 1], Sealed);
      var b := bindings[n - 1];
      if plain.Some? && |PathOf(b)| > 0 {
        if k == n - 1 {
          SetSet(plain.value, PathOf(b), x, Sealed(b));
        } else if n - 1 < k {
          ApartSymmetric(PathOf(b), PathOf(bindings[k]));
          SetsCommute(plain.value, PathOf(bindings[k]), PathOf(b), x, Sealed(b));
        }
      }
    }
  }

  /** Nor has the string at the path of a binding: only its reference is persisted. */
  lemma {:induction false} BoundSecretsStayOut(a: Json, bindings: seq<Binding>, k: nat, x: string, r: Redactor)
    requires k < |bindings| && PathsApart(bindings) && Count(CredentialKey, a) == 0
    requires Set(a, PathOf(bindings[k]), Str(x)).Some?
    ensures PersistSpec(Set(a, PathOf(bindings[k]), Str(x)).value, bindings, r) == PersistSpec(a, bindings, r)
  {
    hide Set, Redact, Apart, ParsePointer, Count, Collect, Behind;
    var path := PathOf(bindings[k]);
    RedactSet(a, path, x, r);
    if !Behind(a, path, r) {
      PutEachCovers(Redact(a, r), bindings, k, Str(r.text(x)), |bindings|);
      assert bindings[..|bindings|] == bindings;
    }
  }

  // ----------------------------------------------------------- what is reported

  /** The value that child positions lead to. */
  function Walk(v: Json, steps: seq<nat>): Option<Json>
    decreases |steps|
  {
    if |steps| == 0 then Some(v) else if steps[0] < Arity(v) then Walk(Child(v, steps[0]), steps[1..]) else None
  }

  /** The tokens naming those positions. */
  function Address(v: Json, steps: seq<nat>): seq<string>
    requires Walk(v, steps).Some?
    decreases |steps|
  {
    if |steps| == 0 then [] else [Token(v, steps[0])] + Address(Child(v, steps[0]), steps[1..])
  }

  /** Every marked string below the top is reported, under the pointer to it. */
  lemma {:induction false} CollectFinds(v: Json, parts: seq<string>, steps: seq<nat>)
    requires Walk(v, steps).Some? && Count(MarkedText, Walk(v, steps).value) == 1 && Walk(v, steps).value.Str?
    requires |parts| + |steps| > 0
    ensures Join(parts + Address(v, steps)) in Collect(v, Join(parts))
    decreases |steps|
  {
    hide Contains, Join, Token, Extended, Count, CountBelow;
    if |steps| == 0 {
      TextCounts(v.s);
      JoinNonempty(parts);
      assert parts + [] == parts;
    } else {
      var i := steps[0];
      CollectFinds(Child(v, i), parts + [Token(v, i)], steps[1..]);
      ExtendedIsJoin(v, parts, i);
      assert parts + Address(v, steps) == parts + [Token(v, i)] + Address(Child(v, i), steps[1..]);
      CollectHolds(v, Join(parts), i, Arity(v), Join(parts + Address(v, steps)));
    }
  }

  lemma {:induction false} JoinNonempty(parts: seq<string>)
    requires |parts| > 0
    ensures Join(parts) != ""
  {
  }

  lemma {:induction false} CollectHolds(v: Json, path: string, i: nat, n: nat, p: string)
    requires i < n <= Arity(v) && p in Collect(Child(v, i), Extended(path, v, i))
    ensures p in CollectBelow(v, path, n)
    decreases n
  {
    hide Collect, Extended;
    if i < n - 1 {
      CollectHolds(v, path, i, n - 1, p);
    }
  }
}
