/**
 Splitting the history into step groups and choosing which groups stay: the greedy
 pass over the ranked groups, and what its result means without the pass.
 */
module ContextSelect {
  import opened ContextText

  // ----------------------------------------------------------------- grouping

  function Flatten(groups: seq<seq<Message>>): seq<Message> {
    if |groups| == 0 then [] else Flatten(groups[..|groups| - 1]) + groups[|groups| - 1]
  }

  /** An assistant message can only open a group. */
  predicate OneStep(group: seq<Message>) {
    |group| > 0 && forall j :: 1 <= j < |group| ==> !group[j].role.AssistantRole?
  }

  /** A group is one assistant message with what follows it; only the first may lack the assistant. */
  predicate WellGrouped(groups: seq<seq<Message>>) {
    && (forall k :: 0 <= k < |groups| ==> OneStep(groups[k]))
    && (forall k :: 1 <= k < |groups| ==> groups[k][0].role.AssistantRole?)
  }

  /** The groups partition the messages in order, and a new one starts at each assistant message only. */
  method SplitGroups(messages: seq<Message>) returns (groups: seq<seq<Message>>)
    ensures Flatten(groups) == messages && WellGrouped(groups)
  {
    hide Flatten, WellGrouped, OneStep;
    groups := [];
    var current: seq<Message> := [];
    NoGroups();
    assert messages[..0] == [];
    var i := 0;
    while i < |messages|
      invariant 0 <= i <= |messages| && Flatten(groups) + current == messages[..i] && WellGrouped(groups)
      invariant current != [] ==> OneStep(current) && (groups != [] ==> current[0].role.AssistantRole?)
      invariant current == [] ==> groups == []
    {
      var message := messages[i];
      assert messages[..i + 1] == Flatten(groups) + current + [message];
      if message.role.AssistantRole? {
        if current != [] {
          CloseGroup(groups, current);
          groups := groups + [current];
        }
        current := [];
      }
      GrowGroup(current, message);
      assert Flatten(groups) + (current + [message]) == Flatten(groups) + current + [message];
      current := current + [message];
      i := i + 1;
    }
    assert messages[..|messages|] == messages;
    if current != [] {
      CloseGroup(groups, current);
      groups := groups + [current];
    }
  }

  lemma {:induction false} NoGroups()
    ensures Flatten([]) == [] && WellGrouped([])
  {
  }

  lemma {:induction false} CloseGroup(groups: seq<seq<Message>>, last: seq<Message>)
    requires WellGrouped(groups) && OneStep(last) && (groups != [] ==> last[0].role.AssistantRole?)
    ensures Flatten(groups + [last]) == Flatten(groups) + last && WellGrouped(groups + [last])
  {
    assert (groups + [last])[..|groups|] == groups;
  }

  lemma {:induction false} GrowGroup(current: seq<Message>, message: Message)
    requires current == [] || (OneStep(current) && !message.role.AssistantRole?)
    ensures OneStep(current + [message]) && (current + [message])[0] == if current == [] then message else current[0]
  {
  }

  /** There is only one such split, so it never parts a tool message from its assistant message. */
  lemma {:induction false} SplitIsUnique(a: seq<seq<Message>>, b: seq<seq<Message>>)
    requires WellGrouped(a) && WellGrouped(b) && Flatten(a) == Flatten(b)
    ensures a == b
  {
    FlattenSize(a);
    FlattenSize(b);
    if |a| > 0 && |b| > 0 {
      var x, y, all := a[|a| - 1], b[|b| - 1], Flatten(a);
      LastNotShorter(a, b);
      LastNotShorter(b, a);
      assert all[..|all| - |x|] == Flatten(a[..|a| - 1]) && all[|all| - |x|..] == x;
      assert all[..|all| - |y|] == Flatten(b[..|b| - 1]) && all[|all| - |y|..] == y;
      SplitIsUnique(a[..|a| - 1], b[..|b| - 1]);
      assert a == a[..|a| - 1] + [x] && b == b[..|b| - 1] + [y];
    }
  }

  lemma {:induction false} FlattenSize(groups: seq<seq<Message>>)
    requires WellGrouped(groups)
    ensures |groups| > 0 ==> |Flatten(groups)| > 0
    ensures |groups| == 1 ==> Flatten(groups) == groups[0]
  {
    if |groups| > 0 {
      assert OneStep(groups[|groups| - 1]);
    }
    if |groups| == 1 {
      assert Flatten(groups[..0]) == [];
    }
  }

  lemma {:induction false} LastNotShorter(a: seq<seq<Message>>, b: seq<seq<Message>>)
    requires WellGrouped(a) && WellGrouped(b) && Flatten(a) == Flatten(b) && |a| > 0 && |b| > 0
    ensures |a[|a| - 1]| >= |b[|b| - 1]|
  {
    var all, x, y := Flatten(a), a[|a| - 1], b[|b| - 1];
    FlattenSize(a);
    assert OneStep(x) && OneStep(y);
    assert all == Flatten(a[..|a| - 1]) + x && all == Flatten(b[..|b| - 1]) + y;
    hide Flatten;
    assert all[|all| - |x|] == x[0];
    TailHasNoAssistant(Flatten(b[..|b| - 1]), y, |all| - |x|);
  }

  lemma {:induction false} TailHasNoAssistant(before: seq<Message>, group: seq<Message>, k: nat)
    requires OneStep(group) && k < |before| + |group|
    ensures k > |before| ==> !(before + group)[k].role.AssistantRole?
  {
    if k > |before| {
      assert (before + group)[k] == group[k - |before|];
    }
  }

  // ------------------------------------------------------------------ ranking

  /** One step of history; `relevance` counts the query words it shares. */
  datatype Group = Group(index: nat, messages: seq<Message>, tokens: nat, relevance: nat, recent: bool)

  /** The ranking key: recent first, then more relevant, then later. */
  predicate Before(g: Group, h: Group) {
    if g.recent != h.recent then g.recent
    else if g.relevance != h.relevance then g.relevance > h.relevance
    else g.index > h.index
  }

  /** The ranking is a strict total order on groups with different indices: recent, then relevant, then late ones first. */
  lemma {:induction false} RankingOrder(g: Group, h: Group, k: Group)
    ensures g.recent && !h.recent ==> Before(g, h)
    ensures g.recent == h.recent && g.relevance > h.relevance ==> Before(g, h)
    ensures g.recent == h.recent && g.relevance == h.relevance && g.index > h.index ==> Before(g, h)
    ensures g.index != h.index ==> (Before(g, h) <==> !Before(h, g))
    ensures Before(g, h) && Before(h, k) ==> Before(g, k)
  {
  }

  predicate Ranked(groups: seq<Group>) {
    forall i, j :: 0 <= i < j < |groups| ==> Before(groups[i], groups[j])
  }

  /** Groups carry their position as index. */
  predicate Indexed(groups: seq<Group>) {
    forall i :: 0 <= i < |groups| ==> groups[i].index == i
  }

  predicate Distinct(groups: seq<Group>) {
    forall i, j :: 0 <= i < j < |groups| ==> groups[i].index != groups[j].index
  }

  /** Sorting by the key; equal keys cannot occur because indices differ. */
  method Rank(groups: seq<Group>) returns (ranked: seq<Group>)
    requires Distinct(groups)
    ensures Ranked(ranked) && Distinct(ranked) && multiset(ranked) == multiset(groups)
  {
    hide Ranked;
    ranked := [];
    EmptyRanked();
    var i := 0;
    while i < |groups|
      invariant 0 <= i <= |groups|
      invariant Ranked(ranked) && Distinct(ranked) && multiset(ranked) == multiset(groups[..i])
    {
      forall h | h in ranked
        ensures h.index != groups[i].index
      {
        assert h in multiset(groups[..i]);
      }
      ranked := InsertOne(ranked, groups[i]);
      assert groups[..i + 1] == groups[..i] + [groups[i]];
      i := i + 1;
    }
    assert groups[..|groups|] == groups;
  }

  lemma {:induction false} EmptyRanked()
    ensures Ranked([])
  {
  }

  method InsertOne(ranked: seq<Group>, g: Group) returns (r: seq<Group>)
    requires Ranked(ranked) && Distinct(ranked) && forall h :: h in ranked ==> h.index != g.index
    ensures Ranked(r) && Distinct(r) && multiset(r) == multiset(ranked) + multiset{g}
  {
    hide Ranked, Distinct, Before;
    var at := 0;
    while at < |ranked| && Before(ranked[at], g)
      invariant 0 <= at <= |ranked|
      invariant forall j :: 0 <= j < at ==> Before(ranked[j], g)
    {
      at := at + 1;
    }
    InsertRanked(ranked, g, at);
    InsertDistinct(ranked, g, at);
    r := ranked[..at] + [g] + ranked[at..];
  }

  lemma {:induction false} InsertDistinct(ranked: seq<Group>, g: Group, at: nat)
    requires Distinct(ranked) && at <= |ranked| && (forall h :: h in ranked ==> h.index != g.index)
    ensures Distinct(ranked[..at] + [g] + ranked[at..])
    ensures multiset(ranked[..at] + [g] + ranked[at..]) == multiset(ranked) + multiset{g}
  {
    assert forall j :: 0 <= j < |ranked| ==> ranked[j] in ranked;
    assert ranked == ranked[..at] + ranked[at..];
  }

  lemma {:induction false} InsertRanked(ranked: seq<Group>, g: Group, at: nat)
    requires Ranked(ranked) && at <= |ranked| && (forall h :: h in ranked ==> h.index != g.index)
    requires forall j :: 0 <= j < at ==> Before(ranked[j], g)
    requires at < |ranked| ==> !Before(ranked[at], g)
    ensures Ranked(ranked[..at] + [g] + ranked[at..])
  {
    forall j | at <= j < |ranked|
      ensures Before(g, ranked[j])
    {
      assert ranked[j] in ranked && ranked[at] in ranked;
      if j > at {
        assert Before(ranked[at], ranked[j]);
      }
    }
  }

  // ---------------------------------------------------------- greedy selection

  /** Tokens of the chosen groups that rank above `g`. */
  function ChosenAbove(groups: seq<Group>, chosen: set<nat>, g: Group): nat {
    if |groups| == 0 then 0
    else
      var last := groups[|groups| - 1];
      ChosenAbove(groups[..|groups| - 1], chosen, g)
      + if last.index in chosen && Before(last, g) then last.tokens else 0
  }

  function ChosenTokens(groups: seq<Group>, chosen: set<nat>): nat {
    if |groups| == 0 then 0
    else
      var last := groups[|groups| - 1];
      ChosenTokens(groups[..|groups| - 1], chosen) + if last.index in chosen then last.tokens else 0
  }

  function AllTokens(groups: seq<Group>): nat {
    if |groups| == 0 then 0 else AllTokens(groups[..|groups| - 1]) + groups[|groups| - 1].tokens
  }

  /** A group is chosen exactly when it fits what the chosen groups above it leave of the budget. */
  ghost predicate GreedyChoice(groups: seq<Group>, chosen: set<nat>, budget: nat) {
    && (forall i :: 0 <= i < |groups| ==>
          (groups[i].index in chosen <==> ChosenAbove(groups, chosen, groups[i]) + groups[i].tokens <= budget))
    && (forall k :: k in chosen ==> exists i :: 0 <= i < |groups| && groups[i].index == k)
  }

  /** Each of the first `n` ranked groups is taken exactly when it fits what is left. */
  ghost predicate ChosenInOrder(ranked: seq<Group>, chosen: set<nat>, budget: nat, n: nat)
    requires n <= |ranked|
  {
    forall i :: 0 <= i < n ==>
      (ranked[i].index in chosen <==> ChosenTokens(ranked[..i], chosen) + ranked[i].tokens <= budget)
  }

  ghost predicate AmongFirst(ranked: seq<Group>, chosen: set<nat>, n: nat)
    requires n <= |ranked|
  {
    forall k :: k in chosen ==> exists i :: 0 <= i < n && ranked[i].index == k
  }

  /** The loop over the ranked groups. */
  method Select(ranked: seq<Group>, budget: nat) returns (chosen: set<nat>, remaining: nat)
    requires Distinct(ranked)
    ensures ChosenTokens(ranked, chosen) + remaining == budget
    ensures ChosenInOrder(ranked, chosen, budget, |ranked|) && AmongFirst(ranked, chosen, |ranked|)
  {
    hide Distinct, ChosenTokens, ChosenInOrder, AmongFirst;
    chosen, remaining := {}, budget;
    NothingChosen(ranked, budget);
    var n := 0;
    while n < |ranked|
      invariant 0 <= n <= |ranked| && ChosenTokens(ranked[..n], chosen) + remaining == budget
      invariant ChosenInOrder(ranked, chosen, budget, n) && AmongFirst(ranked, chosen, n)
    {
      var g := ranked[n];
      if g.tokens <= remaining {
        TakeNext(ranked, chosen, budget, n);
        chosen, remaining := chosen + {g.index}, remaining - g.tokens;
      } else {
        SkipNext(ranked, chosen, budget, n);
      }
      n := n + 1;
    }
    assert ranked[..|ranked|] == ranked;
  }

  lemma {:induction false} NothingChosen(ranked: seq<Group>, budget: nat)
    ensures ChosenTokens(ranked[..0], {}) == 0 && ChosenInOrder(ranked, {}, budget, 0) && AmongFirst(ranked, {}, 0)
  {
  }

  lemma {:induction false} NotYetChosen(ranked: seq<Group>, chosen: set<nat>, n: nat)
    requires Distinct(ranked) && n < |ranked| && AmongFirst(ranked, chosen, n)
    ensures ranked[n].index !in chosen
    ensures AmongFirst(ranked, chosen, n + 1) && AmongFirst(ranked, chosen + {ranked[n].index}, n + 1)
  {
    forall k | k in chosen
      ensures exists i :: 0 <= i < n + 1 && ranked[i].index == k
    {
      var i :| 0 <= i < n && ranked[i].index == k;
    }
  }

  lemma {:induction false} TakeNext(ranked: seq<Group>, chosen: set<nat>, budget: nat, n: nat)
    requires Distinct(ranked) && n < |ranked| && ChosenInOrder(ranked, chosen, budget, n) && AmongFirst(ranked, chosen, n)
    requires ChosenTokens(ranked[..n], chosen) + ranked[n].tokens <= budget
    ensures var after := chosen + {ranked[n].index};
            && ChosenInOrder(ranked, after, budget, n + 1) && AmongFirst(ranked, after, n + 1)
            && ChosenTokens(ranked[..n + 1], after) == ChosenTokens(ranked[..n], chosen) + ranked[n].tokens
  {
    hide AmongFirst, ChosenTokens;
    var k := ranked[n].index;
    NotYetChosen(ranked, chosen, n);
    TokensNext(ranked, chosen + {k}, n);
    forall i | 0 <= i <= n
      ensures ChosenTokens(ranked[..i], chosen + {k}) == ChosenTokens(ranked[..i], chosen)
    {
      LaterChoiceIrrelevant(ranked[..i], chosen, k);
    }
  }

  lemma {:induction false} SkipNext(ranked: seq<Group>, chosen: set<nat>, budget: nat, n: nat)
    requires Distinct(ranked) && n < |ranked| && ChosenInOrder(ranked, chosen, budget, n) && AmongFirst(ranked, chosen, n)
    requires ChosenTokens(ranked[..n], chosen) + ranked[n].tokens > budget
    ensures ChosenInOrder(ranked, chosen, budget, n + 1) && AmongFirst(ranked, chosen, n + 1)
    ensures ChosenTokens(ranked[..n + 1], chosen) == ChosenTokens(ranked[..n], chosen)
  {
    hide AmongFirst, ChosenTokens;
    NotYetChosen(ranked, chosen, n);
    TokensNext(ranked, chosen, n);
  }

  lemma {:induction false} TokensNext(ranked: seq<Group>, chosen: set<nat>, n: nat)
    requires n < |ranked|
    ensures ChosenTokens(ranked[..n + 1], chosen)
            == ChosenTokens(ranked[..n], chosen) + if ranked[n].index in chosen then ranked[n].tokens else 0
  {
    assert ranked[..n + 1][..n] == ranked[..n];
  }

  lemma {:induction false} LaterChoiceIrrelevant(groups: seq<Group>, chosen: set<nat>, k: nat)
    requires forall i :: 0 <= i < |groups| ==> groups[i].index != k
    ensures ChosenTokens(groups, chosen + {k}) == ChosenTokens(groups, chosen)
  {
    if |groups| > 0 {
      LaterChoiceIrrelevant(groups[..|groups| - 1], chosen, k);
    }
  }

  /** In a ranked sequence the groups above a position are those before it. */
  lemma {:induction false} AboveIsPrefix(ranked: seq<Group>, chosen: set<nat>, n: nat, i: nat)
    requires Ranked(ranked) && i < |ranked| && n <= |ranked|
    ensures ChosenAbove(ranked[..n], chosen, ranked[i]) == ChosenTokens(ranked[..if n < i then n else i], chosen)
  {
    if n > 0 {
      AboveIsPrefix(ranked, chosen, n - 1, i);
      assert ranked[..n][..n - 1] == ranked[..n - 1];
      if n - 1 < i {
        assert Before(ranked[n - 1], ranked[i]);
      } else if n - 1 > i {
        assert Before(ranked[i], ranked[n - 1]);
      }
    }
  }

  /** Sums over the groups do not depend on their order. */
  lemma {:induction false} SumsPermute(a: seq<Group>, b: seq<Group>, chosen: set<nat>, g: Group)
    requires multiset(a) == multiset(b)
    ensures ChosenAbove(a, chosen, g) == ChosenAbove(b, chosen, g)
    ensures ChosenTokens(a, chosen) == ChosenTokens(b, chosen) && AllTokens(a) == AllTokens(b)
    decreases |a|
  {
    if |a| == 0 {
      assert |multiset(b)| == 0;
    } else {
      hide ChosenAbove, ChosenTokens, AllTokens;
      var n := |a| - 1;
      var i := Occurrence(b, a[n]) by {
        assert a[n] in multiset(a);
      }
      WithoutOne(a, n);
      WithoutOne(b, i);
      SumsPermute(a[..n] + a[n + 1..], b[..i] + b[i + 1..], chosen, g);
      SumsRemove(a, n, chosen, g);
      SumsRemove(b, i, chosen, g);
    }
  }

  lemma {:induction false} Occurrence(b: seq<Group>, g: Group) returns (i: nat)
    requires g in multiset(b)
    ensures i < |b| && b[i] == g
  {
    i :| 0 <= i < |b| && b[i] == g;
  }

  lemma {:induction false} WithoutOne(b: seq<Group>, i: nat)
    requires i < |b|
    ensures multiset(b[..i] + b[i + 1..]) == multiset(b) - multiset{b[i]}
  {
    assert b == b[..i] + [b[i]] + b[i + 1..];
    assert multiset(b) == multiset(b[..i]) + multiset{b[i]} + multiset(b[i + 1..]);
  }

  lemma {:induction false} SumsRemove(b: seq<Group>, i: nat, chosen: set<nat>, g: Group)
    requires i < |b|
    ensures var shorter := b[..i] + b[i + 1..];
            && ChosenAbove(b, chosen, g) == ChosenAbove(shorter, chosen, g) + (if b[i].index in chosen && Before(b[i], g) then b[i].tokens else 0)
            && ChosenTokens(b, chosen) == ChosenTokens(shorter, chosen) + (if b[i].index in chosen then b[i].tokens else 0)
            && AllTokens(b) == AllTokens(shorter) + b[i].tokens
    decreases |b|
  {
    var shorter := b[..i] + b[i + 1..];
    if i == |b| - 1 {
      assert shorter == b[..|b| - 1];
    } else {
      var c := b[..|b| - 1];
      SumsRemove(c, i, chosen, g);
      assert c[..i] + c[i + 1..] == shorter[..|shorter| - 1];
      assert shorter[|shorter| - 1] == b[|b| - 1];
    }
  }

  /** What the loop over the ranking chose is the greedy choice among the groups as they stand. */
  lemma {:induction false} LoopIsGreedy(groups: seq<Group>, ranked: seq<Group>, chosen: set<nat>, budget: nat)
    requires Ranked(ranked) && multiset(ranked) == multiset(groups)
    requires ChosenInOrder(ranked, chosen, budget, |ranked|) && AmongFirst(ranked, chosen, |ranked|)
    ensures GreedyChoice(groups, chosen, budget)
  {
    forall i | 0 <= i < |groups|
      ensures groups[i].index in chosen <==> ChosenAbove(groups, chosen, groups[i]) + groups[i].tokens <= budget
    {
      var g := groups[i];
      assert g in multiset(ranked);
      var j :| 0 <= j < |ranked| && ranked[j] == g;
      SumsPermute(ranked, groups, chosen, g);
      AboveIsPrefix(ranked, chosen, |ranked|, j);
      assert ranked[..|ranked|] == ranked;
    }
    forall k | k in chosen
      ensures exists i :: 0 <= i < |groups| && groups[i].index == k
    {
      var j :| 0 <= j < |ranked| && ranked[j].index == k;
      assert ranked[j] in multiset(groups);
    }
  }

  /** The condition determines the choice: no other set of groups satisfies it. */
  lemma {:induction false} GreedyChoiceUnique(ranked: seq<Group>, a: set<nat>, b: set<nat>, budget: nat)
    requires Ranked(ranked) && GreedyChoice(ranked, a, budget) && GreedyChoice(ranked, b, budget)
    ensures a == b
  {
    AgreeUpTo(ranked, a, b, budget, |ranked|);
    forall k
      ensures k in a <==> k in b
    {
    }
  }

  /** The same for groups in any order: some ranking of them exists. */
  lemma {:induction false} ChoiceUnique(groups: seq<Group>, a: set<nat>, b: set<nat>, budget: nat)
    requires Distinct(groups) && GreedyChoice(groups, a, budget) && GreedyChoice(groups, b, budget)
    ensures a == b
  {
    hide Ranked, Distinct, GreedyChoice;
    var ranked := SomeRanking(groups);
    ChoicePermutes(groups, ranked, a, budget);
    ChoicePermutes(groups, ranked, b, budget);
    GreedyChoiceUnique(ranked, a, b, budget);
  }

  lemma {:induction false} ChoicePermutes(groups: seq<Group>, ranked: seq<Group>, chosen: set<nat>, budget: nat)
    requires multiset(groups) == multiset(ranked) && GreedyChoice(groups, chosen, budget)
    ensures GreedyChoice(ranked, chosen, budget)
  {
    hide ChosenAbove;
    forall i | 0 <= i < |ranked|
      ensures ranked[i].index in chosen <==> ChosenAbove(ranked, chosen, ranked[i]) + ranked[i].tokens <= budget
    {
      assert ranked[i] in multiset(groups);
      SumsPermute(groups, ranked, chosen, ranked[i]);
    }
    forall k | k in chosen
      ensures exists i :: 0 <= i < |ranked| && ranked[i].index == k
    {
      var i :| 0 <= i < |groups| && groups[i].index == k;
      assert groups[i] in multiset(ranked);
    }
  }

  lemma {:induction false} SomeRanking(groups: seq<Group>) returns (ranked: seq<Group>)
    requires Distinct(groups)
    ensures Ranked(ranked) && Distinct(ranked) && multiset(ranked) == multiset(groups)
  {
    hide Ranked, Before;
    ranked := [];
    EmptyRanked();
    if |groups| > 0 {
      var n, g := |groups| - 1, groups[|groups| - 1];
      var rest := SomeRanking(groups[..n]);
      forall h | h in rest
        ensures h.index != g.index
      {
        assert h in multiset(groups[..n]);
      }
      var at := 0;
      while at < |rest| && Before(rest[at], g)
        invariant 0 <= at <= |rest|
        invariant forall j :: 0 <= j < at ==> Before(rest[j], g)
      {
        at := at + 1;
      }
      InsertRanked(rest, g, at);
      InsertDistinct(rest, g, at);
      ranked := rest[..at] + [g] + rest[at..];
      assert groups == groups[..n] + [g];
    }
  }

  lemma {:induction false} AgreeUpTo(ranked: seq<Group>, a: set<nat>, b: set<nat>, budget: nat, n: nat)
    requires Ranked(ranked) && GreedyChoice(ranked, a, budget) && GreedyChoice(ranked, b, budget) && n <= |ranked|
    ensures forall i :: 0 <= i < n ==> (ranked[i].index in a <==> ranked[i].index in b)
    ensures ChosenTokens(ranked[..n], a) == ChosenTokens(ranked[..n], b)
  {
    if n > 0 {
      AgreeUpTo(ranked, a, b, budget, n - 1);
      AboveIsPrefix(ranked, a, |ranked|, n - 1);
      AboveIsPrefix(ranked, b, |ranked|, n - 1);
      assert ranked[..|ranked|] == ranked && ranked[..n][..n - 1] == ranked[..n - 1];
    }
  }

  /** When all groups fit together none is dropped. */
  lemma {:induction false} AllFit(groups: seq<Group>, chosen: set<nat>, budget: nat, i: nat)
    requires GreedyChoice(groups, chosen, budget) && AllTokens(groups) <= budget && i < |groups|
    ensures groups[i].index in chosen
  {
    AboveBelowAll(groups, chosen, groups[i], i);
  }

  lemma {:induction false} AboveBelowAll(groups: seq<Group>, chosen: set<nat>, g: Group, i: nat)
    requires i <= |groups| && (i < |groups| ==> groups[i] == g)
    ensures ChosenAbove(groups, chosen, g) + (if i < |groups| then g.tokens else 0) <= AllTokens(groups)
    decreases |groups|
  {
    if |groups| > 0 {
      AboveBelowAll(groups[..|groups| - 1], chosen, g, if i < |groups| - 1 then i else |groups| - 1);
    }
  }

  /** The groups that stay, in their original order. */
  function Stay(groups: seq<Group>, chosen: set<nat>): seq<Group> {
    if |groups| == 0 then []
    else
      var last := groups[|groups| - 1];
      Stay(groups[..|groups| - 1], chosen) + if last.index in chosen then [last] else []
  }

  function Dropped(groups: seq<Group>, chosen: set<nat>): seq<Group> {
    if |groups| == 0 then []
    else
      var last := groups[|groups| - 1];
      Dropped(groups[..|groups| - 1], chosen) + if last.index in chosen then [] else [last]
  }

  function MessagesOf(groups: seq<Group>): seq<Message> {
    if |groups| == 0 then [] else MessagesOf(groups[..|groups| - 1]) + groups[|groups| - 1].messages
  }

  /** Every group's token count is the estimate of its messages. */
  predicate Measured(groups: seq<Group>) {
    forall i :: 0 <= i < |groups| ==> groups[i].tokens == EstimateMessages(groups[i].messages)
  }

  lemma {:induction false} StayCost(groups: seq<Group>, chosen: set<nat>)
    requires Measured(groups)
    ensures EstimateMessages(MessagesOf(Stay(groups, chosen))) == ChosenTokens(groups, chosen)
  {
    if |groups| > 0 {
      var rest, last := groups[..|groups| - 1], groups[|groups| - 1];
      StayCost(rest, chosen);
      if last.index in chosen {
        var kept := Stay(rest, chosen);
        assert (kept + [last])[..|kept|] == kept;
        EstimateConcat(MessagesOf(kept), last.messages);
      } else {
        assert Stay(rest, chosen) + [] == Stay(rest, chosen);
      }
    }
  }

  predicate Ascending(groups: seq<Group>) {
    forall i, j :: 0 <= i < j < |groups| ==> groups[i].index < groups[j].index
  }

  lemma {:induction false} StayMembers(groups: seq<Group>, chosen: set<nat>)
    ensures forall g :: g in Stay(groups, chosen) <==> g in groups && g.index in chosen
    ensures forall g :: g in Dropped(groups, chosen) <==> g in groups && g.index !in chosen
  {
    if |groups| > 0 {
      StayMembers(groups[..|groups| - 1], chosen);
      assert groups == groups[..|groups| - 1] + [groups[|groups| - 1]];
    }
  }

  lemma {:induction false} AscendingPush(groups: seq<Group>, g: Group)
    requires Ascending(groups) && forall h :: h in groups ==> h.index < g.index
    ensures Ascending(groups + [g])
  {
  }

  lemma {:induction false} AscendingLast(groups: seq<Group>)
    requires Ascending(groups) && |groups| > 0
    ensures Ascending(groups[..|groups| - 1])
    ensures forall g :: g in groups[..|groups| - 1] ==> g.index < groups[|groups| - 1].index
  {
  }

  lemma {:induction false} StayAscending(groups: seq<Group>, chosen: set<nat>)
    requires Ascending(groups)
    ensures Ascending(Stay(groups, chosen)) && Ascending(Dropped(groups, chosen))
  {
    if |groups| > 0 {
      var rest, last := groups[..|groups| - 1], groups[|groups| - 1];
      AscendingLast(groups);
      hide Ascending;
      StayMembers(rest, chosen);
      StayAscending(rest, chosen);
      AscendingPush(Stay(rest, chosen), last);
      AscendingPush(Dropped(rest, chosen), last);
    }
  }

  /** The groups that stay are exactly the chosen ones, in their original order; the others are dropped in theirs. */
  lemma {:induction false} StayExact(groups: seq<Group>, chosen: set<nat>)
    requires Ascending(groups)
    ensures forall g :: g in Stay(groups, chosen) <==> g in groups && g.index in chosen
    ensures forall g :: g in Dropped(groups, chosen) <==> g in groups && g.index !in chosen
    ensures Ascending(Stay(groups, chosen)) && Ascending(Dropped(groups, chosen))
  {
    hide Stay, Dropped, Ascending;
    StayMembers(groups, chosen);
    StayAscending(groups, chosen);
  }
}
