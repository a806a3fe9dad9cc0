/**
 Assembling the context under the token budget: shrinking the task memory until it
 fits, and the proof that a context whose mandatory part fits is never over budget.
 */
module ContextEngine {
  import opened Wrappers
  import opened ContextText
  import opened ContextSelect

  // ------------------------------------------------------------------- memory

  datatype Evidence = Evidence(stepIndex: nat, source: string, success: bool, summary: string, paths: seq<string>)

  datatype Memory = Memory(omittedCount: nat, omittedIndices: seq<nat>, unfinished: seq<string>,
                           decisions: seq<string>, failures: seq<string>, evidence: seq<Evidence>)

  const SHORT: nat := 100

  function DropLast<T>(s: seq<T>): seq<T>
    requires |s| > 0
  {
    s[..|s| - 1]
  }

  /** The next, smaller memory to try; nothing when every way to shrink is used up. */
  function Shrink(m: Memory): Option<Memory> {
    if |m.decisions| > 0 then Some(m.(decisions := DropLast(m.decisions)))
    else if |m.evidence| > 1 then Some(m.(evidence := DropLast(m.evidence)))
    else if |m.failures| > 1 then Some(m.(failures := DropLast(m.failures)))
    else if |m.unfinished| > 1 then Some(m.(unfinished := DropLast(m.unfinished)))
    else if |m.evidence| > 0 && |m.evidence[0].summary| > SHORT then
      Some(m.(evidence := [m.evidence[0].(summary := TruncateText(m.evidence[0].summary, SHORT).0)]))
    else if |m.unfinished| > 0 && |m.unfinished[0]| > SHORT then
      Some(m.(unfinished := [TruncateText(m.unfinished[0], SHORT).0]))
    else if |m.failures| > 0 && |m.failures[0]| > SHORT then
      Some(m.(failures := [TruncateText(m.failures[0], SHORT).0]))
    else None
  }

  function FirstLength(s: seq<string>): nat {
    if |s| > 0 then |s[0]| else 0
  }

  /** What each shrinking step makes smaller: list entries first, then characters. */
  function Entries(m: Memory): nat {
    |m.decisions| + |m.evidence| + |m.failures| + |m.unfinished|
  }

  function Characters(m: Memory): nat {
    (if |m.evidence| > 0 then |m.evidence[0].summary| else 0) + FirstLength(m.unfinished) + FirstLength(m.failures)
  }

  lemma {:induction false} ShrinkShrinks(m: Memory)
    requires Shrink(m).Some?
    ensures var n := Shrink(m).value;
            Entries(n) < Entries(m) || (Entries(n) == Entries(m) && Characters(n) < Characters(m))
  {
    if |m.evidence| > 0 && |m.evidence[0].summary| > SHORT {
      TruncationShrinks(m.evidence[0].summary, SHORT);
    }
    if |m.unfinished| > 0 && |m.unfinished[0]| > SHORT {
      TruncationShrinks(m.unfinished[0], SHORT);
    }
    if |m.failures| > 0 && |m.failures[0]| > SHORT {
      TruncationShrinks(m.failures[0], SHORT);
    }
  }

  /** How a memory is put into a message; `render` stands for the prefix and its JSON text. */
  function MemoryMessage(m: Memory, role: MessageRole, render: Memory -> string): Message {
    Message(role, render(m), None, [])
  }

  function Minimal(m: Memory): Memory {
    Memory(m.omittedCount, m.omittedIndices, if |m.unfinished| > 0 then [m.unfinished[0]] else [], [], [], [])
  }

  predicate Fits(m: Memory, limit: nat, role: MessageRole, render: Memory -> string) {
    EstimateMessages([MemoryMessage(m, role, render)]) <= limit
  }

  /** The first memory along the chain of shrinkings that fits, else its minimal form, else nothing. */
  function Fit(m: Memory, limit: nat, role: MessageRole, render: Memory -> string): (r: Option<Memory>)
    ensures r.Some? ==> Fits(r.value, limit, role, render)
    decreases Entries(m), Characters(m)
  {
    if Fits(m, limit, role, render) then Some(m)
    else if Shrink(m).Some? then
      ShrinkShrinks(m);
      Fit(Shrink(m).value, limit, role, render)
    else if Fits(Minimal(m), limit, role, render) then Some(Minimal(m))
    else None
  }

  /** The loop: it ends for every memory and limit, with nothing or a memory whose message fits. */
  method FitMemory(memory: Memory, limit: nat, role: MessageRole, render: Memory -> string) returns (r: Option<Memory>)
    ensures r == Fit(memory, limit, role, render)
    ensures r.Some? ==> Fits(r.value, limit, role, render)
    ensures Fits(memory, limit, role, render) ==> r == Some(memory)
  {
    hide Fits;
    var m := memory;
    while !Fits(m, limit, role, render)
      invariant Fit(m, limit, role, render) == Fit(memory, limit, role, render)
      invariant Fits(memory, limit, role, render) ==> m == memory
      decreases Entries(m), Characters(m)
    {
      match Shrink(m)
      case Some(n) =>
        ShrinkShrinks(m);
        m := n;
      case None =>
        if Fits(Minimal(m), limit, role, render) {
          return Some(Minimal(m));
        }
        return None;
    }
    return Some(m);
  }

  /** What survives shrinking still comes from the memory: same omissions, and each list a prefix up to truncation of its head. */
  lemma {:induction false} FitKeepsOrigin(m: Memory, limit: nat, role: MessageRole, render: Memory -> string)
    requires Fit(m, limit, role, render).Some?
    ensures var k := Fit(m, limit, role, render).value;
            && k.omittedCount == m.omittedCount && k.omittedIndices == m.omittedIndices && k.decisions <= m.decisions
            && |k.evidence| <= |m.evidence| && |k.failures| <= |m.failures| && |k.unfinished| <= |m.unfinished|
            && (|k.evidence| > 1 ==> k.evidence <= m.evidence) && (|k.failures| > 1 ==> k.failures <= m.failures)
            && (|k.unfinished| > 1 ==> k.unfinished <= m.unfinished)
            && (m.unfinished != [] ==> k.unfinished != [])
    decreases Entries(m), Characters(m)
  {
    hide Fits;
    if !Fits(m, limit, role, render) && Shrink(m).Some? {
      ShrinkShrinks(m);
      FitKeepsOrigin(Shrink(m).value, limit, role, render);
    }
  }

  /**
   The order in which a memory gives way: decisions first, then all evidence but one, all
   failures but one, all unfinished work but one, and texts are shortened only after that.
   */
  lemma {:induction false} FitOrder(m: Memory, limit: nat, role: MessageRole, render: Memory -> string)
    requires Fit(m, limit, role, render).Some?
    ensures var k := Fit(m, limit, role, render).value;
            && (k.evidence != m.evidence ==> k.decisions == [])
            && (k.failures != m.failures ==> k.decisions == [] && |k.evidence| <= 1)
            && (k.unfinished != m.unfinished ==> k.decisions == [] && |k.evidence| <= 1 && |k.failures| <= 1)
            && (k.evidence != [] && m.evidence != [] && k.evidence[0] != m.evidence[0] ==> |k.failures| <= 1 && |k.unfinished| <= 1)
            && (Fits(m, limit, role, render) ==> k == m)
    decreases Entries(m), Characters(m)
  {
    hide Fits;
    if !Fits(m, limit, role, render) && Shrink(m).Some? {
      ShrinkShrinks(m);
      FitOrder(Shrink(m).value, limit, role, render);
      FitKeepsOrigin(Shrink(m).value, limit, role, render);
    }
  }

  // ------------------------------------------------------------------- budget

  function Min(a: nat, b: nat): nat {
    if a < b then a else b
  }

  /** What is set aside for the memory when the history does not fit. */
  function Reserve(history: nat, total: nat, withMemory: bool): (r: nat)
    ensures r <= history
    ensures r > 0 <==> withMemory && total > history && history >= 96
    ensures r > 0 ==> r == 96 || r == 768 || 3 * r <= history < 3 * r + 3
    ensures r == 96 ==> history < 291
    ensures r == 768 ==> history >= 2304
    ensures r > 0 ==> 96 <= r <= 768
  {
    if withMemory && total > history && history >= 96 then Min(768, Max(96, history / 3)) else 0
  }

  datatype BuildError = MandatoryTooLarge | NegativeHistoryBudget | AssembledTooLarge

  datatype Window = Window(messages: seq<Message>, memory: Option<Memory>, estimate: nat, kept: set<nat>)

  /** The opaque parts of assembly: relevance scoring, summarizing dropped steps, and rendering a memory. */
  datatype Tools = Tools(tokens: nat, score: seq<Message> -> nat, summarize: seq<Group> -> Memory, render: Memory -> string)

  /** How the caller wants the prompt laid out. */
  datatype Layout = Layout(historyBudget: Option<int>, withMemory: bool, memoryRole: MessageRole, memoryInSystem: bool)

  /** The messages before the history: the prefix, with the memory merged into its head or after the runtime memory. */
  function Opening(prefix: seq<Message>, pinned: seq<Message>, runtime: Option<Message>, memory: Option<Message>, merge: bool)
    : seq<Message>
    requires |prefix| > 0
  {
    var head := if memory.Some? && merge then [Merged(prefix[0], memory.value)] + prefix[1..] else prefix;
    head + pinned + (if runtime.Some? then [runtime.value] else [])
    + (if memory.Some? && !merge then [memory.value] else [])
  }

  /** The memory of a window as a message of its own. */
  function Note(memory: Option<Memory>, layout: Layout, tools: Tools): Option<Message> {
    if memory.Some? then Some(MemoryMessage(memory.value, layout.memoryRole, tools.render)) else None
  }

  /**
   Every message in its place: the first message of the prefix, with the memory's text added
   when it is merged, the rest of the prefix, the pinned messages, the runtime memory, the
   memory as a message when it is not merged, and the history that stays; nothing else.
   */
  ghost predicate Laid(messages: seq<Message>, prefix: seq<Message>, pinned: seq<Message>, runtime: Option<Message>,
                       memory: Option<Memory>, layout: Layout, tools: Tools, history: seq<Message>)
    requires |prefix| > 0
  {
    var merged := memory.Some? && layout.memoryInSystem;
    var p := |prefix| + |pinned|;
    var q := p + if runtime.Some? then 1 else 0;
    var h := q + if memory.Some? && !merged then 1 else 0;
    && |messages| == h + |history|
    && messages[0] == prefix[0].(content := messages[0].content)
    && messages[0].content == prefix[0].content + (if merged then "\n\n" + tools.render(memory.value) else "")
    && messages[1..|prefix|] == prefix[1..]
    && messages[|prefix|..p] == pinned
    && (runtime.Some? ==> messages[p] == runtime.value)
    && (memory.Some? && !merged ==> messages[q] == Message(layout.memoryRole, tools.render(memory.value), None, []))
    && messages[h..] == history
  }

  lemma {:induction false} OpeningLaid(prefix: seq<Message>, pinned: seq<Message>, runtime: Option<Message>,
                                       memory: Option<Memory>, layout: Layout, tools: Tools, history: seq<Message>)
    requires |prefix| > 0
    ensures Laid(Opening(prefix, pinned, runtime, Note(memory, layout, tools), layout.memoryInSystem) + history,
                 prefix, pinned, runtime, memory, layout, tools, history)
  {
    var note := Note(memory, layout, tools);
    var opening := Opening(prefix, pinned, runtime, note, layout.memoryInSystem);
    var messages := opening + history;
    assert prefix[0].content + "" == prefix[0].content;
    assert messages[1..|prefix|] == prefix[1..];
    assert messages[|prefix|..|prefix| + |pinned|] == pinned;
    assert messages[|opening|..] == history;
  }

  /** The layout determines the messages. */
  lemma {:induction false} LaidUnique(a: seq<Message>, b: seq<Message>, prefix: seq<Message>, pinned: seq<Message>,
                                      runtime: Option<Message>, memory: Option<Memory>, layout: Layout, tools: Tools,
                                      history: seq<Message>)
    requires |prefix| > 0
    requires Laid(a, prefix, pinned, runtime, memory, layout, tools, history)
    requires Laid(b, prefix, pinned, runtime, memory, layout, tools, history)
    ensures a == b
  {
    var p := |prefix| + |pinned|;
    var h := |a| - |history|;
    forall i | 0 <= i < |a|
      ensures a[i] == b[i]
    {
      if 1 <= i < |prefix| {
        assert a[i] == a[1..|prefix|][i - 1] && b[i] == b[1..|prefix|][i - 1];
      } else if |prefix| <= i < p {
        assert a[i] == a[|prefix|..p][i - |prefix|] && b[i] == b[|prefix|..p][i - |prefix|];
      } else if h <= i {
        assert a[i] == a[h..][i - h] && b[i] == b[h..][i - h];
      }
    }
  }

  function Cost(m: Option<Message>): nat {
    if m.Some? then EstimateMessage(m.value) else 0
  }

  lemma {:induction false} OpeningCost(prefix: seq<Message>, pinned: seq<Message>, runtime: Option<Message>,
                                       memory: Option<Message>, merge: bool)
    requires |prefix| > 0
    ensures EstimateMessages(Opening(prefix, pinned, runtime, memory, merge))
            <= EstimateMessages(prefix) + EstimateMessages(pinned) + Cost(runtime) + Cost(memory)
  {
    var head := if memory.Some? && merge then [Merged(prefix[0], memory.value)] + prefix[1..] else prefix;
    var run := if runtime.Some? then [runtime.value] else [];
    var mem := if memory.Some? && !merge then [memory.value] else [];
    EstimateConcat(head + pinned + run, mem);
    EstimateConcat(head + pinned, run);
    EstimateConcat(head, pinned);
    if runtime.Some? {
      EstimateOne(runtime.value);
    }
    if memory.Some? {
      EstimateOne(memory.value);
      if merge {
        HeadCost(prefix, memory.value);
      }
    }
  }

  lemma {:induction false} HeadCost(prefix: seq<Message>, memory: Message)
    requires |prefix| > 0
    ensures EstimateMessages([Merged(prefix[0], memory)] + prefix[1..]) <= EstimateMessages(prefix) + EstimateMessage(memory)
  {
    assert prefix == [prefix[0]] + prefix[1..];
    EstimateConcat([prefix[0]], prefix[1..]);
    EstimateConcat([Merged(prefix[0], memory)], prefix[1..]);
    EstimateOne(prefix[0]);
    EstimateOne(Merged(prefix[0], memory));
    MergingIsCheaper(prefix[0], memory);
  }

  class Engine {
    const maxTokens: nat
    const recentSteps: nat

    constructor (maxTokens: nat, recentSteps: nat)
      requires maxTokens >= 256 && recentSteps >= 1
      ensures this.maxTokens == maxTokens && this.recentSteps == recentSteps
    {
      this.maxTokens, this.recentSteps := maxTokens, recentSteps;
    }

    /** Measure and score the step groups of the history. */
    method Groups(history: seq<Message>, score: seq<Message> -> nat) returns (groups: seq<Group>)
      ensures Grouped(groups, history, score, recentSteps)
    {
      hide WellGrouped, EstimateMessages;
      var raw := SplitGroups(history);
      groups := [];
      var i := 0;
      while i < |raw|
        invariant 0 <= i <= |raw| && |groups| == i
        invariant forall k :: 0 <= k < i ==>
                    groups[k] == Group(k, raw[k], EstimateMessages(raw[k]), score(raw[k]), k + recentSteps >= |raw|)
      {
        groups := groups + [Group(i, raw[i], EstimateMessages(raw[i]), score(raw[i]), i + recentSteps >= |raw|)];
        i := i + 1;
      }
      MeasuredGroups(raw, groups, score, recentSteps);
    }

    /** Spend the history budget: the greedy choice, and the memory of what it drops in what is left. */
    method Spend(groups: seq<Group>, history: nat, layout: Layout, tools: Tools)
      returns (chosen: set<nat>, memory: Option<Memory>)
      requires Indexed(groups)
      ensures GreedyChoice(groups, chosen, history - Reserve(history, AllTokens(groups), layout.withMemory))
      ensures ChosenTokens(groups, chosen) + MemoryCost(memory, layout, tools) <= history
      ensures memory == Remembered(groups, chosen, history - ChosenTokens(groups, chosen), layout, tools)
    {
      hide Fit, EstimateMessages, EstimateMessage, MemoryMessage, GreedyChoice, Dropped, ChosenTokens, AllTokens;
      var reserve := Reserve(history, AllTokens(groups), layout.withMemory);
      var ranked := Rank(groups);
      var remaining;
      chosen, remaining := Select(ranked, history - reserve);
      LoopIsGreedy(groups, ranked, chosen, history - reserve);
      SumsPermute(ranked, groups, chosen, Group(0, [], 0, 0, false));
      memory := None;
      var dropped := Dropped(groups, chosen);
      if layout.withMemory && dropped != [] && reserve + remaining > 0 {
        memory := FitMemory(tools.summarize(dropped), reserve + remaining, layout.memoryRole, tools.render);
        if memory.Some? {
          EstimateOne(MemoryMessage(memory.value, layout.memoryRole, tools.render));
        }
      }
    }

    /**
     Assemble the window. The budget error after assembly is not among the outcomes:
     whenever the mandatory messages fit, the whole window does.
     */
    method Build(prefix: seq<Message>, pinned: seq<Message>, runtime: Option<Message>, history: seq<Message>,
                 layout: Layout, tools: Tools)
      returns (r: Result<Window, BuildError>)
      requires |prefix| >= 2
      ensures var fixed := tools.tokens + EstimateMessages(prefix) + EstimateMessages(pinned) + Cost(runtime);
              && (r == Failure(MandatoryTooLarge) <==> fixed > maxTokens)
              && (r == Failure(NegativeHistoryBudget) <==>
                    fixed <= maxTokens && layout.historyBudget.Some? && layout.historyBudget.value < 0)
              && r != Failure(AssembledTooLarge)
      ensures r.Success? ==> r.value.estimate == EstimateMessages(r.value.messages) + tools.tokens <= maxTokens
      ensures r.Success? ==> exists groups: seq<Group> ::
                && Grouped(groups, history, tools.score, recentSteps)
                && Assembled(r.value, groups, prefix, pinned, runtime, layout, tools, maxTokens)
    {
      hide EstimateMessages, EstimateMessage, Opening, GreedyChoice, Stay, MessagesOf, Measured, Indexed, Dropped;
      hide AllTokens, ChosenTokens, MemoryMessage, Laid, Remembered;
      var groups := Groups(history, tools.score);
      var fixed := tools.tokens + EstimateMessages(prefix) + EstimateMessages(pinned) + Cost(runtime);
      if fixed > maxTokens {
        return Failure(MandatoryTooLarge);
      }
      if layout.historyBudget.Some? && layout.historyBudget.value < 0 {
        return Failure(NegativeHistoryBudget);
      }
      var budget := HistoryBudget(maxTokens - fixed, layout);
      var chosen, memory := Spend(groups, budget, layout, tools);
      var note := Note(memory, layout, tools);
      var stay := MessagesOf(Stay(groups, chosen));
      var opening := Opening(prefix, pinned, runtime, note, layout.memoryInSystem);
      var output := opening + stay;
      OpeningCost(prefix, pinned, runtime, note, layout.memoryInSystem);
      OpeningLaid(prefix, pinned, runtime, memory, layout, tools, stay);
      EstimateConcat(opening, stay);
      StayCost(groups, chosen);
      var estimate := EstimateMessages(output) + tools.tokens;
      if estimate > maxTokens {
        return Failure(AssembledTooLarge);
      }
      var window := Window(output, memory, estimate, chosen);
      assert Assembled(window, groups, prefix, pinned, runtime, layout, tools, maxTokens);
      return Success(window);
    }
  }

  /** The history cut into measured, scored step groups, the last `recentSteps` of them recent. */
  ghost predicate Grouped(groups: seq<Group>, history: seq<Message>, score: seq<Message> -> nat, recentSteps: nat) {
    && Indexed(groups) && Measured(groups) && MessagesOf(groups) == history
    && (forall i :: 0 <= i < |groups| ==>
          && OneStep(groups[i].messages) && groups[i].relevance == score(groups[i].messages)
          && (groups[i].recent <==> i + recentSteps >= |groups|)
          && (i > 0 ==> groups[i].messages[0].role.AssistantRole?))
  }

  lemma {:induction false} MeasuredGroups(raw: seq<seq<Message>>, groups: seq<Group>, score: seq<Message> -> nat, recentSteps: nat)
    requires WellGrouped(raw) && |groups| == |raw|
    requires forall k :: 0 <= k < |raw| ==>
               groups[k] == Group(k, raw[k], EstimateMessages(raw[k]), score(raw[k]), k + recentSteps >= |raw|)
    ensures Grouped(groups, Flatten(raw), score, recentSteps)
  {
    hide EstimateMessages;
    MessagesAreFlat(raw, groups);
    forall i | 0 <= i < |groups|
      ensures OneStep(groups[i].messages) && (i > 0 ==> groups[i].messages[0].role.AssistantRole?)
    {
      assert OneStep(raw[i]);
      assert i > 0 ==> raw[i][0].role.AssistantRole?;
    }
  }

  lemma {:induction false} MessagesAreFlat(raw: seq<seq<Message>>, groups: seq<Group>)
    requires |groups| == |raw| && forall k :: 0 <= k < |raw| ==> groups[k].messages == raw[k]
    ensures MessagesOf(groups) == Flatten(raw)
  {
    if |raw| > 0 {
      MessagesAreFlat(raw[..|raw| - 1], groups[..|raw| - 1]);
    }
  }

  /** The tokens history and memory may use together. */
  function HistoryBudget(available: nat, layout: Layout): nat
    requires layout.historyBudget.Some? ==> layout.historyBudget.value >= 0
  {
    if layout.historyBudget.None? then available else Min(available, layout.historyBudget.value)
  }

  /** The memory of the dropped groups, as much of it as fits what the chosen ones leave. */
  function Remembered(groups: seq<Group>, chosen: set<nat>, rest: int, layout: Layout, tools: Tools): Option<Memory> {
    var dropped := Dropped(groups, chosen);
    if layout.withMemory && dropped != [] && rest > 0
    then Fit(tools.summarize(dropped), rest, layout.memoryRole, tools.render)
    else None
  }

  /** The window holds the groups of the greedy choice, whole and in order, behind the fixed messages. */
  ghost predicate Assembled(w: Window, groups: seq<Group>, prefix: seq<Message>, pinned: seq<Message>,
                            runtime: Option<Message>, layout: Layout, tools: Tools, maxTokens: nat)
    requires |prefix| >= 2
  {
    var fixed := tools.tokens + EstimateMessages(prefix) + EstimateMessages(pinned) + Cost(runtime);
    && fixed <= maxTokens && (layout.historyBudget.Some? ==> layout.historyBudget.value >= 0)
    && Laid(w.messages, prefix, pinned, runtime, w.memory, layout, tools, MessagesOf(Stay(groups, w.kept)))
    && var budget := HistoryBudget(maxTokens - fixed, layout);
       && GreedyChoice(groups, w.kept, budget - Reserve(budget, AllTokens(groups), layout.withMemory))
       && w.memory == Remembered(groups, w.kept, budget - ChosenTokens(groups, w.kept), layout, tools)
  }

  /** If the whole history fits its budget every message of it is in the window. */
  lemma {:induction false} FittingHistoryIsKept(w: Window, groups: seq<Group>, history: seq<Message>, prefix: seq<Message>,
                                                pinned: seq<Message>, runtime: Option<Message>, layout: Layout, tools: Tools,
                                                recentSteps: nat, maxTokens: nat)
    requires |prefix| >= 2 && Grouped(groups, history, tools.score, recentSteps)
    requires Assembled(w, groups, prefix, pinned, runtime, layout, tools, maxTokens)
    requires var fixed := tools.tokens + EstimateMessages(prefix) + EstimateMessages(pinned) + Cost(runtime);
             AllTokens(groups) <= HistoryBudget(maxTokens - fixed, layout)
    ensures w.memory.None?
    ensures w.messages == prefix + pinned + (if runtime.Some? then [runtime.value] else []) + history
  {
    var fixed := tools.tokens + EstimateMessages(prefix) + EstimateMessages(pinned) + Cost(runtime);
    var budget := HistoryBudget(maxTokens - fixed, layout);
    assert Reserve(budget, AllTokens(groups), layout.withMemory) == 0;
    forall i | 0 <= i < |groups|
      ensures groups[i].index in w.kept
    {
      AllFit(groups, w.kept, budget, i);
    }
    AllStay(groups, w.kept);
    PlainLayout(w.messages, prefix, pinned, runtime, layout, tools, history);
  }

  lemma {:induction false} PlainLayout(messages: seq<Message>, prefix: seq<Message>, pinned: seq<Message>,
                                       runtime: Option<Message>, layout: Layout, tools: Tools, history: seq<Message>)
    requires |prefix| > 0 && Laid(messages, prefix, pinned, runtime, None, layout, tools, history)
    ensures messages == prefix + pinned + (if runtime.Some? then [runtime.value] else []) + history
  {
    var opening := Opening(prefix, pinned, runtime, None, layout.memoryInSystem);
    OpeningLaid(prefix, pinned, runtime, None, layout, tools, history);
    LaidUnique(messages, opening + history, prefix, pinned, runtime, None, layout, tools, history);
    assert opening == prefix + pinned + (if runtime.Some? then [runtime.value] else []);
  }

  /** Nothing is left open: budget, layout and history determine the messages, the memory and what is kept. */
  lemma {:induction false} WindowDetermined(v: Window, w: Window, a: seq<Group>, b: seq<Group>, history: seq<Message>,
                                            prefix: seq<Message>, pinned: seq<Message>, runtime: Option<Message>,
                                            layout: Layout, tools: Tools, recentSteps: nat, maxTokens: nat)
    requires |prefix| >= 2
    requires Grouped(a, history, tools.score, recentSteps) && Grouped(b, history, tools.score, recentSteps)
    requires Assembled(v, a, prefix, pinned, runtime, layout, tools, maxTokens)
    requires Assembled(w, b, prefix, pinned, runtime, layout, tools, maxTokens)
    ensures v.messages == w.messages && v.memory == w.memory && v.kept == w.kept
  {
    hide EstimateMessages, Grouped, Laid, Remembered, GreedyChoice, Reserve, Indexed, Distinct;
    GroupsUnique(a, b, history, tools.score, recentSteps);
    var fixed := tools.tokens + EstimateMessages(prefix) + EstimateMessages(pinned) + Cost(runtime);
    var budget := HistoryBudget(maxTokens - fixed, layout);
    GroupedDistinct(a, history, tools.score, recentSteps);
    ChoiceUnique(a, v.kept, w.kept, budget - Reserve(budget, AllTokens(a), layout.withMemory));
    LaidUnique(v.messages, w.messages, prefix, pinned, runtime, v.memory, layout, tools, MessagesOf(Stay(a, v.kept)));
  }

  lemma {:induction false} GroupedDistinct(a: seq<Group>, history: seq<Message>, score: seq<Message> -> nat, recentSteps: nat)
    requires Grouped(a, history, score, recentSteps)
    ensures Distinct(a)
  {
    hide EstimateMessages, MessagesOf;
  }

  lemma {:induction false} GroupsUnique(a: seq<Group>, b: seq<Group>, history: seq<Message>, score: seq<Message> -> nat,
                                        recentSteps: nat)
    requires Grouped(a, history, score, recentSteps) && Grouped(b, history, score, recentSteps)
    ensures a == b
  {
    hide EstimateMessages, MessagesOf, OneStep;
    var x := seq(|a|, i requires 0 <= i < |a| => a[i].messages);
    var y := seq(|b|, i requires 0 <= i < |b| => b[i].messages);
    MessagesAreFlat(x, a);
    MessagesAreFlat(y, b);
    assert WellGrouped(x) && WellGrouped(y);
    SplitIsUnique(x, y);
    forall i | 0 <= i < |a|
      ensures |a| == |b| && a[i] == b[i]
    {
      assert x[i] == y[i];
    }
  }

  lemma {:induction false} AllStay(groups: seq<Group>, chosen: set<nat>)
    requires forall i :: 0 <= i < |groups| ==> groups[i].index in chosen
    ensures Stay(groups, chosen) == groups && Dropped(groups, chosen) == []
  {
    if |groups| > 0 {
      AllStay(groups[..|groups| - 1], chosen);
    }
  }

  function MemoryCost(memory: Option<Memory>, layout: Layout, tools: Tools): nat {
    Cost(Note(memory, layout, tools))
  }
}
