/**
 Every run of the task, with crashes and resumptions anywhere: each turn reaches the
 conversation exactly once, each answer is paid for exactly once, the provider is not
 asked twice for a stored answer, and no tool starts on a stale view of the input.
 */
module RuntimeProofs {
  import opened Wrappers
  import opened RuntimeModel

  // ------------------------------------------------------------- conversation

  lemma {:induction false} TakenConcat(a: seq<Msg>, b: seq<Msg>)
    ensures Taken(a + b) == Taken(a) + Taken(b)
  {
    if |b| == 0 {
      assert a + b == a;
    } else {
      TakenConcat(a, b[..|b| - 1]);
      assert (a + b)[..|a + b| - 1] == a + b[..|b| - 1];
    }
  }

  lemma {:induction false} UserTurnsConcat(a: seq<Turn>, b: seq<Turn>)
    ensures UserTurns(a + b) == UserTurns(a) + UserTurns(b)
  {
    if |b| == 0 {
      assert a + b == a;
    } else {
      UserTurnsConcat(a, b[..|b| - 1]);
      assert (a + b)[..|a + b| - 1] == a + b[..|b| - 1];
    }
  }

  lemma {:induction false} TakenOfTurns(turns: seq<Turn>)
    ensures Taken(UserTurns(turns)) == UserTurns(turns) && Taken(History(turns)) == History(turns)
  {
    if |turns| > 0 {
      var rest := turns[..|turns| - 1];
      TakenOfTurns(rest);
      TakenLast(UserTurns(rest), UserTurns(turns));
      TakenLast(History(rest), History(turns));
    }
  }

  lemma {:induction false} TakenLast(rest: seq<Msg>, all: seq<Msg>)
    requires Taken(rest) == rest
    requires all == rest || (|all| == |rest| + 1 && all[..|rest|] == rest && all[|rest|].FromTurn?)
    ensures Taken(all) == all
  {
  }

  lemma {:induction false} TakenOne(messages: seq<Msg>, last: Msg)
    requires !last.FromTurn?
    ensures Taken(messages + [last]) == Taken(messages)
  {
    assert (messages + [last])[..|messages|] == messages;
  }

  /** What the task should have heard of the log: the history it started with, then the turns for it up to a cursor. */
  ghost function Heard(turns: seq<Turn>, start: nat, cursor: nat): seq<Msg>
    requires start <= cursor <= |turns|
  {
    History(turns[..start]) + UserTurns(turns[start..cursor])
  }

  lemma {:induction false} HeardExtends(turns: seq<Turn>, start: nat, a: nat, b: nat)
    requires start <= a <= b <= |turns|
    ensures Heard(turns, start, b) == Heard(turns, start, a) + UserTurns(turns[a..b])
  {
    assert turns[start..b] == turns[start..a] + turns[a..b];
    UserTurnsConcat(turns[start..a], turns[a..b]);
  }

  lemma {:induction false} HeardStable(turns: seq<Turn>, turn: Turn, start: nat, cursor: nat)
    requires start <= cursor <= |turns|
    ensures Heard(turns + [turn], start, cursor) == Heard(turns, start, cursor)
  {
    assert (turns + [turn])[..start] == turns[..start] && (turns + [turn])[start..cursor] == turns[start..cursor];
  }

  /** The answers among the messages. */
  function Replies(messages: seq<Msg>): seq<Msg> {
    if |messages| == 0 then []
    else
      var last := messages[|messages| - 1];
      Replies(messages[..|messages| - 1]) + if last.Reply? then [last] else []
  }

  /** The stored answers of the first `n` steps, in order. */
  function Answers(steps: map<nat, Step>, n: nat): seq<Msg> {
    if n == 0 then []
    else Answers(steps, n - 1) + [Reply(if HasAnswer(steps, n - 1) then steps[n - 1].response.value.content else "")]
  }

  lemma {:induction false} RepliesConcat(a: seq<Msg>, b: seq<Msg>)
    ensures Replies(a + b) == Replies(a) + Replies(b)
  {
    if |b| == 0 {
      assert a + b == a;
    } else {
      RepliesConcat(a, b[..|b| - 1]);
      assert (a + b)[..|a + b| - 1] == a + b[..|b| - 1];
    }
  }

  lemma {:induction false} RepliesOfTurns(turns: seq<Turn>)
    ensures Replies(UserTurns(turns)) == [] && Replies(History(turns)) == []
  {
    if |turns| > 0 {
      var rest := turns[..|turns| - 1];
      RepliesOfTurns(rest);
      NoReplyLast(UserTurns(rest), UserTurns(turns));
      NoReplyLast(History(rest), History(turns));
    }
  }

  lemma {:induction false} NoReplyLast(rest: seq<Msg>, all: seq<Msg>)
    requires Replies(rest) == []
    requires all == rest || (|all| == |rest| + 1 && all[..|rest|] == rest && all[|rest|].FromTurn?)
    ensures Replies(all) == []
  {
  }

  lemma {:induction false} RepliesOne(messages: seq<Msg>, last: Msg)
    ensures Replies(messages + [last]) == Replies(messages) + if last.Reply? then [last] else []
  {
    assert (messages + [last])[..|messages|] == messages;
  }

  lemma {:induction false} AnswersDependOn(s: map<nat, Step>, t: map<nat, Step>, n: nat)
    requires forall i :: 0 <= i < n ==> i in s && i in t && s[i] == t[i]
    ensures Answers(s, n) == Answers(t, n)
  {
    if n > 0 {
      AnswersDependOn(s, t, n - 1);
    }
  }

  // ---------------------------------------------------------------- invariants

  /** The checkpoint's turn-derived messages are exactly what should have been heard up to its cursor. */
  ghost predicate Delivered(m: Machine) {
    && m.start <= m.ck.consumed <= |m.turns|
    && Taken(m.ck.messages) == Heard(m.turns, m.start, m.ck.consumed)
  }

  /** A process past the accounting holds the checkpoint's turns plus replies and observations. */
  ghost predicate InTouch(m: Machine) {
    m.process.Some? && !m.process.value.pc.Reconciling? ==> Taken(m.process.value.messages) == Taken(m.ck.messages)
  }

  /** The answer stored for the current step was asked for with the checkpoint's cursor. */
  ghost predicate Aligned(m: Machine) {
    && (HasAnswer(m.steps, m.ck.next) ==> m.steps[m.ck.next].consumed == m.ck.consumed)
    && (m.process.Some? ==>
          var p := m.process.value;
          && (p.pc.Recorded? || p.pc.Requested? || p.pc.Called? ==> p.step == Step(m.ck.consumed, None))
          && (p.pc.Consumed? || p.pc.Recorded? || p.pc.Requested? || p.pc.Called? ==> !HasAnswer(m.steps, m.ck.next))
          && (p.pc.Answered? || p.pc.Accounting? || p.pc.Acting? || p.pc.Working? ==>
                HasAnswer(m.steps, m.ck.next) && p.step == m.steps[m.ck.next])
          && (p.pc.Acting? || p.pc.Working? ==> m.ck.next in m.ck.accounted))
  }

  function Usage(steps: map<nat, Step>, i: nat): nat {
    if HasAnswer(steps, i) then steps[i].response.value.usage else 0
  }

  function UsageUpTo(steps: map<nat, Step>, n: nat): nat {
    if n == 0 then 0 else UsageUpTo(steps, n - 1) + Usage(steps, n - 1)
  }

  /** Steps are accounted in order, each once, and the total is the usage of exactly those. */
  ghost predicate AccountsFor(ck: Checkpoint, steps: map<nat, Step>) {
    var n := |ck.accounted|;
    && (forall i :: 0 <= i < n ==> ck.accounted[i] == i)
    && (n == ck.next || n == ck.next + 1)
    && (forall i :: 0 <= i < n ==> HasAnswer(steps, i))
    && (forall i :: i > ck.next ==> !HasAnswer(steps, i))
    && ck.total == UsageUpTo(steps, n)
  }

  ghost predicate Accounts(m: Machine) {
    AccountsFor(m.ck, m.steps)
  }

  /** An effect runs only under the process that claimed it, and no process acts beside an unresolved one. */
  ghost predicate Supervised(m: Machine) {
    m.process.Some? && !m.process.value.pc.Reconciling? ==>
      && !Unresolved(m.effects)
      && (forall e :: e in m.effects && m.effects[e].Executing? ==> m.process.value.pc == Working(e))
      && (m.process.value.pc.Working? ==> m.process.value.pc.effect in m.effects && m.effects[m.process.value.pc.effect].Executing?)
  }

  function CallsOf(calls: seq<nat>, i: nat): nat {
    if |calls| == 0 then 0
    else CallsOf(calls[..|calls| - 1], i) + if calls[|calls| - 1] == i then 1 else 0
  }

  /** Calls of a step whose answer was never stored. */
  ghost function LostCalls(m: Machine, i: nat): int {
    CallsOf(m.calls, i) - if i in m.answered then 1 else 0
  }

  /** A lost call is on record as unknown usage, or is the request in flight. */
  ghost predicate Honest(m: Machine) {
    && (forall i :: i in m.answered ==> HasAnswer(m.steps, i))
    && (forall i :: LostCalls(m, i) > 0 ==>
          i in m.ck.unknown || (LostCalls(m, i) == 1 && m.ck.pending == Some(i) && !HasAnswer(m.steps, i)))
    && (m.ck.pending.Some? ==> m.ck.pending.value == m.ck.next)
    && (m.process.Some? ==>
          var pc := m.process.value.pc;
          && (pc.Requested? || pc.Called? ==> m.ck.pending == Some(m.ck.next))
          && (pc.Top? || pc.Consumed? || pc.Recorded? ==> m.ck.pending.None?)
          && (pc.Called? ==> LostCalls(m, m.ck.next) > 0)
          && (pc.Requested? && LostCalls(m, m.ck.next) > 0 ==> m.ck.next in m.ck.unknown))
  }

  /** The conversation holds the stored answer of every finished step once, and of the current one while it is acted on. */
  ghost predicate Recounts(m: Machine) {
    && Replies(m.ck.messages) == Answers(m.steps, m.ck.next)
    && (m.process.Some? && !m.process.value.pc.Reconciling? ==>
          var pc := m.process.value.pc;
          Replies(m.process.value.messages) == Answers(m.steps, m.ck.next + if pc.Acting? || pc.Working? then 1 else 0))
  }

  ghost predicate Inv(m: Machine) {
    Delivered(m) && InTouch(m) && Aligned(m) && Accounts(m) && Supervised(m) && Honest(m) && Recounts(m)
  }

  lemma {:induction false} StartedInv(prompt: seq<string>, turns: seq<Turn>)
    ensures Inv(Started(prompt, turns))
  {
    var m := Started(prompt, turns);
    StartedDelivered(prompt, turns);
    StartedRecounts(prompt, turns);
    hide Delivered, Recounts, Taken, History;
  }

  lemma {:induction false} StartedRecounts(prompt: seq<string>, turns: seq<Turn>)
    ensures Recounts(Started(prompt, turns))
  {
    hide Replies, History;
    var opening := seq(|prompt|, i requires 0 <= i < |prompt| => Prompt(prompt[i]));
    RepliesConcat(opening, History(turns));
    RepliesOfPrompts(prompt, |prompt|);
    RepliesOfTurns(turns);
  }

  lemma {:induction false} RepliesOfPrompts(prompt: seq<string>, n: nat)
    requires n <= |prompt|
    ensures Replies(seq(n, i requires 0 <= i < n => Prompt(prompt[i]))) == []
  {
    if n > 0 {
      RepliesOfPrompts(prompt, n - 1);
      var all := seq(n, i requires 0 <= i < n => Prompt(prompt[i]));
      assert all[..n - 1] == seq(n - 1, i requires 0 <= i < n - 1 => Prompt(prompt[i]));
    }
  }

  lemma {:induction false} StartedDelivered(prompt: seq<string>, turns: seq<Turn>)
    ensures Delivered(Started(prompt, turns))
  {
    hide Taken, History;
    var opening := seq(|prompt|, i requires 0 <= i < |prompt| => Prompt(prompt[i]));
    TakenConcat(opening, History(turns));
    TakenPrompts(prompt, |prompt|);
    TakenOfTurns(turns);
    assert turns[..|turns|] == turns && turns[|turns|..|turns|] == [];
  }

  lemma {:induction false} TakenPrompts(prompt: seq<string>, n: nat)
    requires n <= |prompt|
    ensures Taken(seq(n, i requires 0 <= i < n => Prompt(prompt[i]))) == []
  {
    if n > 0 {
      TakenPrompts(prompt, n - 1);
      var all := seq(n, i requires 0 <= i < n => Prompt(prompt[i]));
      assert all[..n - 1] == seq(n - 1, i requires 0 <= i < n - 1 => Prompt(prompt[i]));
    }
  }

  // ------------------------------------------------------------- preservation

  lemma {:induction false} DeliveredKept(m: Machine, a: Action)
    requires Delivered(m) && InTouch(m) && Aligned(m)
    ensures Delivered(Do(m, a))
  {
    hide Heard, Taken, UserTurns, HasAnswer;
    match a
    case NewTurn(turn) => HeardStable(m.turns, turn, m.start, m.ck.consumed);
    case Consume =>
      if Do(m, a) != m {
        TakeTurns(m.ck.messages, m.turns, m.start, m.ck.consumed);
      }
    case Supersede =>
      if Do(m, a) != m {
        TakeTurns(m.process.value.messages, m.turns, m.start, m.ck.consumed);
      }
    case _ =>
  }

  /** Adding the turns from the cursor on to messages that hold those before it. */
  lemma {:induction false} TakeTurns(messages: seq<Msg>, turns: seq<Turn>, start: nat, cursor: nat)
    requires start <= cursor <= |turns| && Taken(messages) == Heard(turns, start, cursor)
    ensures Taken(messages + UserTurns(turns[cursor..])) == Heard(turns, start, |turns|)
  {
    TakenConcat(messages, UserTurns(turns[cursor..]));
    TakenOfTurns(turns[cursor..]);
    HeardExtends(turns, start, cursor, |turns|);
    assert turns[cursor..|turns|] == turns[cursor..];
  }

  lemma {:induction false} InTouchKept(m: Machine, a: Action)
    requires InTouch(m)
    ensures InTouch(Do(m, a))
  {
    hide Taken, UserTurns, HasAnswer, Unresolved, AnyExecuting;
    if m.process.Some? {
      var messages := m.process.value.messages;
      match a
      case Account =>
        if m.process.value.step.response.Some? {
          TakenOne(messages, Reply(m.process.value.step.response.value.content));
        }
      case Settle(e, text) => TakenOne(messages, Tool(text));
      case Commit(text) => TakenOne(messages, Tool(text));
      case Observe(text) => TakenOne(messages, Tool(text));
      case _ =>
    }
  }

  lemma {:induction false} AlignedKept(m: Machine, a: Action)
    requires Aligned(m) && Accounts(m)
    ensures Aligned(Do(m, a))
  {
    hide UserTurns, UsageUpTo, Unresolved, AnyExecuting, PrepareAll, RetryResponse;
  }

  lemma {:induction false} SupervisedKept(m: Machine, a: Action)
    requires Supervised(m)
    ensures Supervised(Do(m, a))
  {
    hide UserTurns, HasAnswer;
  }

  lemma {:induction false} UsageDependsOn(s: map<nat, Step>, t: map<nat, Step>, n: nat)
    requires forall i :: 0 <= i < n ==> Usage(s, i) == Usage(t, i)
    ensures UsageUpTo(s, n) == UsageUpTo(t, n)
  {
    if n > 0 {
      UsageDependsOn(s, t, n - 1);
    }
  }

  /** Writing the row of the current step, which has no answer yet, touches no accounted step. */
  lemma {:induction false} StepWritten(ck: Checkpoint, steps: map<nat, Step>, step: Step)
    requires AccountsFor(ck, steps) && !HasAnswer(steps, ck.next)
    ensures AccountsFor(ck, steps[ck.next := step])
  {
    var after := steps[ck.next := step];
    assert forall i :: i != ck.next ==> (HasAnswer(after, i) <==> HasAnswer(steps, i));
    UsageDependsOn(steps, after, |ck.accounted|);
  }

  lemma {:induction false} AccountNext(ck: Checkpoint, steps: map<nat, Step>)
    requires AccountsFor(ck, steps) && HasAnswer(steps, ck.next) && ck.next !in ck.accounted
    ensures steps[ck.next].response.Some?
    ensures AccountsFor(ck.(total := ck.total + steps[ck.next].response.value.usage, accounted := ck.accounted + [ck.next]), steps)
  {
    NotYetAccounted(ck, steps);
    UsageNext(steps, |ck.accounted|);
  }

  lemma {:induction false} NotYetAccounted(ck: Checkpoint, steps: map<nat, Step>)
    requires AccountsFor(ck, steps)
    ensures ck.next in ck.accounted || |ck.accounted| == ck.next
  {
    if |ck.accounted| == ck.next + 1 {
      assert ck.accounted[ck.next] == ck.next;
    }
  }

  lemma {:induction false} AccountsKept(m: Machine, a: Action)
    requires Aligned(m) && Accounts(m)
    ensures Accounts(Do(m, a))
  {
    hide UserTurns, UsageUpTo, Unresolved, AnyExecuting, PrepareAll, RetryResponse, HasAnswer;
    var m' := Do(m, a);
    match a
    case MaterializeRetry(e) =>
      if m' != m {
        StepWritten(m.ck, m.steps, m'.steps[m.ck.next]);
      }
    case RecordStep =>
      if m' != m {
        StepWritten(m.ck, m.steps, m'.steps[m.ck.next]);
      }
    case Answer(_) =>
      if m' != m {
        StepWritten(m.ck, m.steps, m'.steps[m.ck.next]);
      }
    case Account =>
      if Is(m, Accounting) && m.ck.next !in m.ck.accounted {
        AccountNext(m.ck, m.steps);
      }
    case _ =>
  }

  lemma {:induction false} UsageNext(steps: map<nat, Step>, n: nat)
    ensures UsageUpTo(steps, n + 1) == UsageUpTo(steps, n) + Usage(steps, n)
  {
  }

  lemma {:induction false} CallsNext(calls: seq<nat>, k: nat, i: nat)
    ensures CallsOf(calls + [k], i) == CallsOf(calls, i) + if k == i then 1 else 0
  {
    assert (calls + [k])[..|calls|] == calls;
  }

  lemma {:induction false} HonestCall(m: Machine)
    requires Aligned(m) && Accounts(m) && Honest(m)
    ensures Honest(Do(m, Call))
  {
    hide UserTurns, UsageUpTo, CallsOf;
    forall i: nat
      ensures CallsOf(m.calls + [m.ck.next], i) == CallsOf(m.calls, i) + if m.ck.next == i then 1 else 0
    {
      CallsNext(m.calls, m.ck.next, i);
    }
  }

  /** The actions that end a step, take up a resumed task, or store an answer. */
  predicate Pivotal(a: Action) {
    a.Call? || a.Answer? || a.Enter? || a.Supersede? || a.Finish? || a.MaterializeRetry? || a.RecordStep?
  }

  lemma {:induction false} HonestPivotal(m: Machine, a: Action)
    requires Aligned(m) && Accounts(m) && Honest(m) && Pivotal(a) && !a.Call?
    ensures Honest(Do(m, a))
  {
    hide UserTurns, UsageUpTo, Unresolved, AnyExecuting, PrepareAll, CallsOf, RetryResponse;
  }

  lemma {:induction false} HonestKept(m: Machine, a: Action)
    requires Aligned(m) && Accounts(m) && Honest(m)
    ensures Honest(Do(m, a))
  {
    if a.Call? {
      HonestCall(m);
    } else if Pivotal(a) {
      HonestPivotal(m, a);
    } else {
      HonestOtherwise(m, a);
    }
  }

  lemma {:induction false} HonestOtherwise(m: Machine, a: Action)
    requires Aligned(m) && Accounts(m) && Honest(m) && !Pivotal(a)
    ensures Honest(Do(m, a))
  {
    hide UserTurns, UsageUpTo, Unresolved, AnyExecuting, PrepareAll, CallsOf, RetryResponse;
  }

  /** Only the row of the current step is ever written. */
  lemma {:induction false} EarlierStepsKept(m: Machine, a: Action)
    requires Accounts(m)
    ensures forall i :: 0 <= i < m.ck.next ==> i in m.steps && i in Do(m, a).steps && Do(m, a).steps[i] == m.steps[i]
  {
    hide UserTurns, UsageUpTo, Unresolved, AnyExecuting, PrepareAll, RetryResponse;
    forall i | 0 <= i < m.ck.next
      ensures i in m.steps && i in Do(m, a).steps && Do(m, a).steps[i] == m.steps[i]
    {
      assert HasAnswer(m.steps, i);
    }
  }

  /** The actions that add to the conversation. */
  predicate Speaks(a: Action) {
    a.Account? || a.Settle? || a.Commit? || a.Observe? || a.Consume? || a.Supersede?
  }

  lemma {:induction false} RecountsSpoken(m: Machine, a: Action)
    requires Recounts(m) && Aligned(m) && Speaks(a)
    ensures Recounts(Do(m, a))
  {
    hide Replies, Answers, UserTurns, AccountsFor, HasAnswer, Heard, Unresolved, AnyExecuting, PrepareAll, RetryResponse;
    if m.process.Some? {
      var messages := m.process.value.messages;
      match a
      case Account =>
        if Is(m, Accounting) {
          AnswerIsNext(m.steps, m.ck.next);
          RepliesOne(messages, Reply(m.steps[m.ck.next].response.value.content));
        }
      case Consume =>
        if m.ck.consumed <= |m.turns| {
          RepliesConcat(m.ck.messages, UserTurns(m.turns[m.ck.consumed..]));
          RepliesOfTurns(m.turns[m.ck.consumed..]);
        }
      case Supersede =>
        if m.process.value.step.consumed < |m.turns| {
          RepliesConcat(messages, UserTurns(m.turns[m.process.value.step.consumed..]));
          RepliesOfTurns(m.turns[m.process.value.step.consumed..]);
        }
      case Settle(e, text) => RepliesOne(messages, Tool(text));
      case Commit(text) => RepliesOne(messages, Tool(text));
      case Observe(text) => RepliesOne(messages, Tool(text));
      case _ =>
    }
  }

  lemma {:induction false} RecountsKept(m: Machine, a: Action)
    requires Recounts(m) && Aligned(m) && Accounts(m)
    ensures Recounts(Do(m, a))
  {
    if Speaks(a) {
      RecountsSpoken(m, a);
    } else {
      hide Do, Recounts, Aligned, Answers;
      EarlierStepsKept(m, a);
      AnswersDependOn(m.steps, Do(m, a).steps, m.ck.next);
      RecountsSilent(m, a);
    }
  }

  lemma {:induction false} RecountsSilent(m: Machine, a: Action)
    requires Recounts(m) && Aligned(m) && !Speaks(a) && Answers(Do(m, a).steps, m.ck.next) == Answers(m.steps, m.ck.next)
    ensures Recounts(Do(m, a))
  {
    hide Replies, Answers, UserTurns, HasAnswer, Unresolved, AnyExecuting, PrepareAll, RetryResponse, Reconciled;
    ReconciledMessages(m.ck, m.steps);
  }

  lemma {:induction false} ReconciledMessages(ck: Checkpoint, steps: map<nat, Step>)
    ensures Reconciled(ck, steps).messages == ck.messages && Reconciled(ck, steps).next == ck.next
  {
  }

  lemma {:induction false} AnswerIsNext(steps: map<nat, Step>, n: nat)
    requires HasAnswer(steps, n)
    ensures n in steps && steps[n].response.Some?
    ensures Answers(steps, n + 1) == Answers(steps, n) + [Reply(steps[n].response.value.content)]
  {
  }

  lemma {:induction false} InvKept(m: Machine, a: Action)
    requires Inv(m)
    ensures Inv(Do(m, a))
  {
    hide Delivered, InTouch, Aligned, Accounts, Supervised, Honest, Recounts, Do;
    RecountsKept(m, a);
    DeliveredKept(m, a);
    InTouchKept(m, a);
    AlignedKept(m, a);
    AccountsKept(m, a);
    SupervisedKept(m, a);
    HonestKept(m, a);
  }

  lemma {:induction false} RunInv(m: Machine, actions: seq<Action>)
    requires Inv(m)
    ensures Inv(After(m, actions))
  {
    hide Inv, Do;
    if |actions| > 0 {
      RunInv(m, actions[..|actions| - 1]);
      InvKept(After(m, actions[..|actions| - 1]), actions[|actions| - 1]);
    }
  }

  // ----------------------------------------------------------------- theorems

  /**
   Exactly-once input: in every reachable state the checkpoint's turn-derived messages
   are the session history the task started with, then the later user turns for it up
   to the cursor, each once and in order.
   */
  lemma {:induction false} InputDeliveredOnce(prompt: seq<string>, turns: seq<Turn>, actions: seq<Action>)
    ensures var m := After(Started(prompt, turns), actions);
            && |turns| <= m.ck.consumed <= |m.turns| && turns <= m.turns && m.start == |turns|
            && Taken(m.ck.messages) == History(turns) + UserTurns(m.turns[|turns|..m.ck.consumed])
  {
    hide Inv, Do, Started;
    var m := After(Started(prompt, turns), actions);
    StartedInv(prompt, turns);
    RunInv(Started(prompt, turns), actions);
    LogGrows(prompt, turns, actions);
    DeliveredOf(m);
    assert m.turns[..|turns|] == turns;
  }

  lemma {:induction false} DeliveredOf(m: Machine)
    requires Inv(m)
    ensures m.start <= m.ck.consumed <= |m.turns|
    ensures Taken(m.ck.messages) == History(m.turns[..m.start]) + UserTurns(m.turns[m.start..m.ck.consumed])
  {
  }

  lemma {:induction false} LogGrows(prompt: seq<string>, turns: seq<Turn>, actions: seq<Action>)
    ensures var m := After(Started(prompt, turns), actions); turns <= m.turns && m.start == |turns|
  {
    hide Do;
    if |actions| > 0 {
      LogGrows(prompt, turns, actions[..|actions| - 1]);
      LogKept(After(Started(prompt, turns), actions[..|actions| - 1]), actions[|actions| - 1]);
    }
  }

  lemma {:induction false} LogKept(m: Machine, a: Action)
    ensures m.turns <= Do(m, a).turns && Do(m, a).start == m.start
  {
    hide UserTurns, HasAnswer, Unresolved, AnyExecuting, PrepareAll, Reconciled, RetryResponse;
  }

  lemma {:induction false} ClaimSeesLog(m: Machine, e: nat)
    requires Inv(m) && Do(m, Claim(e)) != m
    ensures m.process.Some? && m.ck.consumed == |m.turns| && Taken(m.process.value.messages) == Heard(m.turns, m.start, |m.turns|)
    ensures !Unresolved(m.effects) && !AnyExecuting(m.effects)
  {
    hide UserTurns, History, Taken, UsageUpTo, CallsOf;
  }

  /**
   Whenever a tool starts, the conversation holds every turn of the log that concerns
   the task, and no other effect is running or unresolved.
   */
  lemma {:induction false} ClaimsSeeWholeLog(prompt: seq<string>, turns: seq<Turn>, actions: seq<Action>, e: nat)
    requires var m := After(Started(prompt, turns), actions); Do(m, Claim(e)) != m
    ensures var m := After(Started(prompt, turns), actions);
            && m.process.Some? && |turns| <= |m.turns|
            && Taken(m.process.value.messages) == History(turns) + UserTurns(m.turns[|turns|..])
            && !Unresolved(m.effects) && !AnyExecuting(m.effects)
  {
    hide Inv, Do, Started, Unresolved, AnyExecuting;
    var m := After(Started(prompt, turns), actions);
    StartedInv(prompt, turns);
    RunInv(Started(prompt, turns), actions);
    LogGrows(prompt, turns, actions);
    ClaimSeesLog(m, e);
    assert m.turns[..|turns|] == turns && m.turns[|turns|..|m.turns|] == m.turns[|turns|..];
  }

  lemma {:induction false} CallIsNeeded(m: Machine)
    requires Inv(m) && Do(m, Call) != m
    ensures !HasAnswer(m.steps, m.ck.next) && !Unresolved(m.effects) && !AnyExecuting(m.effects)
    ensures Do(m, Call).calls == m.calls + [m.ck.next]
  {
    hide UserTurns, History, Taken, UsageUpTo, CallsOf;
  }

  /** Whenever the provider is asked, it is for a step without a stored answer, and not beside an unresolved effect. */
  lemma {:induction false} CallsAreNeeded(prompt: seq<string>, turns: seq<Turn>, actions: seq<Action>)
    requires var m := After(Started(prompt, turns), actions); Do(m, Call) != m
    ensures var m := After(Started(prompt, turns), actions);
            && Do(m, Call).calls == m.calls + [m.ck.next]
            && !HasAnswer(m.steps, m.ck.next) && !Unresolved(m.effects) && !AnyExecuting(m.effects)
  {
    hide Inv, Do, Started, Unresolved, AnyExecuting, HasAnswer;
    StartedInv(prompt, turns);
    RunInv(Started(prompt, turns), actions);
    CallIsNeeded(After(Started(prompt, turns), actions));
  }

  /** Only a call adds to the log of calls, and a stored answer stays as it is. */
  lemma {:induction false} AnswerKept(m: Machine, a: Action, i: nat)
    requires Inv(m) && HasAnswer(m.steps, i)
    ensures HasAnswer(Do(m, a).steps, i) && Do(m, a).steps[i].response == m.steps[i].response
    ensures CallsOf(Do(m, a).calls, i) == CallsOf(m.calls, i)
  {
    hide UserTurns, History, Taken, UsageUpTo, CallsOf, Delivered, InTouch, Honest, Supervised, Unresolved, AnyExecuting;
    if a.Call? {
      CallsNext(m.calls, m.ck.next, i);
    }
  }

  /** Once a step's answer is durable the provider is never asked for that step again, whatever happens. */
  lemma {:induction false} NeverAskedAgain(m: Machine, actions: seq<Action>, i: nat)
    requires Inv(m) && HasAnswer(m.steps, i)
    ensures var n := After(m, actions);
            HasAnswer(n.steps, i) && n.steps[i].response == m.steps[i].response && CallsOf(n.calls, i) == CallsOf(m.calls, i)
  {
    hide Inv, Do, CallsOf;
    if |actions| > 0 {
      NeverAskedAgain(m, actions[..|actions| - 1], i);
      RunInv(m, actions[..|actions| - 1]);
      AnswerKept(After(m, actions[..|actions| - 1]), actions[|actions| - 1], i);
    }
  }

  /**
   Exactly-once accounting: the steps accounted for are 0, 1, ..., each once and each
   with a durable answer, and the persisted total is the sum of their usage.
   */
  lemma {:induction false} UsageCountedOnce(prompt: seq<string>, turns: seq<Turn>, actions: seq<Action>)
    ensures var m := After(Started(prompt, turns), actions);
            && (forall i :: 0 <= i < |m.ck.accounted| ==> m.ck.accounted[i] == i && HasAnswer(m.steps, i))
            && m.ck.next <= |m.ck.accounted| <= m.ck.next + 1
            && m.ck.total == UsageUpTo(m.steps, |m.ck.accounted|)
  {
    hide Delivered, InTouch, Aligned, Supervised, Honest, Recounts, Do, Started;
    StartedInv(prompt, turns);
    RunInv(Started(prompt, turns), actions);
  }

  /** A step asked for more than once is on record as having unknown usage. */
  lemma {:induction false} RepeatedCallsAreOnRecord(prompt: seq<string>, turns: seq<Turn>, actions: seq<Action>, i: nat)
    requires CallsOf(After(Started(prompt, turns), actions).calls, i) >= 2
    ensures i in After(Started(prompt, turns), actions).ck.unknown
  {
    hide Delivered, InTouch, Aligned, Supervised, Accounts, Recounts, Do, Started, CallsOf;
    StartedInv(prompt, turns);
    RunInv(Started(prompt, turns), actions);
    var m := After(Started(prompt, turns), actions);
    assert LostCalls(m, i) > 0;
  }

  /**
   A resume that finds an effect in an unknown state without a decision ends without
   reaching the provider or a tool, until someone decides.
   */
  lemma {:induction false} UnresolvedBlocks(m: Machine, actions: seq<Action>, e: nat)
    requires m.process.None? && e in m.effects && m.effects[e] == Unknown(false)
    requires forall i :: 0 <= i < |actions| ==> actions[i] != Dispose(e)
    ensures var n := After(m, actions);
            && n.calls == m.calls && n.ck == m.ck && n.steps == m.steps
            && e in n.effects && n.effects[e] == Unknown(false)
            && (n.process.None? || n.process.value.pc.Reconciling?)
  {
    hide Do;
    if |actions| > 0 {
      UnresolvedBlocks(m, actions[..|actions| - 1], e);
      StillBlocked(After(m, actions[..|actions| - 1]), actions[|actions| - 1], e);
    }
  }

  lemma {:induction false} StillBlocked(m: Machine, a: Action, e: nat)
    requires m.process.None? || m.process.value.pc.Reconciling?
    requires e in m.effects && m.effects[e] == Unknown(false) && a != Dispose(e)
    ensures var n := Do(m, a);
            && n.calls == m.calls && n.ck == m.ck && n.steps == m.steps && e in n.effects && n.effects[e] == Unknown(false)
            && (n.process.None? || n.process.value.pc.Reconciling?)
  {
    hide UserTurns, HasAnswer, PrepareAll, Reconciled, AnyExecuting, RetryResponse;
    assert Unresolved(m.effects);
  }

  /** Each finished step's answer is in the stored conversation exactly once, in order. */
  lemma {:induction false} AnswersRecountedOnce(prompt: seq<string>, turns: seq<Turn>, actions: seq<Action>)
    ensures var m := After(Started(prompt, turns), actions);
            && Replies(m.ck.messages) == Answers(m.steps, m.ck.next)
            && forall i :: 0 <= i < m.ck.next ==> HasAnswer(m.steps, i)
  {
    hide Delivered, InTouch, Aligned, Supervised, Honest, Do, Started, Replies, Answers;
    StartedInv(prompt, turns);
    RunInv(Started(prompt, turns), actions);
  }

  // -------------------------------------------------------------- tool effects

  predicate Running(m: Machine, e: nat) {
    e in m.effects && m.effects[e].Executing?
  }

  /** The effect has been started, or closed without a start, and can not be started any more. */
  predicate Over(m: Machine, e: nat) {
    e in m.effects && !m.effects[e].Prepared?
  }

  /** One action starts only prepared effects, and never reopens one that is over. */
  lemma {:induction false} EffectStep(m: Machine, a: Action, e: nat)
    requires Inv(m)
    ensures Over(m, e) ==> Over(Do(m, a), e)
    ensures Over(m, e) && (m.effects[e].Finished? || m.effects[e].Cancelled?) ==> Do(m, a).effects[e] == m.effects[e]
    ensures !Running(m, e) && Running(Do(m, a), e) ==> !Over(m, e) && Over(Do(m, a), e) && a == Claim(e)
  {
    hide UserTurns, Taken, UsageUpTo, CallsOf, Replies, Answers, Delivered, InTouch, Aligned, Accounts, Honest, Recounts;
    hide HasAnswer, Reconciled, RetryResponse;
  }

  /** How many actions of the run started the effect. */
  ghost function StartsOf(m: Machine, actions: seq<Action>, e: nat): nat {
    if |actions| == 0 then 0
    else
      var before := After(m, actions[..|actions| - 1]);
      StartsOf(m, actions[..|actions| - 1], e) + if !Running(before, e) && Running(After(m, actions), e) then 1 else 0
  }

  lemma {:induction false} StartsBounded(m: Machine, actions: seq<Action>, e: nat)
    requires Inv(m)
    ensures StartsOf(m, actions, e) <= 1
    ensures StartsOf(m, actions, e) == 1 || Over(m, e) ==> Over(After(m, actions), e)
    ensures Over(m, e) && (m.effects[e].Finished? || m.effects[e].Cancelled?) ==> After(m, actions).effects[e] == m.effects[e]
  {
    hide Inv, Do, Running;
    if |actions| > 0 {
      var before := actions[..|actions| - 1];
      StartsBounded(m, before, e);
      RunInv(m, before);
      EffectStep(After(m, before), actions[|actions| - 1], e);
    }
  }

  /** Over every schedule a tool effect is started at most once; finished and cancelled are for good. */
  lemma {:induction false} ToolsStartOnce(prompt: seq<string>, turns: seq<Turn>, actions: seq<Action>, more: seq<Action>, e: nat)
    ensures StartsOf(Started(prompt, turns), actions, e) <= 1
    ensures var m := After(Started(prompt, turns), actions);
            e in m.effects && (m.effects[e].Finished? || m.effects[e].Cancelled?) ==>
              e in After(m, more).effects && After(m, more).effects[e] == m.effects[e] && StartsOf(m, more, e) == 0
  {
    hide Inv, Do, Started;
    StartedInv(prompt, turns);
    StartsBounded(Started(prompt, turns), actions, e);
    RunInv(Started(prompt, turns), actions);
    NoStartAfter(After(Started(prompt, turns), actions), more, e);
  }

  lemma {:induction false} NoStartAfter(m: Machine, more: seq<Action>, e: nat)
    requires Inv(m)
    ensures e in m.effects && (m.effects[e].Finished? || m.effects[e].Cancelled?) ==>
              e in After(m, more).effects && After(m, more).effects[e] == m.effects[e] && StartsOf(m, more, e) == 0
  {
    hide Inv, Do;
    StartsBounded(m, more, e);
    if |more| > 0 {
      NoStartAfter(m, more[..|more| - 1], e);
    }
  }

  /** A tool call that comes back is finished, and its observation is the last message. */
  lemma {:induction false} CommitFinishes(m: Machine, e: nat, text: string)
    requires Is(m, Working(e))
    ensures var n := Do(m, Commit(text));
            && n.effects == m.effects[e := Finished] && Is(n, Acting)
            && n.process.value.messages == m.process.value.messages + [Tool(text)]
            && n.ck == m.ck && n.steps == m.steps && n.turns == m.turns && n.calls == m.calls
  {
  }

  /** A durable answer is stored as given, and each effect it names that is not known yet is prepared. */
  lemma {:induction false} AnswerStored(m: Machine, response: Response)
    requires Is(m, Called)
    ensures var n := Do(m, Answer(response));
            && HasAnswer(n.steps, m.ck.next) && n.steps[m.ck.next].response == Some(response)
            && (forall i :: i in m.steps && i != m.ck.next ==> i in n.steps && n.steps[i] == m.steps[i])
            && (forall e :: e in m.effects ==> e in n.effects && n.effects[e] == m.effects[e])
            && (forall i :: 0 <= i < |response.effects| && response.effects[i] !in m.effects ==>
                  response.effects[i] in n.effects && n.effects[response.effects[i]].Prepared?)
            && n.ck == m.ck && n.turns == m.turns
  {
  }

  /** With the cursor at the end of the log a prepared effect can be started; with newer turns it can not. */
  lemma {:induction false} ClaimStartsIff(m: Machine, e: nat)
    requires Is(m, Acting) && e in m.effects && m.effects[e].Prepared?
    ensures var n := Do(m, Claim(e));
            if m.process.value.step.consumed == |m.turns| then n.effects == m.effects[e := Executing] && Is(n, Working(e))
            else n == m
  {
  }

  // --------------------------------------------------------- the conversation

  /** What the process works with continues what is stored. */
  ghost predicate Continues(m: Machine) {
    m.process.Some? ==> m.ck.messages <= m.process.value.messages
  }

  lemma {:induction false} ContinuesKept(m: Machine, a: Action)
    requires Continues(m)
    ensures Continues(Do(m, a)) && m.ck.messages <= Do(m, a).ck.messages && m.ck.next <= Do(m, a).ck.next
  {
    hide UserTurns, PrepareAll, HasAnswer, RetryResponse, Unresolved, AnyExecuting;
  }

  lemma {:induction false} RunContinues(m: Machine, actions: seq<Action>)
    requires Continues(m)
    ensures Continues(After(m, actions)) && m.ck.messages <= After(m, actions).ck.messages
    ensures m.ck.next <= After(m, actions).ck.next
  {
    hide Do, Continues;
    if |actions| > 0 {
      RunContinues(m, actions[..|actions| - 1]);
      ContinuesKept(After(m, actions[..|actions| - 1]), actions[|actions| - 1]);
    }
  }

  lemma {:induction false} StartedContinues(prompt: seq<string>, turns: seq<Turn>)
    ensures Continues(Started(prompt, turns))
  {
    hide History;
  }

  /** Whatever crashes and restarts come, the stored conversation and the step counter only grow. */
  lemma {:induction false} ConversationGrows(prompt: seq<string>, turns: seq<Turn>, actions: seq<Action>, more: seq<Action>)
    ensures var m := After(Started(prompt, turns), actions);
            var n := After(m, more);
            && m.ck.messages <= n.ck.messages && m.ck.next <= n.ck.next
            && (n.process.Some? ==> n.ck.messages <= n.process.value.messages)
  {
    hide After, Do, Started;
    StartedContinues(prompt, turns);
    RunContinues(Started(prompt, turns), actions);
    RunContinues(After(Started(prompt, turns), actions), more);
  }

  /**
   Ending a step stores everything said and observed in it, and a step overtaken by new input
   stores that input behind it as well; both go on to the next step with no request in flight.
   */
  lemma {:induction false} StepEndStoresAll(m: Machine)
    requires Is(m, Acting)
    ensures var n, p := Do(m, Finish), m.process.value;
            && n.ck == m.ck.(messages := p.messages, next := m.ck.next + 1, pending := None) && Is(n, Top)
            && n.effects == m.effects && n.steps == m.steps && n.process.value.messages == p.messages
    ensures m.process.value.step.consumed < |m.turns| ==>
              var n, p := Do(m, Supersede), m.process.value;
              && p.messages <= n.ck.messages && n.ck.messages[|p.messages|..] == UserTurns(m.turns[p.step.consumed..])
              && n.ck.consumed == |m.turns| && n.ck.next == m.ck.next + 1 && n.ck.pending.None? && Is(n, Top)
              && n.effects == m.effects && n.steps == m.steps && n.process.value.messages == n.ck.messages
  {
    hide UserTurns;
  }

  lemma {:induction false} AfterOne(m: Machine, actions: seq<Action>, a: Action)
    ensures After(m, actions + [a]) == Do(After(m, actions), a)
  {
    assert (actions + [a])[..|actions|] == actions;
  }

  /**
   The loop of `_reconcile_effects`: it settles every running effect or stops at one it cannot.
   It is what the machine does in the actions returned: a blocked process ends, any other goes on.
   */
  method ReconcileEffects(m: Machine, order: seq<nat>, confirmed: set<nat>)
    returns (after: map<nat, Phase>, blocked: bool, ghost actions: seq<Action>)
    requires Is(m, Reconciling) && forall e :: e in m.effects ==> e in order
    ensures after.Keys == m.effects.Keys
    ensures blocked <==> Unresolved(after)
    ensures !blocked ==> !AnyExecuting(after)
    ensures forall e :: e in m.effects && !m.effects[e].Executing? ==> after[e] == m.effects[e]
    ensures forall e :: e in m.effects && m.effects[e].Executing? && after[e] != m.effects[e] ==>
              after[e] == if e in confirmed then Finished else Unknown(false)
    ensures var n := After(m, actions);
            n.effects == after && n.calls == m.calls && if blocked then n.process.None? && n.ck == m.ck else Is(n, Top)
  {
    hide After, UserTurns, PrepareAll, RetryResponse;
    after, actions := m.effects, [];
    AfterNothing(m);
    var i := 0;
    while i < |order|
      invariant 0 <= i <= |order| && after.Keys == m.effects.Keys && After(m, actions) == m.(effects := after)
      invariant forall k :: 0 <= k < i && order[k] in after ==> !after[order[k]].Executing? && after[order[k]] != Unknown(false)
      invariant forall e :: e in m.effects && after[e] != m.effects[e] ==>
                  m.effects[e].Executing? && after[e] == Finished && e in confirmed
    {
      var e := order[i];
      if e in after {
        if after[e] == Unknown(false) {
          AfterOne(m, actions, Enter);
          return after, true, actions + [Enter];
        }
        if after[e].Executing? {
          AfterOne(m, actions, ReconcileOne(e, e in confirmed));
          actions := actions + [ReconcileOne(e, e in confirmed)];
          if e !in confirmed {
            after := after[e := Unknown(false)];
            return after, true, actions;
          }
          after := after[e := Finished];
        }
      }
      i := i + 1;
    }
    forall e | e in after
      ensures !after[e].Executing? && after[e] != Unknown(false)
    {
      var k :| 0 <= k < |order| && order[k] == e;
    }
    AfterOne(m, actions, Enter);
    return after, false, actions + [Enter];
  }

  lemma {:induction false} AfterNothing(m: Machine)
    ensures After(m, []) == m
  {
  }
}
