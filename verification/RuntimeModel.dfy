/**
 The checkpointed run of one task as a machine: what is durable, what dies with the
 process, and one action per durable write, so that a crash can fall between any two.
 */
module RuntimeModel {
  import opened Wrappers

  datatype TurnRole = UserTurn | AssistantTurn | SystemTurn

  /** Whom a turn is addressed to: no task in particular, this task, or another one. */
  datatype Audience = Anyone | ThisTask | OtherTask

  datatype Turn = Turn(role: TurnRole, audience: Audience, content: string)

  /** A message of the conversation, with where it came from. */
  datatype Msg = Prompt(text: string) | FromTurn(role: TurnRole, text: string) | Reply(text: string) | Tool(text: string)

  datatype Response = Response(content: string, effects: seq<nat>, usage: nat)

  /** A step row: the input cursor it was started with and the answer, once that is stored. */
  datatype Step = Step(consumed: nat, response: Option<Response>)

  datatype Checkpoint = Checkpoint(messages: seq<Msg>, consumed: nat, next: nat, pending: Option<nat>,
                                   accounted: seq<nat>, total: nat, unknown: seq<nat>)

  datatype Phase = Prepared | Executing | Finished | Cancelled | Unknown(disposed: bool)

  /** Where the process stands between two durable writes. */
  datatype Pc = Reconciling | Top | Consumed | Recorded | Requested | Called | Answered | Accounting | Acting | Working(effect: nat)

  datatype Process = Process(pc: Pc, messages: seq<Msg>, step: Step)

  /** The last two fields log the provider calls and which steps were answered by one. */
  datatype Machine = Machine(turns: seq<Turn>, start: nat, ck: Checkpoint, steps: map<nat, Step>, effects: map<nat, Phase>,
                             process: Option<Process>, calls: seq<nat>, answered: set<nat>)

  datatype Action =
    | NewTurn(turn: Turn) | Crash | Dispose(effect: nat)
    | Resume | ReconcileOne(effect: nat, confirmed: bool) | Enter
    | Recover | MaterializeRetry(retry: nat) | Consume | RecordStep | Request | Call | Answer(response: Response)
    | ClearPending | Account | Settle(effect: nat, text: string) | Supersede | Claim(effect: nat) | Commit(text: string)
    | Observe(text: string) | Finish

  // ------------------------------------------------------------- conversation

  /** `_session_history`: what was said in the session before the task started. */
  function History(turns: seq<Turn>): seq<Msg> {
    if |turns| == 0 then []
    else
      var last := turns[|turns| - 1];
      History(turns[..|turns| - 1])
      + if last.role.UserTurn? || last.role.AssistantTurn? then [FromTurn(last.role, last.content)] else []
  }

  /** The later turns that speak to this task. */
  function UserTurns(turns: seq<Turn>): seq<Msg> {
    if |turns| == 0 then []
    else
      var last := turns[|turns| - 1];
      UserTurns(turns[..|turns| - 1])
      + if last.role.UserTurn? && !last.audience.OtherTask? then [FromTurn(UserTurn, last.content)] else []
  }

  /** The messages that were taken from the turn log. */
  function Taken(messages: seq<Msg>): seq<Msg> {
    if |messages| == 0 then []
    else
      var last := messages[|messages| - 1];
      Taken(messages[..|messages| - 1]) + if last.FromTurn? then [last] else []
  }

  predicate HasAnswer(steps: map<nat, Step>, i: nat) {
    i in steps && steps[i].response.Some?
  }

  predicate Unresolved(effects: map<nat, Phase>) {
    exists e :: e in effects && effects[e] == Unknown(false)
  }

  predicate AnyExecuting(effects: map<nat, Phase>) {
    exists e :: e in effects && effects[e].Executing?
  }

  // -------------------------------------------------------------------- steps

  /** The state right after the first checkpoint of the task is stored. */
  function Started(prompt: seq<string>, turns: seq<Turn>): Machine {
    var messages := seq(|prompt|, i requires 0 <= i < |prompt| => Prompt(prompt[i])) + History(turns);
    Machine(turns, |turns|, Checkpoint(messages, |turns|, 0, None, [], 0, []), map[], map[],
            Some(Process(Top, messages, Step(0, None))), [], {})
  }

  predicate Is(m: Machine, pc: Pc) {
    m.process.Some? && m.process.value.pc == pc
  }

  function Move(m: Machine, pc: Pc): Machine
    requires m.process.Some?
  {
    m.(process := Some(m.process.value.(pc := pc)))
  }

  /** `_reconcile_pending_model_request`: a request that was in flight without a stored answer has unknown usage. */
  function Reconciled(ck: Checkpoint, steps: map<nat, Step>): Checkpoint {
    if ck.pending.None? then ck
    else
      ck.(pending := None,
          unknown := if HasAnswer(steps, ck.pending.value) || ck.pending.value in ck.unknown then ck.unknown
                     else ck.unknown + [ck.pending.value])
  }

  /** The answer that a recovery retry stands in for; it cost nothing. */
  function RetryResponse(e: nat): Response {
    Response("Execute the explicitly requested recovery retry.", [e], 0)
  }

  function PrepareAll(effects: map<nat, Phase>, ids: seq<nat>): map<nat, Phase> {
    map e | e in effects.Keys + (set i | 0 <= i < |ids| :: ids[i]) :: if e in effects then effects[e] else Prepared
  }

  /** One action; one that is not possible in the state changes nothing. */
  function Do(m: Machine, a: Action): Machine {
    match a
    case NewTurn(turn) => m.(turns := m.turns + [turn])
    case Crash => m.(process := None)
    case Dispose(e) =>
      if e in m.effects && m.effects[e].Unknown? then m.(effects := m.effects[e := Unknown(true)]) else m
    case Resume =>
      if m.process.None? then m.(process := Some(Process(Reconciling, m.ck.messages, Step(0, None)))) else m
    case ReconcileOne(e, confirmed) =>
      if !Is(m, Reconciling) || !(e in m.effects && m.effects[e].Executing?) then m
      else if confirmed then m.(effects := m.effects[e := Finished])
      else m.(effects := m.effects[e := Unknown(false)], process := None)
    case Enter =>
      if !Is(m, Reconciling) then m
      else if Unresolved(m.effects) then m.(process := None)
      else if AnyExecuting(m.effects) then m
      else m.(ck := Reconciled(m.ck, m.steps), process := Some(Process(Top, m.ck.messages, Step(0, None))))
    case Recover =>
      if !Is(m, Top) || !HasAnswer(m.steps, m.ck.next) then m
      else m.(process := Some(Process(Accounting, m.ck.messages, m.steps[m.ck.next])))
    case MaterializeRetry(e) =>
      if !Is(m, Top) || HasAnswer(m.steps, m.ck.next) || !(e in m.effects && m.effects[e].Prepared?) then m
      else
        var step := Step(m.ck.consumed, Some(RetryResponse(e)));
        m.(steps := m.steps[m.ck.next := step], process := Some(Process(Accounting, m.ck.messages, step)))
    case Consume =>
      if !Is(m, Top) || HasAnswer(m.steps, m.ck.next) || m.ck.consumed > |m.turns| then m
      else
        var messages := m.ck.messages + UserTurns(m.turns[m.ck.consumed..]);
        m.(ck := m.ck.(messages := messages, consumed := |m.turns|), process := Some(Process(Consumed, messages, Step(0, None))))
    case RecordStep =>
      if !Is(m, Consumed) then m
      else
        var step := Step(m.ck.consumed, None);
        m.(steps := m.steps[m.ck.next := step], process := Some(m.process.value.(pc := Recorded, step := step)))
    case Request =>
      if !Is(m, Recorded) then m
      else Move(m, Requested).(ck := m.ck.(messages := m.process.value.messages, pending := Some(m.ck.next)))
    case Call =>
      if !Is(m, Requested) then m else Move(m, Called).(calls := m.calls + [m.ck.next])
    case Answer(response) =>
      if !Is(m, Called) then m
      else
        var step := m.process.value.step.(response := Some(response));
        m.(steps := m.steps[m.ck.next := step], effects := PrepareAll(m.effects, response.effects),
           answered := m.answered + {m.ck.next},
           process := Some(m.process.value.(pc := Answered, step := step)))
    case ClearPending =>
      if !Is(m, Answered) then m else Move(m, Accounting).(ck := m.ck.(pending := None))
    case Account =>
      if !Is(m, Accounting) || m.process.value.step.response.None? then m
      else
        var p, response := m.process.value, m.process.value.step.response.value;
        var ck := if m.ck.next in m.ck.accounted then m.ck
                  else m.ck.(total := m.ck.total + response.usage, accounted := m.ck.accounted + [m.ck.next]);
        m.(ck := ck, process := Some(p.(pc := Acting, messages := p.messages + [Reply(response.content)])))
    case Settle(e, text) =>
      if !Is(m, Acting) || !(e in m.effects && m.effects[e].Prepared?) then m
      else
        var p := m.process.value;
        m.(effects := m.effects[e := Cancelled], process := Some(p.(messages := p.messages + [Tool(text)])))
    case Supersede =>
      if !Is(m, Acting) || m.process.value.step.consumed >= |m.turns| then m
      else
        var p := m.process.value;
        var messages := p.messages + UserTurns(m.turns[p.step.consumed..]);
        m.(ck := m.ck.(messages := messages, consumed := |m.turns|, next := m.ck.next + 1, pending := None),
           process := Some(Process(Top, messages, Step(0, None))))
    case Claim(e) =>
      if !Is(m, Acting) || !(e in m.effects && m.effects[e].Prepared?) || m.process.value.step.consumed != |m.turns| then m
      else Move(m, Working(e)).(effects := m.effects[e := Executing])
    case Commit(text) =>
      if !(m.process.Some? && m.process.value.pc.Working?) then m
      else
        var p := m.process.value;
        m.(effects := m.effects[p.pc.effect := Finished],
           process := Some(p.(pc := Acting, messages := p.messages + [Tool(text)])))
    case Observe(text) =>
      if !Is(m, Acting) then m
      else m.(process := Some(m.process.value.(messages := m.process.value.messages + [Tool(text)])))
    case Finish =>
      if !Is(m, Acting) then m
      else
        var p := m.process.value;
        m.(ck := m.ck.(messages := p.messages, next := m.ck.next + 1, pending := None),
           process := Some(Process(Top, p.messages, Step(0, None))))
  }

  function After(m: Machine, actions: seq<Action>): Machine {
    if |actions| == 0 then m else Do(After(m, actions[..|actions| - 1]), actions[|actions| - 1])
  }
}
