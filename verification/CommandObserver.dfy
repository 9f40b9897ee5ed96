/** Observing shell commands: every call is announced once and settled once, whatever the native session sends. */
module CommandObserver {
  import opened Basics
  import opened Observations

  datatype Stage = InProgress | Completed | Failed | Incomplete

  datatype Observation = Observation(status: Stage, command: string, output: Option<string>)

  /** A value the observer only compares. */
  type Json = string

  datatype Evidence = Plain | Background | Interruption(valid: bool, interrupted: bool)

  datatype Result = Result(content: Json, isError: bool, native: Option<Json>)

  datatype Call = Call(observation: Observation, input: Json, result: Option<Result>)

  /** A tool use; the command is the nonblank command text of a well-formed input, if it is one. */
  datatype Use = Use(id: string, bash: bool, input: Json, command: Option<string>)

  /** A tool result; an error flag of another type than boolean is not valid. */
  datatype Answer = Answer(id: string, flagValid: bool, isError: bool, content: Json, text: Option<string>)

  datatype Body =
    | Text
    | Uses(error: bool, uses: seq<Use>)
    | Answers(answers: seq<Answer>, native: Option<Json>, evidence: Evidence)

  datatype Message = Message(relevant: bool, session: string, body: Body)

  /** Order is the order in which calls were first seen. */
  datatype State = State(
    calls: map<string, Call>, order: seq<string>, others: set<string>, session: string, events: seq<Event<Observation>>)

  const START := State(map[], [], {}, "", [])

  // ----- what a message does -----

  function OnUse(s: State, use: Use): (State, bool) {
    if !use.bash then
      if use.id in s.calls then (s, false) else (s.(others := s.others + {use.id}), true)
    else if use.id == "" || use.command.None? || use.id in s.others then (s, false)
    else if use.id in s.calls then (s, s.calls[use.id].input == use.input)
    else
      var observation := Observation(InProgress, use.command.value, None);
      (s.(calls := s.calls[use.id := Call(observation, use.input, None)], order := s.order + [use.id],
          events := s.events + [Before(use.id, observation)]), true)
  }

  function OnUses(s: State, uses: seq<Use>): (State, bool) {
    if uses == [] then (s, true)
    else
      var (before, ok) := OnUses(s, uses[..|uses| - 1]);
      if ok then OnUse(before, uses[|uses| - 1]) else (before, false)
  }

  /** How a first result settles a call, if the native evidence allows. */
  function Settled(observation: Observation, answer: Answer, native: Option<Json>, evidence: Evidence)
    : Option<Observation>
  {
    if native.Some? && (evidence.Background? || (evidence.Interruption? && !evidence.valid)) then None
    else
      var interrupted := native.Some? && evidence.Interruption? && evidence.interrupted;
      Some(Observation(if interrupted then Incomplete else if answer.isError then Failed else Completed,
                       observation.command, answer.text))
  }

  function OnAnswer(s: State, answer: Answer, native: Option<Json>, evidence: Evidence): (State, bool) {
    if answer.id !in s.calls then (s, true)
    else if !answer.flagValid then (s, false)
    else
      var call := s.calls[answer.id];
      var result := Result(answer.content, answer.isError, native);
      if call.result.Some? then (s, call.result.value == result)
      else if call.observation.status != InProgress then (s, false)
      else match Settled(call.observation, answer, native, evidence)
        case None => (s, false)
        case Some(observation) =>
          (s.(calls := s.calls[answer.id := Call(observation, call.input, Some(result))],
              events := s.events + [After(answer.id, observation)]), true)
  }

  function OnAnswers(s: State, answers: seq<Answer>, native: Option<Json>, evidence: Evidence): (State, bool) {
    if answers == [] then (s, true)
    else
      var (before, ok) := OnAnswers(s, answers[..|answers| - 1], native, evidence);
      if ok then OnAnswer(before, answers[|answers| - 1], native, evidence) else (before, false)
  }

  /** A native result belongs to a message's only answer. */
  function Native(answers: seq<Answer>, native: Option<Json>): Option<Json> {
    if |answers| == 1 then native else None
  }

  function Consume(s: State, message: Message, session: string, hasInput: bool): (State, bool) {
    if !message.relevant then (s, true)
    else if !hasInput || session == "" || message.session != session then (s, false)
    else if s.session != "" && s.session != session then (s, false)
    else
      var s' := s.(session := session);
      match message.body
      case Text => (s', true)
      case Uses(error, uses) => if error then (s', true) else OnUses(s', uses)
      case Answers(answers, native, evidence) => OnAnswers(s', answers, Native(answers, native), evidence)
  }

  function CloseOne(s: State, id: string): State {
    if id !in s.calls || s.calls[id].observation.status != InProgress then s
    else
      var observation := s.calls[id].observation.(status := Incomplete);
      s.(calls := s.calls[id := s.calls[id].(observation := observation)],
         events := s.events + [After(id, observation)])
  }

  function CloseEach(s: State, ids: seq<string>): State {
    if ids == [] then s else CloseOne(CloseEach(s, ids[..|ids| - 1]), ids[|ids| - 1])
  }

  function Close(s: State): State {
    CloseEach(s, s.order)
  }

  // ----- what every message keeps -----

  function ProgressOf(call: Call): Progress<Observation> {
    if call.observation.status == InProgress then Open(call.observation)
    else Done(call.observation.(status := InProgress, output := None), call.observation)
  }

  function Stories(calls: map<string, Call>): map<string, Progress<Observation>> {
    map id | id in calls :: ProgressOf(calls[id])
  }

  /** Open calls have no output and no result yet. */
  predicate Tidy(calls: map<string, Call>) {
    forall id :: id in calls && calls[id].observation.status == InProgress ==>
      calls[id].observation.output.None? && calls[id].result.None?
  }

  /** A call's status is what its first result said, or an interruption; without a result it is open or was closed. */
  predicate Truthful(call: Call) {
    match call.result
    case None => call.observation.status in {InProgress, Incomplete}
    case Some(result) => call.observation.status in {Incomplete, if result.isError then Failed else Completed}
  }

  predicate AllTruthful(calls: map<string, Call>) {
    forall id :: id in calls ==> Truthful(calls[id])
  }

  ghost predicate Inv(s: State) {
    && Tells(s.events, Stories(s.calls)) && Tidy(s.calls) && AllTruthful(s.calls)
    && Elements(s.order) == s.calls.Keys && s.calls.Keys !! s.others
  }

  lemma OnUseKeeps(s: State, use: Use)
    requires Inv(s)
    ensures Inv(OnUse(s, use).0)
  {
    var s' := OnUse(s, use).0;
    if s'.calls != s.calls {
      var observation := Observation(InProgress, use.command.value, None);
      BeforeTells(s.events, Stories(s.calls), use.id, observation);
      assert Stories(s'.calls) == Stories(s.calls)[use.id := Open(observation)];
      assert Elements(s'.order) == Elements(s.order) + {use.id};
    }
  }

  lemma OnAnswerKeeps(s: State, answer: Answer, native: Option<Json>, evidence: Evidence)
    requires Inv(s)
    ensures Inv(OnAnswer(s, answer, native, evidence).0)
  {
    var s' := OnAnswer(s, answer, native, evidence).0;
    if s' != s {
      var call, observation := s.calls[answer.id], s'.calls[answer.id].observation;
      AfterTells(s.events, Stories(s.calls), answer.id, observation);
      assert Stories(s'.calls) == Stories(s.calls)[answer.id := Done(call.observation, observation)];
    }
  }

  lemma {:induction false} OnUsesKeeps(s: State, uses: seq<Use>)
    requires Inv(s)
    ensures Inv(OnUses(s, uses).0)
  {
    if uses != [] {
      OnUsesKeeps(s, uses[..|uses| - 1]);
      OnUseKeeps(OnUses(s, uses[..|uses| - 1]).0, uses[|uses| - 1]);
    }
  }

  lemma {:induction false} OnAnswersKeeps(s: State, answers: seq<Answer>, native: Option<Json>, evidence: Evidence)
    requires Inv(s)
    ensures Inv(OnAnswers(s, answers, native, evidence).0)
  {
    if answers != [] {
      OnAnswersKeeps(s, answers[..|answers| - 1], native, evidence);
      var before := OnAnswers(s, answers[..|answers| - 1], native, evidence).0;
      OnAnswerKeeps(before, answers[|answers| - 1], native, evidence);
    }
  }

  lemma CloseOneKeeps(s: State, id: string)
    requires Inv(s)
    ensures
      var s' := CloseOne(s, id);
      && Inv(s') && s'.calls.Keys == s.calls.Keys
      && (forall x <- s.calls :: x != id ==> s'.calls[x] == s.calls[x])
      && (id in s'.calls ==> s'.calls[id].observation.status != InProgress)
  {
    var s' := CloseOne(s, id);
    if s' != s {
      AfterTells(s.events, Stories(s.calls), id, s'.calls[id].observation);
      assert Stories(s'.calls) == Stories(s.calls)[id := Done(s.calls[id].observation, s'.calls[id].observation)];
    }
  }

  lemma {:induction false} CloseEachKeeps(s: State, ids: seq<string>)
    requires Inv(s)
    ensures
      var s' := CloseEach(s, ids);
      && Inv(s') && s'.calls.Keys == s.calls.Keys
      && (forall id :: id in ids && id in s'.calls ==> s'.calls[id].observation.status != InProgress)
  {
    if ids != [] {
      CloseEachKeeps(s, ids[..|ids| - 1]);
      CloseOneKeeps(CloseEach(s, ids[..|ids| - 1]), ids[|ids| - 1]);
    }
  }

  // ----- over every run -----

  datatype Action = DoConsume(message: Message, session: string, hasInput: bool) | DoClose

  function Run(actions: seq<Action>): State {
    if actions == [] then START else
      var before := Run(actions[..|actions| - 1]);
      match actions[|actions| - 1]
      case DoConsume(message, session, hasInput) => Consume(before, message, session, hasInput).0
      case DoClose => Close(before)
  }

  lemma {:induction false} RunKeeps(actions: seq<Action>)
    ensures Inv(Run(actions))
  {
    if actions == [] {
      assert Stories(map[]) == map[];
      forall id ensures Trace<Observation>([], id) == Story(Stories(map[]), id) {
      }
    } else {
      RunKeeps(actions[..|actions| - 1]);
      var before := Run(actions[..|actions| - 1]);
      match actions[|actions| - 1] {
        case DoConsume(message, session, hasInput) => ConsumeKeeps(before, message, session, hasInput);
        case DoClose => CloseEachKeeps(before, before.order);
      }
    }
  }

  lemma ConsumeKeeps(s: State, message: Message, session: string, hasInput: bool)
    requires Inv(s)
    ensures Inv(Consume(s, message, session, hasInput).0)
  {
    var s' := s.(session := session);
    match message.body {
      case Text =>
      case Uses(error, uses) => OnUsesKeeps(s', uses);
      case Answers(answers, native, evidence) =>
        OnAnswersKeeps(s', answers, Native(answers, native), evidence);
    }
  }

  /**
   * Over every run: a call is announced exactly once from the moment it is known, reported at most once and only
   * after its announcement, and exactly once when the observer has just been closed. A report of success or
   * failure repeats what the call's result said.
   */
  lemma CallsAreReportedOnce(actions: seq<Action>, id: string)
    ensures
      var s := Run(actions);
      && Count(s.events, id, true) == (if id in s.calls then 1 else 0)
      && Count(s.events, id, false) <= Count(s.events, id, true)
      && Trace(s.events, id) == Story(Stories(s.calls), id)
      && (id in s.calls ==> Truthful(s.calls[id]))
      && (actions != [] && actions[|actions| - 1].DoClose? ==> Count(s.events, id, false) == Count(s.events, id, true))
  {
    RunKeeps(actions);
    var s := Run(actions);
    TellsOnce(s.events, Stories(s.calls), id);
    if actions != [] && actions[|actions| - 1].DoClose? {
      var before := Run(actions[..|actions| - 1]);
      RunKeeps(actions[..|actions| - 1]);
      CloseEachKeeps(before, before.order);
      assert id in s.calls ==> id in Elements(before.order);
    }
  }

  // ----- the object -----

  class Observer {
    var calls: map<string, Call>
    var order: seq<string>
    var others: set<string>
    var session: string
    /** Everything yielded so far. */
    var events: seq<Event<Observation>>

    constructor ()
      ensures Value() == START
    {
      calls, order, others, session, events := map[], [], {}, "", [];
    }

    function Value(): State
      reads this
    {
      State(calls, order, others, session, events)
    }

    method ObserveUses(uses: seq<Use>) returns (ok: bool)
      modifies this
      ensures (Value(), ok) == OnUses(old(Value()), uses)
    {
      var k := 0;
      while k < |uses|
        invariant 0 <= k <= |uses|
        invariant (Value(), true) == OnUses(old(Value()), uses[..k])
      {
        var use := uses[k];
        assert uses[..k + 1][..k] == uses[..k];
        if !use.bash {
          if use.id in calls {
            UsesStop(old(Value()), uses, k + 1);
            return false;
          }
          others := others + {use.id};
        } else if use.id == "" || use.command.None? || use.id in others
            || (use.id in calls && calls[use.id].input != use.input) {
          UsesStop(old(Value()), uses, k + 1);
          return false;
        } else if use.id !in calls {
          var observation := Observation(InProgress, use.command.value, None);
          calls, order := calls[use.id := Call(observation, use.input, None)], order + [use.id];
          events := events + [Before(use.id, observation)];
        }
        k := k + 1;
      }
      assert uses[..k] == uses;
      return true;
    }

    method ObserveAnswers(answers: seq<Answer>, native: Option<Json>, evidence: Evidence) returns (ok: bool)
      modifies this
      ensures (Value(), ok) == OnAnswers(old(Value()), answers, native, evidence)
    {
      var k := 0;
      while k < |answers|
        invariant 0 <= k <= |answers|
        invariant (Value(), true) == OnAnswers(old(Value()), answers[..k], native, evidence)
      {
        assert answers[..k + 1][..k] == answers[..k];
        ok := ObserveAnswer(answers[k], native, evidence);
        if !ok {
          AnswersStop(old(Value()), answers, native, evidence, k + 1);
          return false;
        }
        k := k + 1;
      }
      assert answers[..k] == answers;
      return true;
    }

    method ObserveAnswer(answer: Answer, native: Option<Json>, evidence: Evidence) returns (ok: bool)
      modifies this
      ensures (Value(), ok) == OnAnswer(old(Value()), answer, native, evidence)
    {
      if answer.id !in calls {
        return true;
      }
      if !answer.flagValid {
        return false;
      }
      var call, result := calls[answer.id], Result(answer.content, answer.isError, native);
      if call.result.Some? {
        return call.result.value == result;
      }
      if call.observation.status != InProgress {
        return false;
      }
      var settled := Settled(call.observation, answer, native, evidence);
      if settled.None? {
        return false;
      }
      calls := calls[answer.id := Call(settled.value, call.input, Some(result))];
      events := events + [After(answer.id, settled.value)];
      return true;
    }

    method ConsumeMessage(message: Message, session: string, hasInput: bool) returns (ok: bool)
      modifies this
      ensures (Value(), ok) == Consume(old(Value()), message, session, hasInput)
    {
      if !message.relevant {
        return true;
      }
      if !hasInput || session == "" || message.session != session || (this.session != "" && this.session != session) {
        return false;
      }
      this.session := session;
      match message.body {
        case Text => return true;
        case Uses(error, uses) =>
          if error {
            return true;
          }
          ok := ObserveUses(uses);
        case Answers(answers, native, evidence) =>
          ok := ObserveAnswers(answers, Native(answers, native), evidence);
      }
    }

    method AssertComplete() returns (ok: bool)
      ensures ok <==> forall id <- calls :: calls[id].observation.status != InProgress
    {
      return forall id <- calls :: calls[id].observation.status != InProgress;
    }

    method CloseCalls()
      modifies this
      ensures Value() == Close(old(Value()))
    {
      var ids, k := order, 0;
      while k < |ids|
        invariant 0 <= k <= |ids|
        invariant Value() == CloseEach(old(Value()), ids[..k])
      {
        assert ids[..k + 1][..k] == ids[..k];
        if ids[k] in calls && calls[ids[k]].observation.status == InProgress {
          var observation := calls[ids[k]].observation.(status := Incomplete);
          calls := calls[ids[k] := calls[ids[k]].(observation := observation)];
          events := events + [After(ids[k], observation)];
        }
        k := k + 1;
      }
      assert ids[..k] == ids;
    }
  }

  /** A fold that has stopped stays where it stopped. */
  lemma {:induction false} UsesStop(s: State, uses: seq<Use>, k: nat)
    requires k <= |uses| && !OnUses(s, uses[..k]).1
    ensures OnUses(s, uses) == OnUses(s, uses[..k])
  {
    if k < |uses| {
      assert uses[..|uses| - 1][..k] == uses[..k];
      UsesStop(s, uses[..|uses| - 1], k);
    } else {
      assert uses[..k] == uses;
    }
  }

  lemma {:induction false} AnswersStop(s: State, answers: seq<Answer>, native: Option<Json>, evidence: Evidence, k: nat)
    requires k <= |answers| && !OnAnswers(s, answers[..k], native, evidence).1
    ensures OnAnswers(s, answers, native, evidence) == OnAnswers(s, answers[..k], native, evidence)
  {
    if k < |answers| {
      assert answers[..|answers| - 1][..k] == answers[..k];
      AnswersStop(s, answers[..|answers| - 1], native, evidence, k);
    } else {
      assert answers[..k] == answers;
    }
  }
}
