/** What the command observer says of a call is what the native session's messages said of it. */
module CommandReports {
  import opened Basics
  import opened Observations
  import opened CommandObserver

  // ----- which uses get through, and what they leave -----

  /** The use agrees with everything known and with the message so far. */
  predicate Fits(s: State, uses: seq<Use>, k: nat)
    requires k < |uses|
  {
    var use := uses[k];
    if use.bash then
      && use.id != "" && use.command.Some? && use.id !in s.others
      && (use.id in s.calls ==> s.calls[use.id].input == use.input)
      && forall j :: 0 <= j < k && uses[j].id == use.id ==> uses[j].bash && uses[j].input == use.input
    else
      use.id !in s.calls && forall j :: 0 <= j < k && uses[j].id == use.id ==> !uses[j].bash
  }

  predicate AllFit(s: State, uses: seq<Use>) {
    forall k :: 0 <= k < |uses| ==> Fits(s, uses, k)
  }

  lemma AllFitSnoc(s: State, front: seq<Use>, last: Use)
    ensures AllFit(s, front + [last]) <==> AllFit(s, front) && Fits(s, front + [last], |front|)
  {
    var uses := front + [last];
    forall k | 0 <= k < |front| ensures Fits(s, uses, k) <==> Fits(s, front, k) {
      assert forall j :: 0 <= j <= k ==> uses[j] == front[j];
    }
  }

  predicate Mentions(uses: seq<Use>, id: string, bash: bool) {
    exists j :: 0 <= j < |uses| && uses[j].id == id && uses[j].bash == bash
  }

  lemma MentionsSnoc(front: seq<Use>, last: Use, id: string, bash: bool)
    ensures Mentions(front + [last], id, bash) <==> Mentions(front, id, bash) || (last.id == id && last.bash == bash)
  {
    var uses := front + [last];
    assert uses[|front|] == last && forall j :: 0 <= j < |front| ==> uses[j] == front[j];
  }

  /** The calls known after a message are those known before, as they were, and those it uses, as it uses them. */
  ghost predicate Reflects(s: State, uses: seq<Use>, after: State) {
    && (forall id :: id in after.others <==> id in s.others || Mentions(uses, id, false))
    && (forall id :: id in after.calls <==> id in s.calls || Mentions(uses, id, true))
    && (forall id :: id in s.calls ==> id in after.calls && after.calls[id] == s.calls[id])
    && (forall j :: 0 <= j < |uses| && uses[j].bash ==> uses[j].id in after.calls && NotedAs(after, uses[j]))
  }

  predicate NotedAs(after: State, use: Use)
    requires use.id in after.calls
  {
    after.calls[use.id].input == use.input
  }

  lemma FitMeans(s: State, front: seq<Use>, last: Use, after: State)
    requires Reflects(s, front, after)
    ensures OnUse(after, last).1 <==> Fits(s, front + [last], |front|)
  {
    var uses := front + [last];
    assert uses[|front|] == last && forall j :: 0 <= j < |front| ==> uses[j] == front[j];
    if last.bash && last.id in s.calls {
      assert forall j :: 0 <= j < |front| && front[j].bash && front[j].id == last.id ==> NotedAs(after, front[j]);
    } else if last.bash && Mentions(front, last.id, true) {
      var j :| 0 <= j < |front| && front[j].id == last.id && front[j].bash;
      assert NotedAs(after, front[j]);
    }
  }

  lemma ReflectsSnoc(s: State, front: seq<Use>, last: Use, after: State)
    requires Reflects(s, front, after) && OnUse(after, last).1
    ensures Reflects(s, front + [last], OnUse(after, last).0)
  {
    var uses, next := front + [last], OnUse(after, last).0;
    forall id, bash
      ensures Mentions(uses, id, bash) <==> Mentions(front, id, bash) || (last.id == id && last.bash == bash)
    {
      MentionsSnoc(front, last, id, bash);
    }
    forall j | 0 <= j < |uses| && uses[j].bash ensures uses[j].id in next.calls && NotedAs(next, uses[j]) {
      if j < |front| {
        assert uses[j] == front[j] && NotedAs(after, front[j]);
      }
    }
  }

  /** A message's uses all get through exactly when each agrees with what is known, and are then all noted. */
  lemma {:induction false} UsesPassMeans(s: State, uses: seq<Use>)
    ensures OnUses(s, uses).1 <==> AllFit(s, uses)
    ensures OnUses(s, uses).1 ==> Reflects(s, uses, OnUses(s, uses).0)
  {
    if uses != [] {
      var front, last := uses[..|uses| - 1], uses[|uses| - 1];
      UsesPassMeans(s, front);
      assert uses == front + [last];
      AllFitSnoc(s, front, last);
      if OnUses(s, front).1 {
        FitMeans(s, front, last, OnUses(s, front).0);
        if OnUse(OnUses(s, front).0, last).1 {
          ReflectsSnoc(s, front, last, OnUses(s, front).0);
        }
      }
    }
  }

  // ----- which answers get through, and what they leave -----

  /** The native evidence allows a call to be settled. */
  predicate Permitted(native: Option<Json>, evidence: Evidence) {
    native.Some? ==> !evidence.Background? && (evidence.Interruption? ==> evidence.valid)
  }

  predicate SameResult(a: Answer, b: Answer) {
    a.content == b.content && a.isError == b.isError
  }

  /** The answer concerns no known call, repeats its result, or is the first for an open one. */
  predicate FitsAnswer(s: State, answers: seq<Answer>, native: Option<Json>, evidence: Evidence, k: nat)
    requires k < |answers|
  {
    var answer := answers[k];
    answer.id in s.calls ==>
      var call := s.calls[answer.id];
      && answer.flagValid
      && (call.result.Some? ==> call.result.value == Result(answer.content, answer.isError, native))
      && (call.result.None? ==> call.observation.status == InProgress && Permitted(native, evidence))
      && forall j :: 0 <= j < k && answers[j].id == answer.id ==> SameResult(answers[j], answer)
  }

  predicate AllAnswersFit(s: State, answers: seq<Answer>, native: Option<Json>, evidence: Evidence) {
    forall k :: 0 <= k < |answers| ==> FitsAnswer(s, answers, native, evidence, k)
  }

  lemma AnswersFitSnoc(s: State, front: seq<Answer>, last: Answer, native: Option<Json>, evidence: Evidence)
    ensures AllAnswersFit(s, front + [last], native, evidence) <==>
      AllAnswersFit(s, front, native, evidence) && FitsAnswer(s, front + [last], native, evidence, |front|)
  {
    var answers := front + [last];
    forall k | 0 <= k < |front|
      ensures FitsAnswer(s, answers, native, evidence, k) <==> FitsAnswer(s, front, native, evidence, k)
    {
      assert forall j :: 0 <= j <= k ==> answers[j] == front[j];
    }
  }

  /** The native evidence says the command was interrupted. */
  predicate Interrupted(native: Option<Json>, evidence: Evidence) {
    native.Some? && evidence.Interruption? && evidence.interrupted
  }

  /** The call as this answer settles it: its own command, the answer's text, and the status the evidence gives. */
  function SettledAs(call: Call, answer: Answer, native: Option<Json>, evidence: Evidence): Call {
    var status :=
      if Interrupted(native, evidence) then Incomplete else if answer.isError then Failed else Completed;
    Call(Observation(status, call.observation.command, answer.text), call.input,
         Some(Result(answer.content, answer.isError, native)))
  }

  /** A call stays as it was, unless it was open and one of the answers settled it. */
  predicate AnsweredAs(s: State, answers: seq<Answer>, native: Option<Json>, evidence: Evidence, after: State,
                       id: string)
    requires id in s.calls && id in after.calls
  {
    || (after.calls[id] == s.calls[id] && (s.calls[id].result.None? ==> !AnsweredIn(answers, id)))
    || (s.calls[id].result.None? && SettledIn(s.calls[id], answers, native, evidence, after.calls[id], id))
  }

  predicate SettledIn(call: Call, answers: seq<Answer>, native: Option<Json>, evidence: Evidence, after: Call,
                      id: string) {
    exists j :: 0 <= j < |answers| && answers[j].id == id && after == SettledAs(call, answers[j], native, evidence)
  }

  predicate AnsweredIn(answers: seq<Answer>, id: string) {
    exists j :: 0 <= j < |answers| && answers[j].id == id
  }

  ghost predicate Answered(s: State, answers: seq<Answer>, native: Option<Json>, evidence: Evidence, after: State) {
    && after.calls.Keys == s.calls.Keys
    && (forall id :: id in s.calls ==> AnsweredAs(s, answers, native, evidence, after, id))
    && (forall j :: 0 <= j < |answers| && answers[j].id in s.calls ==> HoldsResult(after, answers[j], native))
  }

  predicate HoldsResult(after: State, answer: Answer, native: Option<Json>) {
    answer.id in after.calls && after.calls[answer.id].result == Some(Result(answer.content, answer.isError, native))
  }

  lemma AnswerFitMeans(s: State, front: seq<Answer>, last: Answer, native: Option<Json>, evidence: Evidence,
                       after: State)
    requires Answered(s, front, native, evidence, after) && AllAnswersFit(s, front, native, evidence) && Inv(s)
    ensures OnAnswer(after, last, native, evidence).1 <==> FitsAnswer(s, front + [last], native, evidence, |front|)
  {
    var answers := front + [last];
    assert answers[|front|] == last && forall j :: 0 <= j < |front| ==> answers[j] == front[j];
    if last.id in s.calls {
      assert AnsweredAs(s, front, native, evidence, after, last.id);
      if AnsweredIn(front, last.id) {
        var j :| 0 <= j < |front| && front[j].id == last.id;
        assert HoldsResult(after, front[j], native) && FitsAnswer(s, front, native, evidence, j);
      }
      forall j | 0 <= j < |front| && front[j].id == last.id
        ensures HoldsResult(after, front[j], native)
      {
      }
    }
  }

  lemma AnsweredOne(s: State, front: seq<Answer>, last: Answer, native: Option<Json>, evidence: Evidence,
                    after: State, id: string)
    requires id in s.calls && id in after.calls && AnsweredAs(s, front, native, evidence, after, id) && Inv(s)
    requires OnAnswer(after, last, native, evidence).1
    ensures
      var next := OnAnswer(after, last, native, evidence).0;
      id in next.calls && AnsweredAs(s, front + [last], native, evidence, next, id)
  {
    var answers := front + [last];
    assert answers[|front|] == last && forall j :: 0 <= j < |front| ==> answers[j] == front[j];
    if SettledIn(s.calls[id], front, native, evidence, after.calls[id], id) {
      var j :| 0 <= j < |front| && front[j].id == id
        && after.calls[id] == SettledAs(s.calls[id], front[j], native, evidence);
      assert answers[j] == front[j];
    }
  }

  lemma AnsweredSnoc(s: State, front: seq<Answer>, last: Answer, native: Option<Json>, evidence: Evidence,
                     after: State)
    requires Answered(s, front, native, evidence, after) && OnAnswer(after, last, native, evidence).1 && Inv(s)
    ensures Answered(s, front + [last], native, evidence, OnAnswer(after, last, native, evidence).0)
  {
    var answers, next := front + [last], OnAnswer(after, last, native, evidence).0;
    assert answers[|front|] == last && forall j :: 0 <= j < |front| ==> answers[j] == front[j];
    forall id | id in s.calls ensures AnsweredAs(s, answers, native, evidence, next, id) {
      assert AnsweredAs(s, front, native, evidence, after, id);
      AnsweredOne(s, front, last, native, evidence, after, id);
    }
    forall j | 0 <= j < |answers| && answers[j].id in s.calls ensures HoldsResult(next, answers[j], native) {
      assert j < |front| ==> HoldsResult(after, front[j], native);
    }
  }

  /** A message's answers all get through exactly when each fits, and the known calls they name then hold them. */
  lemma {:induction false} AnswersPassMeans(s: State, answers: seq<Answer>, native: Option<Json>, evidence: Evidence)
    requires Inv(s)
    ensures OnAnswers(s, answers, native, evidence).1 <==> AllAnswersFit(s, answers, native, evidence)
    ensures OnAnswers(s, answers, native, evidence).1 ==>
      Answered(s, answers, native, evidence, OnAnswers(s, answers, native, evidence).0)
  {
    if answers != [] {
      var front, last := answers[..|answers| - 1], answers[|answers| - 1];
      AnswersPassMeans(s, front, native, evidence);
      assert answers == front + [last];
      AnswersFitSnoc(s, front, last, native, evidence);
      var (after, ok) := OnAnswers(s, front, native, evidence);
      if ok {
        AnswerFitMeans(s, front, last, native, evidence, after);
        if OnAnswer(after, last, native, evidence).1 {
          AnsweredSnoc(s, front, last, native, evidence, after);
        }
      }
    }
  }

  // ----- where everything comes from, over every run -----

  /** A use in this action's message introduces the call, with this command and input. */
  predicate UsedIn(a: Action, id: string, command: string, input: Json) {
    && a.DoConsume? && a.message.relevant && a.message.body.Uses? && !a.message.body.error
    && var uses := a.message.body.uses;
       exists i :: 0 <= i < |uses| && uses[i].bash && uses[i].id == id
                   && uses[i].command == Some(command) && uses[i].input == input
  }

  /** An answer in this action's message gives the call its result, output and status. */
  predicate ResultIn(a: Action, id: string, call: Call) {
    && a.DoConsume? && a.message.relevant && a.message.body.Answers?
    && var answers := a.message.body.answers;
       SettledIn(call, answers, Native(answers, a.message.body.native), a.message.body.evidence, call, id)
  }

  predicate Used(actions: seq<Action>, id: string, command: string, input: Json) {
    exists k :: 0 <= k < |actions| && UsedIn(actions[k], id, command, input)
  }

  predicate AnsweredBy(actions: seq<Action>, id: string, call: Call) {
    exists k :: 0 <= k < |actions| && ResultIn(actions[k], id, call)
  }

  /** The command comes from a use, and the status and output from an answer, or there was none. */
  predicate Sourced(actions: seq<Action>, id: string, call: Call) {
    && Used(actions, id, call.observation.command, call.input)
    && (call.result.Some? ==> AnsweredBy(actions, id, call))
    && (call.result.None? ==> call.observation.output.None? && call.observation.status in {InProgress, Incomplete})
  }

  lemma SourcedLater(actions: seq<Action>, last: Action, id: string, call: Call)
    requires Sourced(actions, id, call)
    ensures Sourced(actions + [last], id, call)
  {
    UsedLater(actions, last, id, call.observation.command, call.input);
    if call.result.Some? {
      var all := actions + [last];
      var k :| 0 <= k < |actions| && ResultIn(actions[k], id, call);
      assert all[k] == actions[k];
    }
  }

  lemma UsedLater(actions: seq<Action>, last: Action, id: string, command: string, input: Json)
    requires Used(actions, id, command, input)
    ensures Used(actions + [last], id, command, input)
  {
    var all := actions + [last];
    var k :| 0 <= k < |actions| && UsedIn(actions[k], id, command, input);
    assert all[k] == actions[k];
  }

  /** After any of the message's uses, even if a later one fails, a call is as it was or as a use introduces it. */
  lemma {:induction false} UsesSource(s: State, uses: seq<Use>, id: string)
    requires id in OnUses(s, uses).0.calls
    ensures
      var call := OnUses(s, uses).0.calls[id];
      || (id in s.calls && call == s.calls[id])
      || (id !in s.calls && exists i :: 0 <= i < |uses| && uses[i].bash && uses[i].id == id && uses[i].command.Some?
                                        && call == Introduced(uses[i]))
  {
    if uses != [] {
      var front, last := uses[..|uses| - 1], uses[|uses| - 1];
      var (before, ok) := OnUses(s, front);
      if id in before.calls {
        UsesSource(s, front, id);
        if id !in s.calls {
          var i :| 0 <= i < |front| && front[i].bash && front[i].id == id && front[i].command.Some?
                   && before.calls[id] == Introduced(front[i]);
          assert uses[i] == front[i];
        }
      } else {
        UsesGrow(s, front);
        assert uses[|front|] == last && last.id == id;
      }
    }
  }

  lemma {:induction false} UsesGrow(s: State, uses: seq<Use>)
    ensures s.calls.Keys <= OnUses(s, uses).0.calls.Keys
  {
    if uses != [] {
      UsesGrow(s, uses[..|uses| - 1]);
    }
  }

  function Introduced(use: Use): Call
    requires use.command.Some?
  {
    Call(Observation(InProgress, use.command.value, None), use.input, None)
  }

  lemma {:induction false} AnswersSource(s: State, answers: seq<Answer>, native: Option<Json>, evidence: Evidence,
                                         id: string)
    ensures
      var after := OnAnswers(s, answers, native, evidence).0;
      && after.calls.Keys == s.calls.Keys
      && (id in s.calls ==>
            || after.calls[id] == s.calls[id]
            || (s.calls[id].result.None? && SettledIn(s.calls[id], answers, native, evidence, after.calls[id], id)))
  {
    if answers != [] {
      var front, last := answers[..|answers| - 1], answers[|answers| - 1];
      AnswersSource(s, front, native, evidence, id);
      var before := OnAnswers(s, front, native, evidence).0;
      assert forall j :: 0 <= j < |front| ==> answers[j] == front[j];
      assert answers[|front|] == last;
    }
  }

  lemma {:induction false} CloseSource(s: State, ids: seq<string>, id: string)
    requires Inv(s)
    ensures
      var after := CloseEach(s, ids);
      && after.calls.Keys == s.calls.Keys
      && (id in s.calls ==>
            || after.calls[id] == s.calls[id]
            || (s.calls[id].result.None? && after.calls[id] == Closed(s.calls[id])))
  {
    if ids != [] {
      CloseSource(s, ids[..|ids| - 1], id);
    }
  }

  function Closed(call: Call): Call {
    call.(observation := call.observation.(status := Incomplete))
  }

  /** One action leaves a call as it was, introduces it, settles it or closes it. */
  lemma ActionSource(actions: seq<Action>, last: Action, id: string)
    requires Inv(Run(actions)) && id in Run(actions + [last]).calls
    requires id in Run(actions).calls ==> Sourced(actions, id, Run(actions).calls[id])
    ensures Sourced(actions + [last], id, Run(actions + [last]).calls[id])
  {
    var s, all := Run(actions), actions + [last];
    assert all[..|actions|] == actions && all[|actions|] == last;
    if id in s.calls {
      SourcedLater(actions, last, id, s.calls[id]);
    }
    match last {
      case DoClose =>
        CloseSource(s, s.order, id);
      case DoConsume(message, session, hasInput) =>
        var s' := s.(session := session);
        if message.body.Uses? {
          if id in OnUses(s', message.body.uses).0.calls {
            UsesSource(s', message.body.uses, id);
          }
        } else if message.body.Answers? {
          var answers := message.body.answers;
          AnswersSource(s', answers, Native(answers, message.body.native), message.body.evidence, id);
        }
    }
  }

  /**
   * In every run what is known of a call comes from the messages: its command from a use, its status, output and
   * result from an answer and that message's interruption evidence; without a result it is open or was closed.
   */
  lemma {:induction false} ReportsRepeatTheMessages(actions: seq<Action>, id: string)
    requires id in Run(actions).calls
    ensures Sourced(actions, id, Run(actions).calls[id])
  {
    var front, last := actions[..|actions| - 1], actions[|actions| - 1];
    assert actions == front + [last];
    RunKeeps(front);
    if id in Run(front).calls {
      ReportsRepeatTheMessages(front, id);
    }
    ActionSource(front, last, id);
  }

  // ----- nothing is left out -----

  /** The message is for the session and comes to it. */
  predicate Heard(s: State, message: Message, session: string, hasInput: bool) {
    message.relevant && hasInput && session != "" && message.session == session
    && (s.session == "" || s.session == session)
  }

  /** Every use and answer of a message fits what is known. */
  predicate Agrees(s: State, message: Message) {
    match message.body
    case Text => true
    case Uses(error, uses) => error || AllFit(s, uses)
    case Answers(answers, native, evidence) => AllAnswersFit(s, answers, Native(answers, native), evidence)
  }

  /**
   * In every run a message is accepted exactly when it is none of the observer's business, or is heard and agrees with
   * what is known; all its uses are then known calls, and the known calls it answers hold those results.
   */
  lemma AcceptedMessagesAreObserved(actions: seq<Action>, message: Message, session: string, hasInput: bool)
    ensures
      var s := Run(actions);
      var (after, ok) := Consume(s, message, session, hasInput);
      && (ok <==> !message.relevant || (Heard(s, message, session, hasInput) && Agrees(s, message)))
      && (ok && message.relevant && message.body.Uses? && !message.body.error ==>
            Reflects(s, message.body.uses, after))
      && (ok && message.relevant && message.body.Answers? ==>
            var answers := message.body.answers;
            Answered(s, answers, Native(answers, message.body.native), message.body.evidence, after))
  {
    var s := Run(actions);
    RunKeeps(actions);
    var s' := s.(session := session);
    match message.body {
      case Text =>
      case Uses(error, uses) =>
        UsesPassMeans(s', uses);
        FitIgnoresSession(s, session, uses, OnUses(s', uses).0);
      case Answers(answers, native, evidence) =>
        AnswersPassMeans(s', answers, Native(answers, native), evidence);
        var only := Native(answers, native);
        AnswerFitIgnoresSession(s, session, answers, only, evidence, OnAnswers(s', answers, only, evidence).0);
    }
  }

  lemma FitIgnoresSession(s: State, session: string, uses: seq<Use>, after: State)
    ensures AllFit(s.(session := session), uses) <==> AllFit(s, uses)
    ensures Reflects(s.(session := session), uses, after) <==> Reflects(s, uses, after)
  {
    assert forall k :: 0 <= k < |uses| ==> (Fits(s.(session := session), uses, k) <==> Fits(s, uses, k));
  }

  lemma AnswerFitIgnoresSession(s: State, session: string, answers: seq<Answer>, native: Option<Json>,
                                evidence: Evidence, after: State)
    ensures AllAnswersFit(s.(session := session), answers, native, evidence) <==>
      AllAnswersFit(s, answers, native, evidence)
    ensures Answered(s.(session := session), answers, native, evidence, after) <==>
      Answered(s, answers, native, evidence, after)
  {
    var s' := s.(session := session);
    assert forall k :: 0 <= k < |answers| ==>
      (FitsAnswer(s', answers, native, evidence, k) <==> FitsAnswer(s, answers, native, evidence, k));
    if after.calls.Keys == s.calls.Keys {
      assert forall id :: id in s.calls ==>
        (AnsweredAs(s', answers, native, evidence, after, id) <==> AnsweredAs(s, answers, native, evidence, after, id));
    }
  }
}
