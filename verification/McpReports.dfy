/** What the tool-server observer says of a call is what the native session's messages said of it. */
module McpReports {
  import opened Basics
  import opened Observations
  import opened McpObserver

  /** The call as this answer settles it: a failure carries the value as its error, a success as its output. */
  function SettledAs(o: Observation, answer: Answer, native: Option<Json>): Observation {
    var value := if native.Some? then native else answer.content;
    if answer.isError then Observation(o.tool, Failed, o.arguments, None, value)
    else Observation(o.tool, Completed, o.arguments, value, None)
  }

  predicate SettledIn(o: Observation, answers: seq<Answer>, native: Option<Json>, after: Observation, id: string) {
    exists j :: 0 <= j < |answers| && answers[j].id == id && after == SettledAs(o, answers[j], native)
  }

  /** A use introduces the call, under its tool and with its arguments. */
  predicate IntroducedIn(tools: map<string, Identity>, uses: seq<Use>, id: string, o: Observation) {
    exists i :: 0 <= i < |uses| && uses[i].name in tools && uses[i].id == id
                && o.tool == tools[uses[i].name] && o.arguments == uses[i].input
  }

  // ----- what one message leaves, even if it fails halfway -----

  lemma {:induction false} UsesSource(tools: map<string, Identity>, s: State, uses: seq<Use>, id: string)
    ensures
      var after := OnUses(tools, s, uses).0;
      && (id in s.calls ==> id in after.calls && after.calls[id] == s.calls[id])
      && (id in after.calls && id !in s.calls ==>
            && IntroducedIn(tools, uses, id, after.calls[id]) && after.calls[id].status == InProgress
            && after.calls[id].output.None? && after.calls[id].error.None?)
  {
    if uses != [] {
      var front, last := uses[..|uses| - 1], uses[|uses| - 1];
      UsesSource(tools, s, front, id);
      assert uses[|front|] == last && forall i :: 0 <= i < |front| ==> uses[i] == front[i];
    }
  }

  lemma {:induction false} AnswersSource(s: State, answers: seq<Answer>, native: Option<Json>, id: string)
    requires Tidy(s)
    ensures
      var after := OnAnswers(s, answers, native).0;
      && after.calls.Keys == s.calls.Keys
      && (id in s.calls ==>
            || after.calls[id] == s.calls[id]
            || (s.calls[id].status == InProgress && SettledIn(s.calls[id], answers, native, after.calls[id], id)))
  {
    if answers != [] {
      var front, last := answers[..|answers| - 1], answers[|answers| - 1];
      AnswersSource(s, front, native, id);
      assert answers[|front|] == last && forall j :: 0 <= j < |front| ==> answers[j] == front[j];
      assert id in s.calls ==> Consistent(s.calls[id]);
    }
  }

  lemma {:induction false} CloseSource(s: State, ids: seq<string>, id: string)
    ensures
      var after := CloseEach(s, ids);
      && after.calls.Keys == s.calls.Keys
      && (id in s.calls ==>
            || after.calls[id] == s.calls[id]
            || (s.calls[id].status == InProgress && after.calls[id] == s.calls[id].(status := Incomplete)))
  {
    if ids != [] {
      CloseSource(s, ids[..|ids| - 1], id);
    }
  }

  // ----- over every run -----

  predicate UsedIn(a: Action, id: string, o: Observation) {
    && a.DoConsume? && a.message.relevant && a.message.body.Uses? && !a.message.body.error
    && IntroducedIn(a.tools, a.message.body.uses, id, o)
  }

  predicate ResultIn(a: Action, id: string, o: Observation) {
    && a.DoConsume? && a.message.relevant && a.message.body.Answers?
    && SettledIn(o, a.message.body.answers, Native(a.message.body.answers, a.message.body.native), o, id)
  }

  predicate Used(actions: seq<Action>, id: string, o: Observation) {
    exists k :: 0 <= k < |actions| && UsedIn(actions[k], id, o)
  }

  predicate AnsweredByMessage(actions: seq<Action>, id: string, o: Observation) {
    exists k :: 0 <= k < |actions| && ResultIn(actions[k], id, o)
  }

  /** Tool and arguments come from a use; status, output and error from an answer, or there was none. */
  predicate Sourced(actions: seq<Action>, id: string, o: Observation) {
    && Used(actions, id, o)
    && (o.status in {Completed, Failed} ==> AnsweredByMessage(actions, id, o))
    && (o.status in {InProgress, Incomplete} ==> o.output.None? && o.error.None?)
  }

  lemma UsedLater(actions: seq<Action>, last: Action, id: string, o: Observation, o': Observation)
    requires Used(actions, id, o) && o'.tool == o.tool && o'.arguments == o.arguments
    ensures Used(actions + [last], id, o')
  {
    var all := actions + [last];
    var k :| 0 <= k < |actions| && UsedIn(actions[k], id, o);
    assert all[k] == actions[k] && UsedIn(all[k], id, o');
  }

  lemma SourcedLater(actions: seq<Action>, last: Action, id: string, o: Observation)
    requires Sourced(actions, id, o)
    ensures Sourced(actions + [last], id, o)
  {
    UsedLater(actions, last, id, o, o);
    if o.status in {Completed, Failed} {
      var all := actions + [last];
      var k :| 0 <= k < |actions| && ResultIn(actions[k], id, o);
      assert all[k] == actions[k];
    }
  }

  lemma ActionSource(actions: seq<Action>, last: Action, id: string)
    requires Tidy(Run(actions)) && id in Run(actions + [last]).calls
    requires id in Run(actions).calls ==> Sourced(actions, id, Run(actions).calls[id])
    ensures Sourced(actions + [last], id, Run(actions + [last]).calls[id])
  {
    var s, all := Run(actions), actions + [last];
    assert all[..|actions|] == actions && all[|actions|] == last;
    var o := Run(all).calls[id];
    match last {
      case DoClose =>
        CloseSource(s, s.order, id);
      case DoConsume(tools, message, session) =>
        if message.body.Uses? {
          UsesSource(tools, s, message.body.uses, id);
        } else if message.body.Answers? {
          AnswersSource(s, message.body.answers, Native(message.body.answers, message.body.native), id);
        }
    }
    if id in s.calls {
      SourcedLater(actions, last, id, s.calls[id]);
      UsedLater(actions, last, id, s.calls[id], o);
    }
  }

  /**
   * In every run, lossless or not, what is known of a call comes from the messages: its tool and arguments from a use,
   * its status, output and error from an answer; without one it is open or was closed.
   */
  lemma {:induction false} ReportsRepeatTheMessages(actions: seq<Action>, id: string)
    requires id in Run(actions).calls
    ensures Sourced(actions, id, Run(actions).calls[id])
  {
    var front, last := actions[..|actions| - 1], actions[|actions| - 1];
    assert actions == front + [last];
    PairedExactlyWhenLossless(front);
    if id in Run(front).calls {
      ReportsRepeatTheMessages(front, id);
    }
    ActionSource(front, last, id);
  }

  // ----- nothing is left out -----

  /** Each known call the message answers is settled as it says, and the others stay as they were. */
  ghost predicate AllSettled(s: State, answers: seq<Answer>, native: Option<Json>, after: State) {
    && after.calls.Keys == s.calls.Keys
    && forall id :: id in s.calls ==>
         if AnsweredBy(answers, id) then SettledIn(s.calls[id], answers, native, after.calls[id], id)
         else after.calls[id] == s.calls[id]
  }

  /**
   * In every run a message gets to its end exactly when it is none of the observer's business, or is the session's and
   * no block of it conflicts or repeats; every use of a known tool is then a known call, and every known call the
   * message answers is settled as it says.
   */
  lemma AcceptedMessagesAreObserved(actions: seq<Action>, tools: map<string, Identity>, message: Message,
                                    session: string)
    ensures
      var s := Run(actions);
      var (after, ok) := Draft(tools, s, message, session);
      && (ok <==> !message.relevant || (message.session == session != "" && Agrees(tools, s, message)))
      && (ok ==> Consume(tools, s, message, session) == after)
      && (ok && message.relevant && message.body.Uses? && !message.body.error ==>
            Reflects(tools, s, message.body.uses, after))
      && (ok && message.relevant && message.body.Answers? ==>
            var answers := message.body.answers;
            AllSettled(s, answers, Native(answers, message.body.native), after))
  {
    var s := Run(actions);
    PairedExactlyWhenLossless(actions);
    match message.body {
      case Text =>
      case Uses(error, uses) => UsesPassMeans(tools, s, uses);
      case Answers(answers, native) =>
        AnswersPassMeans(s, answers, Native(answers, native));
        if NoRepeat(s.calls, answers) {
          PassedAreSettled(s, answers, Native(answers, native));
        }
    }
  }

  predicate Agrees(tools: map<string, Identity>, s: State, message: Message) {
    match message.body
    case Text => true
    case Uses(error, uses) => error || NoConflict(tools, s.calls, uses)
    case Answers(answers, _) => NoRepeat(s.calls, answers)
  }

  lemma PassedAreSettled(s: State, answers: seq<Answer>, native: Option<Json>)
    requires Tidy(s) && OnAnswers(s, answers, native).1 && NoRepeat(s.calls, answers)
    ensures AllSettled(s, answers, native, OnAnswers(s, answers, native).0)
  {
    var after := OnAnswers(s, answers, native).0;
    AnswersPassMeans(s, answers, native);
    forall id | id in s.calls
      ensures if AnsweredBy(answers, id) then SettledIn(s.calls[id], answers, native, after.calls[id], id)
              else after.calls[id] == s.calls[id]
    {
      AnswersSource(s, answers, native, id);
      if AnsweredBy(answers, id) {
        var j :| 0 <= j < |answers| && answers[j].id == id;
        assert !Repeats(s.calls, answers, j);
      }
    }
  }
}
