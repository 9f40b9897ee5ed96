/** Observing tool-server calls: reports are paired as long as no message fails halfway. */
module McpObserver {
  import opened Basics
  import opened Observations
  import McpProfile

  type Identity = McpProfile.Identity

  datatype Stage = InProgress | Completed | Failed | Incomplete

  /** A value the observer only compares and passes on. */
  type Json = string

  datatype Observation = Observation(
    tool: Identity, status: Stage, arguments: Json, output: Option<Json>, error: Option<Json>)

  datatype Use = Use(id: string, name: string, input: Json)

  datatype Answer = Answer(id: string, isError: bool, content: Option<Json>)

  datatype Body =
    | Text
    | Uses(error: bool, uses: seq<Use>)
    | Answers(answers: seq<Answer>, native: Option<Json>)

  datatype Message = Message(relevant: bool, session: string, body: Body)

  datatype State = State(calls: map<string, Observation>, order: seq<string>, events: seq<Event<Observation>>)

  const START := State(map[], [], [])

  // ----- what a message does -----

  /** The use of a known tool under a new id. */
  predicate Announces(tools: map<string, Identity>, s: State, use: Use) {
    use.name in tools && use.id != "" && use.id !in s.calls
  }

  predicate Accepted(tools: map<string, Identity>, s: State, use: Use) {
    use.name in tools ==>
      && use.id != ""
      && (use.id in s.calls ==> s.calls[use.id].tool == tools[use.name] && s.calls[use.id].arguments == use.input)
  }

  function OnUse(tools: map<string, Identity>, s: State, use: Use): State {
    if !Announces(tools, s, use) then s
    else
      var observation := Observation(tools[use.name], InProgress, use.input, None, None);
      State(s.calls[use.id := observation], s.order + [use.id], s.events + [Before(use.id, observation)])
  }

  /** The message so far, and whether it has failed. */
  function OnUses(tools: map<string, Identity>, s: State, uses: seq<Use>): (State, bool) {
    if uses == [] then (s, true)
    else
      var (before, ok) := OnUses(tools, s, uses[..|uses| - 1]);
      if ok && Accepted(tools, before, uses[|uses| - 1]) then (OnUse(tools, before, uses[|uses| - 1]), true)
      else (before, false)
  }

  /** The first result of an open call. */
  predicate Settles(s: State, answer: Answer) {
    answer.id in s.calls && s.calls[answer.id].status == InProgress
  }

  function OnAnswer(s: State, answer: Answer, native: Option<Json>): State {
    if !Settles(s, answer) then s
    else
      var value := if native.Some? then native else answer.content;
      var open := s.calls[answer.id];
      var observation := if answer.isError then open.(status := Failed, error := value)
                         else open.(status := Completed, output := value);
      s.(calls := s.calls[answer.id := observation], events := s.events + [After(answer.id, observation)])
  }

  function OnAnswers(s: State, answers: seq<Answer>, native: Option<Json>): (State, bool) {
    if answers == [] then (s, true)
    else
      var (before, ok) := OnAnswers(s, answers[..|answers| - 1], native);
      var last := answers[|answers| - 1];
      if ok && (last.id in before.calls ==> Settles(before, last)) then (OnAnswer(before, last, native), true)
      else (before, false)
  }

  /** A native result belongs to a message's only answer. */
  function Native(answers: seq<Answer>, native: Option<Json>): Option<Json> {
    if |answers| == 1 then native else None
  }

  /** The state a message works on, and whether it got to the end. */
  function Draft(tools: map<string, Identity>, s: State, message: Message, session: string): (State, bool) {
    if !message.relevant then (s, true)
    else if message.session != session || session == "" then (s, false)
    else match message.body
      case Text => (s, true)
      case Uses(error, uses) => if error then (s, true) else OnUses(tools, s, uses)
      case Answers(answers, native) => OnAnswers(s, answers, Native(answers, native))
  }

  /** The events of a message are handed over when it ends; a failing message keeps its changes and drops its events. */
  function Consume(tools: map<string, Identity>, s: State, message: Message, session: string): State {
    var (draft, ok) := Draft(tools, s, message, session);
    if ok then draft else draft.(events := s.events)
  }

  function CloseOne(s: State, id: string): State {
    if id !in s.calls || s.calls[id].status != InProgress then s
    else
      var observation := s.calls[id].(status := Incomplete);
      s.(calls := s.calls[id := observation], events := s.events + [After(id, observation)])
  }

  function CloseEach(s: State, ids: seq<string>): State {
    if ids == [] then s else CloseOne(CloseEach(s, ids[..|ids| - 1]), ids[|ids| - 1])
  }

  function Close(s: State): State {
    CloseEach(s, s.order)
  }

  // ----- what a message keeps -----

  function ProgressOf(o: Observation): Progress<Observation> {
    if o.status == InProgress then Open(o) else Done(o.(status := InProgress, output := None, error := None), o)
  }

  function Stories(calls: map<string, Observation>): map<string, Progress<Observation>> {
    map id | id in calls :: ProgressOf(calls[id])
  }

  predicate Tidy(s: State) {
    && Elements(s.order) == s.calls.Keys
    && (forall id :: id in s.calls ==> Consistent(s.calls[id]))
  }

  /** Only a completed call has an output, and only a failed one an error. */
  predicate Consistent(o: Observation) {
    (o.output.Some? ==> o.status == Completed) && (o.error.Some? ==> o.status == Failed)
  }

  ghost predicate Told(s: State) {
    Tells(s.events, Stories(s.calls))
  }

  /** One event about one call: a new one is announced, or an open one reported. */
  predicate Moves(s: State, s': State) {
    s' == s ||
    (&& |s'.events| == |s.events| + 1 && s'.events[..|s.events|] == s.events
     && (var e := s'.events[|s.events|];
         && s'.calls == s.calls[e.id := e.observation]
         && (e.Before? ==> e.id !in s.calls && e.observation.status == InProgress && s'.order == s.order + [e.id])
         && (e.After? ==>
               && e.id in s.calls && s.calls[e.id].status == InProgress && s'.order == s.order
               && ProgressOf(e.observation) == Done(s.calls[e.id], e.observation))))
  }

  lemma MovesTell(s: State, s': State)
    requires Told(s) && Moves(s, s')
    ensures Told(s')
  {
    if s' != s {
      var e := s'.events[|s.events|];
      assert s'.events == s.events + [e];
      if e.Before? {
        BeforeTells(s.events, Stories(s.calls), e.id, e.observation);
        assert Stories(s'.calls) == Stories(s.calls)[e.id := Open(e.observation)];
      } else {
        AfterTells(s.events, Stories(s.calls), e.id, e.observation);
        assert Stories(s'.calls) == Stories(s.calls)[e.id := Done(s.calls[e.id], e.observation)];
      }
    }
  }

  lemma MovesMissing(s: State, s': State, events: seq<Event<Observation>>, id: string)
    requires Moves(s, s')
    ensures Missing(s.events, Stories(s.calls), id) ==> Missing(s'.events, Stories(s'.calls), id)
    ensures Missing(events, Stories(s.calls), id) ==> Missing(events, Stories(s'.calls), id)
  {
    assert s' != s ==> s'.events == s.events + [s'.events[|s.events|]];
  }

  lemma OnUseMoves(tools: map<string, Identity>, s: State, use: Use)
    requires Tidy(s)
    ensures Moves(s, OnUse(tools, s, use)) && Tidy(OnUse(tools, s, use))
  {
    var s' := OnUse(tools, s, use);
    assert s' != s ==> Elements(s'.order) == Elements(s.order) + {use.id};
  }

  lemma OnAnswerMoves(s: State, answer: Answer, native: Option<Json>)
    requires Tidy(s)
    ensures Moves(s, OnAnswer(s, answer, native)) && Tidy(OnAnswer(s, answer, native))
  {
  }

  lemma CloseOneMoves(s: State, id: string)
    requires Tidy(s)
    ensures Moves(s, CloseOne(s, id)) && Tidy(CloseOne(s, id))
  {
  }

  /** A draft is reached by moves: told stays told, missing stays missing, and events are only added. */
  ghost predicate Follows(s: State, s': State) {
    && Tidy(s') && s.events <= s'.events && (Told(s) ==> Told(s'))
    && (forall id :: Missing(s.events, Stories(s.calls), id) ==>
          Missing(s'.events, Stories(s'.calls), id) && Missing(s.events, Stories(s'.calls), id))
  }

  lemma FollowsOn(s: State, s1: State, s2: State)
    requires Follows(s, s1) && Moves(s1, s2) && Tidy(s2)
    ensures Follows(s, s2)
  {
    if Told(s) {
      MovesTell(s1, s2);
    }
    forall id | Missing(s.events, Stories(s.calls), id)
      ensures Missing(s2.events, Stories(s2.calls), id) && Missing(s.events, Stories(s2.calls), id)
    {
      MovesMissing(s1, s2, s.events, id);
    }
    assert s1.events <= s2.events;
  }

  lemma {:induction false} OnUsesFollow(tools: map<string, Identity>, s: State, uses: seq<Use>)
    requires Tidy(s)
    ensures Follows(s, OnUses(tools, s, uses).0)
  {
    if uses != [] {
      OnUsesFollow(tools, s, uses[..|uses| - 1]);
      var before := OnUses(tools, s, uses[..|uses| - 1]).0;
      OnUseMoves(tools, before, uses[|uses| - 1]);
      FollowsOn(s, before, OnUse(tools, before, uses[|uses| - 1]));
    }
  }

  lemma {:induction false} OnAnswersFollow(s: State, answers: seq<Answer>, native: Option<Json>)
    requires Tidy(s)
    ensures Follows(s, OnAnswers(s, answers, native).0)
  {
    if answers != [] {
      OnAnswersFollow(s, answers[..|answers| - 1], native);
      var before := OnAnswers(s, answers[..|answers| - 1], native).0;
      OnAnswerMoves(before, answers[|answers| - 1], native);
      FollowsOn(s, before, OnAnswer(before, answers[|answers| - 1], native));
    }
  }

  lemma DraftFollows(tools: map<string, Identity>, s: State, message: Message, session: string)
    requires Tidy(s)
    ensures Follows(s, Draft(tools, s, message, session).0)
  {
    match message.body {
      case Text =>
      case Uses(error, uses) => OnUsesFollow(tools, s, uses);
      case Answers(answers, native) => OnAnswersFollow(s, answers, Native(answers, native));
    }
  }

  lemma {:induction false} CloseEachFollows(s: State, ids: seq<string>)
    requires Tidy(s)
    ensures
      var s' := CloseEach(s, ids);
      && Follows(s, s') && s'.calls.Keys == s.calls.Keys
      && forall id :: id in ids && id in s'.calls ==> s'.calls[id].status != InProgress
  {
    if ids != [] {
      CloseEachFollows(s, ids[..|ids| - 1]);
      var before := CloseEach(s, ids[..|ids| - 1]);
      CloseOneMoves(before, ids[|ids| - 1]);
      FollowsOn(s, before, CloseOne(before, ids[|ids| - 1]));
    }
  }

  // ----- when reports are lost -----

  /** A use of a known tool without an id, or under the id of a known call or an earlier block it disagrees with. */
  predicate Conflicts(tools: map<string, Identity>, calls: map<string, Observation>, uses: seq<Use>, k: nat)
    requires k < |uses|
  {
    var use := uses[k];
    && use.name in tools
    && (|| use.id == ""
        || (use.id in calls && (calls[use.id].tool != tools[use.name] || calls[use.id].arguments != use.input))
        || (use.id !in calls && exists j :: 0 <= j < k && uses[j].id == use.id && Differs(tools, uses[j], use)))
  }

  /** Two uses of known tools that cannot be the same call. */
  predicate Differs(tools: map<string, Identity>, a: Use, b: Use) {
    a.name in tools && b.name in tools && (tools[a.name] != tools[b.name] || a.input != b.input)
  }

  /** A result for a known call that is settled already, or that an earlier block answers. */
  predicate Repeats(calls: map<string, Observation>, answers: seq<Answer>, k: nat)
    requires k < |answers|
  {
    var id := answers[k].id;
    id in calls && (calls[id].status != InProgress || exists j :: 0 <= j < k && answers[j].id == id)
  }

  /** A new call of a known tool is announced before any block conflicts, and then some block does. */
  predicate LosesUses(tools: map<string, Identity>, calls: map<string, Observation>, uses: seq<Use>) {
    && (exists k :: 0 <= k < |uses| && Conflicts(tools, calls, uses, k))
    && exists k :: 0 <= k < |uses| && uses[k].name in tools && uses[k].id != "" && uses[k].id !in calls
         && forall j :: 0 <= j < k ==> !Conflicts(tools, calls, uses, j)
  }

  /** An open call is settled before any block repeats, and then some block does. */
  predicate LosesAnswers(calls: map<string, Observation>, answers: seq<Answer>) {
    && (exists k :: 0 <= k < |answers| && Repeats(calls, answers, k))
    && exists k :: 0 <= k < |answers| && answers[k].id in calls && calls[answers[k].id].status == InProgress
         && forall j :: 0 <= j < k ==> !Repeats(calls, answers, j)
  }

  /** What a caller can see of the message and the known calls: it will fail after having said something. */
  predicate Loses(tools: map<string, Identity>, s: State, message: Message, session: string) {
    && message.relevant && message.session == session != ""
    && match message.body
       case Text => false
       case Uses(error, uses) => !error && LosesUses(tools, s.calls, uses)
       case Answers(answers, _) => LosesAnswers(s.calls, answers)
  }

  // ----- the guards are those of the code -----

  /** After accepted uses: the calls known before as they were, and each use of a known tool as it said. */
  ghost predicate Reflects(tools: map<string, Identity>, s: State, uses: seq<Use>, after: State) {
    && (forall id :: id in s.calls ==> id in after.calls && after.calls[id] == s.calls[id])
    && (forall j :: 0 <= j < |uses| && uses[j].name in tools ==> RecordedAs(tools, uses[j], after))
    && (forall id :: id in after.calls && id !in s.calls ==> NamedBy(tools, uses, id))
  }

  predicate RecordedAs(tools: map<string, Identity>, use: Use, after: State)
    requires use.name in tools
  {
    use.id in after.calls && after.calls[use.id].tool == tools[use.name] && after.calls[use.id].arguments == use.input
  }

  predicate NamedBy(tools: map<string, Identity>, uses: seq<Use>, id: string) {
    exists j :: 0 <= j < |uses| && uses[j].name in tools && uses[j].id == id
  }

  lemma NamedBySnoc(tools: map<string, Identity>, front: seq<Use>, last: Use, id: string)
    ensures NamedBy(tools, front + [last], id) <==> NamedBy(tools, front, id) || (last.name in tools && last.id == id)
  {
    var uses := front + [last];
    assert uses[|front|] == last && forall j :: 0 <= j < |front| ==> uses[j] == front[j];
  }

  lemma ReflectsSnoc(tools: map<string, Identity>, s: State, front: seq<Use>, last: Use, after: State)
    requires Reflects(tools, s, front, after) && Accepted(tools, after, last)
    ensures Reflects(tools, s, front + [last], OnUse(tools, after, last))
  {
    var uses, after' := front + [last], OnUse(tools, after, last);
    forall j | 0 <= j < |uses| && uses[j].name in tools ensures RecordedAs(tools, uses[j], after') {
      assert j < |front| ==> RecordedAs(tools, front[j], after);
    }
    forall id | id in after'.calls && id !in s.calls ensures NamedBy(tools, uses, id) {
      NamedBySnoc(tools, front, last, id);
    }
  }

  /** With all blocks before it accepted, a block is accepted exactly when it does not conflict. */
  lemma AcceptedMeans(tools: map<string, Identity>, s: State, front: seq<Use>, last: Use, after: State)
    requires Reflects(tools, s, front, after)
    ensures Accepted(tools, after, last) <==> !Conflicts(tools, s.calls, front + [last], |front|)
  {
    var uses := front + [last];
    assert uses[|front|] == last && forall j :: 0 <= j < |front| ==> uses[j] == front[j];
    if last.name in tools && last.id != "" && last.id !in s.calls {
      forall j | 0 <= j < |front| && front[j].id == last.id && front[j].name in tools
        ensures RecordedAs(tools, front[j], after)
      {
      }
      if last.id in after.calls {
        var j :| 0 <= j < |front| && front[j].name in tools && front[j].id == last.id;
        assert RecordedAs(tools, front[j], after) && uses[j] == front[j];
        assert !Accepted(tools, after, last) ==> Differs(tools, uses[j], last);
      }
    }
  }

  predicate NoConflict(tools: map<string, Identity>, calls: map<string, Observation>, uses: seq<Use>) {
    forall k :: 0 <= k < |uses| ==> !Conflicts(tools, calls, uses, k)
  }

  lemma NoConflictSnoc(tools: map<string, Identity>, calls: map<string, Observation>, front: seq<Use>, last: Use)
    ensures NoConflict(tools, calls, front + [last]) <==>
      NoConflict(tools, calls, front) && !Conflicts(tools, calls, front + [last], |front|)
  {
    var uses := front + [last];
    forall k | 0 <= k < |front| ensures Conflicts(tools, calls, uses, k) <==> Conflicts(tools, calls, front, k) {
      assert forall j :: 0 <= j <= k ==> uses[j] == front[j];
    }
  }

  /** A message of uses gets to its end exactly when no block conflicts. */
  lemma {:induction false} UsesPassMeans(tools: map<string, Identity>, s: State, uses: seq<Use>)
    ensures OnUses(tools, s, uses).1 <==> NoConflict(tools, s.calls, uses)
    ensures OnUses(tools, s, uses).1 ==> Reflects(tools, s, uses, OnUses(tools, s, uses).0)
  {
    if uses != [] {
      var front, last := uses[..|uses| - 1], uses[|uses| - 1];
      UsesPassMeans(tools, s, front);
      assert uses == front + [last];
      NoConflictSnoc(tools, s.calls, front, last);
      if OnUses(tools, s, front).1 {
        var after := OnUses(tools, s, front).0;
        AcceptedMeans(tools, s, front, last, after);
        if Accepted(tools, after, last) {
          ReflectsSnoc(tools, s, front, last, after);
        }
      }
    }
  }

  /** After accepted answers: a known call is open exactly when it was and no block answered it. */
  ghost predicate Answered(s: State, answers: seq<Answer>, after: State) {
    && after.calls.Keys == s.calls.Keys
    && (forall id :: id in s.calls ==>
          (after.calls[id].status == InProgress <==> s.calls[id].status == InProgress && !AnsweredBy(answers, id)))
  }

  predicate AnsweredBy(answers: seq<Answer>, id: string) {
    exists j :: 0 <= j < |answers| && answers[j].id == id
  }

  lemma AnsweredBySnoc(front: seq<Answer>, last: Answer, id: string)
    ensures AnsweredBy(front + [last], id) <==> AnsweredBy(front, id) || last.id == id
  {
    var answers := front + [last];
    assert answers[|front|] == last && forall j :: 0 <= j < |front| ==> answers[j] == front[j];
  }

  predicate NoRepeat(calls: map<string, Observation>, answers: seq<Answer>) {
    forall k :: 0 <= k < |answers| ==> !Repeats(calls, answers, k)
  }

  lemma NoRepeatSnoc(calls: map<string, Observation>, front: seq<Answer>, last: Answer)
    ensures NoRepeat(calls, front + [last]) <==> NoRepeat(calls, front) && !Repeats(calls, front + [last], |front|)
  {
    var answers := front + [last];
    forall k | 0 <= k < |front| ensures Repeats(calls, answers, k) <==> Repeats(calls, front, k) {
      assert forall j :: 0 <= j <= k ==> answers[j] == front[j];
    }
  }

  lemma RepeatsMeans(s: State, front: seq<Answer>, last: Answer, after: State)
    requires Answered(s, front, after)
    ensures Repeats(s.calls, front + [last], |front|) <==> last.id in after.calls && !Settles(after, last)
  {
    var answers := front + [last];
    assert answers[|front|] == last && forall j :: 0 <= j < |front| ==> answers[j] == front[j];
  }

  /** A message of answers gets to its end exactly when no block repeats. */
  lemma {:induction false} AnswersPassMeans(s: State, answers: seq<Answer>, native: Option<Json>)
    ensures OnAnswers(s, answers, native).1 <==> NoRepeat(s.calls, answers)
    ensures OnAnswers(s, answers, native).1 ==> Answered(s, answers, OnAnswers(s, answers, native).0)
  {
    if answers != [] {
      var front, last := answers[..|answers| - 1], answers[|answers| - 1];
      AnswersPassMeans(s, front, native);
      assert answers == front + [last];
      NoRepeatSnoc(s.calls, front, last);
      if OnAnswers(s, front, native).1 {
        var after := OnAnswers(s, front, native).0;
        RepeatsMeans(s, front, last, after);
        if last.id in after.calls ==> Settles(after, last) {
          forall id ensures AnsweredBy(answers, id) <==> AnsweredBy(front, id) || last.id == id {
            AnsweredBySnoc(front, last, id);
          }
        }
      }
    }
  }

  // ----- what is said before a message fails -----

  predicate AnnouncesBy(tools: map<string, Identity>, s: State, uses: seq<Use>) {
    exists k :: 0 <= k < |uses| && OnUses(tools, s, uses[..k]).1 && Announces(tools, s, uses[k])
  }

  predicate SettlesBy(s: State, answers: seq<Answer>, native: Option<Json>) {
    exists k :: 0 <= k < |answers| && OnAnswers(s, answers[..k], native).1 && Settles(s, answers[k])
  }

  lemma UseSpeaks(tools: map<string, Identity>, s: State, use: Use)
    ensures OnUse(tools, s, use) == s || |OnUse(tools, s, use).events| > |s.events|
    ensures |OnUse(tools, s, use).events| > |s.events| <==> Announces(tools, s, use)
  {
  }

  lemma {:induction false} UsesSpeak(tools: map<string, Identity>, s: State, uses: seq<Use>)
    ensures
      var after := OnUses(tools, s, uses).0;
      && (after == s || |after.events| > |s.events|)
      && (|after.events| > |s.events| <==> AnnouncesBy(tools, s, uses))
  {
    if uses != [] {
      var front, last := uses[..|uses| - 1], uses[|uses| - 1];
      UsesSpeak(tools, s, front);
      UseSpeaks(tools, OnUses(tools, s, front).0, last);
      AnnouncesBySnoc(tools, s, front, last);
      assert uses == front + [last];
    }
  }

  lemma AnnouncesBySnoc(tools: map<string, Identity>, s: State, front: seq<Use>, last: Use)
    ensures AnnouncesBy(tools, s, front + [last]) <==>
      AnnouncesBy(tools, s, front) || (OnUses(tools, s, front).1 && Announces(tools, s, last))
  {
    var uses := front + [last];
    forall k | 0 <= k <= |front| ensures uses[..k] == front[..k] {
    }
    assert uses[|front|] == last && front[..|front|] == front;
    assert forall k :: 0 <= k < |front| ==> uses[k] == front[k];
  }

  lemma AnswerSpeaks(s: State, answer: Answer, native: Option<Json>)
    ensures OnAnswer(s, answer, native) == s || |OnAnswer(s, answer, native).events| > |s.events|
    ensures |OnAnswer(s, answer, native).events| > |s.events| <==> Settles(s, answer)
  {
  }

  lemma {:induction false} AnswersSpeak(s: State, answers: seq<Answer>, native: Option<Json>)
    ensures
      var after := OnAnswers(s, answers, native).0;
      && (after == s || |after.events| > |s.events|)
      && (|after.events| > |s.events| <==> SettlesBy(s, answers, native))
  {
    if answers != [] {
      var front, last := answers[..|answers| - 1], answers[|answers| - 1];
      AnswersSpeak(s, front, native);
      AnswerSpeaks(OnAnswers(s, front, native).0, last, native);
      SettlesBySnoc(s, front, last, native);
      assert answers == front + [last];
    }
  }

  lemma SettlesBySnoc(s: State, front: seq<Answer>, last: Answer, native: Option<Json>)
    ensures SettlesBy(s, front + [last], native) <==>
      SettlesBy(s, front, native) || (OnAnswers(s, front, native).1 && Settles(s, last))
  {
    var answers := front + [last];
    forall k | 0 <= k <= |front| ensures answers[..k] == front[..k] {
    }
    assert answers[|front|] == last && front[..|front|] == front;
    assert forall k :: 0 <= k < |front| ==> answers[k] == front[k];
  }

  lemma NoConflictPrefix(tools: map<string, Identity>, calls: map<string, Observation>, uses: seq<Use>, k: nat)
    requires k <= |uses|
    ensures NoConflict(tools, calls, uses[..k]) <==> forall j :: 0 <= j < k ==> !Conflicts(tools, calls, uses, j)
  {
    forall j | 0 <= j < k ensures Conflicts(tools, calls, uses[..k], j) <==> Conflicts(tools, calls, uses, j) {
      assert forall i :: 0 <= i <= j ==> uses[..k][i] == uses[i];
    }
  }

  lemma NoRepeatPrefix(calls: map<string, Observation>, answers: seq<Answer>, k: nat)
    requires k <= |answers|
    ensures NoRepeat(calls, answers[..k]) <==> forall j :: 0 <= j < k ==> !Repeats(calls, answers, j)
  {
    forall j | 0 <= j < k ensures Repeats(calls, answers[..k], j) <==> Repeats(calls, answers, j) {
      assert forall i :: 0 <= i <= j ==> answers[..k][i] == answers[i];
    }
  }

  lemma LosesUsesMeans(tools: map<string, Identity>, s: State, uses: seq<Use>)
    ensures LosesUses(tools, s.calls, uses) <==> !OnUses(tools, s, uses).1 && AnnouncesBy(tools, s, uses)
  {
    UsesPassMeans(tools, s, uses);
    forall k | 0 <= k < |uses|
      ensures OnUses(tools, s, uses[..k]).1 <==> forall j :: 0 <= j < k ==> !Conflicts(tools, s.calls, uses, j)
    {
      UsesPassMeans(tools, s, uses[..k]);
      NoConflictPrefix(tools, s.calls, uses, k);
    }
  }

  lemma LosesAnswersMeans(s: State, answers: seq<Answer>, native: Option<Json>)
    ensures LosesAnswers(s.calls, answers) <==> !OnAnswers(s, answers, native).1 && SettlesBy(s, answers, native)
  {
    AnswersPassMeans(s, answers, native);
    forall k | 0 <= k < |answers|
      ensures OnAnswers(s, answers[..k], native).1 <==> forall j :: 0 <= j < k ==> !Repeats(s.calls, answers, j)
    {
      AnswersPassMeans(s, answers[..k], native);
      NoRepeatPrefix(s.calls, answers, k);
    }
  }

  /** A failing message drops events exactly when the guards say it loses something. */
  lemma LosesMeansDropped(tools: map<string, Identity>, s: State, message: Message, session: string)
    ensures
      var (draft, ok) := Draft(tools, s, message, session);
      && (draft == s || |draft.events| > |s.events|)
      && (Loses(tools, s, message, session) <==> !ok && |draft.events| > |s.events|)
  {
    match message.body {
      case Text =>
      case Uses(error, uses) =>
        UsesSpeak(tools, s, uses);
        LosesUsesMeans(tools, s, uses);
      case Answers(answers, native) =>
        AnswersSpeak(s, answers, Native(answers, native));
        LosesAnswersMeans(s, answers, Native(answers, native));
    }
  }

  lemma ConsumeTells(tools: map<string, Identity>, s: State, message: Message, session: string)
    requires Tidy(s) && Told(s)
    ensures Tidy(Consume(tools, s, message, session))
    ensures !Loses(tools, s, message, session) ==> Told(Consume(tools, s, message, session))
    ensures Loses(tools, s, message, session) ==>
      exists id :: Missing(s.events, Stories(Consume(tools, s, message, session).calls), id)
  {
    DraftFollows(tools, s, message, session);
    LosesMeansDropped(tools, s, message, session);
    var draft := Draft(tools, s, message, session).0;
    if Loses(tools, s, message, session) {
      var more := draft.events[|s.events|..];
      assert s.events + more == draft.events;
      var id := DroppingLoses(s.events, Stories(s.calls), more, Stories(draft.calls));
    }
  }

  // ----- over every run -----

  /** Each message is read with the tools verified at the time. */
  datatype Action = DoConsume(tools: map<string, Identity>, message: Message, session: string) | DoClose

  function Run(actions: seq<Action>): State {
    if actions == [] then START else
      var before := Run(actions[..|actions| - 1]);
      match actions[|actions| - 1]
      case DoConsume(tools, message, session) => Consume(tools, before, message, session)
      case DoClose => Close(before)
  }

  /** No message of the run loses anything. */
  predicate Lossless(actions: seq<Action>) {
    actions == [] ||
    (var before, last := actions[..|actions| - 1], actions[|actions| - 1];
     && Lossless(before)
     && (last.DoConsume? ==> !Loses(last.tools, Run(before), last.message, last.session)))
  }

  ghost predicate SomeMissing(s: State) {
    exists id :: Missing(s.events, Stories(s.calls), id)
  }

  lemma StepKeeps(s: State, a: Action)
    requires Tidy(s)
    ensures
      var s' :=
        match a
        case DoConsume(tools, message, session) => Consume(tools, s, message, session)
        case DoClose => Close(s);
      && Tidy(s') && (SomeMissing(s) ==> SomeMissing(s'))
      && (Told(s) && (a.DoConsume? ==> !Loses(a.tools, s, a.message, a.session)) ==> Told(s'))
      && (Told(s) && a.DoConsume? && Loses(a.tools, s, a.message, a.session) ==> SomeMissing(s'))
  {
    match a {
      case DoConsume(tools, message, session) =>
        DraftFollows(tools, s, message, session);
        if Told(s) {
          ConsumeTells(tools, s, message, session);
          LosesMeansDropped(tools, s, message, session);
        }
      case DoClose => CloseEachFollows(s, s.order);
    }
  }

  /** The reports of a run are paired if, and only if, no message of the run loses anything. */
  lemma {:induction false} PairedExactlyWhenLossless(actions: seq<Action>)
    ensures Tidy(Run(actions))
    ensures Told(Run(actions)) <==> Lossless(actions)
    ensures !Lossless(actions) ==> SomeMissing(Run(actions))
  {
    if actions == [] {
      forall id ensures Trace<Observation>([], id) == Story(Stories(map[]), id) {
      }
    } else {
      var before, last := actions[..|actions| - 1], actions[|actions| - 1];
      PairedExactlyWhenLossless(before);
      StepKeeps(Run(before), last);
      var s := Run(actions);
      if SomeMissing(s) {
        var id :| Missing(s.events, Stories(s.calls), id);
        MissingIsNotTold(s.events, Stories(s.calls), id);
      }
    }
  }

  /** In a lossless run each call is announced once, reported at most once, and exactly once right after closing. */
  lemma CallsAreReportedOnce(actions: seq<Action>, id: string)
    requires Lossless(actions)
    ensures
      var s := Run(actions);
      && Count(s.events, id, true) == (if id in s.calls then 1 else 0)
      && Count(s.events, id, false) <= Count(s.events, id, true)
      && (actions != [] && actions[|actions| - 1].DoClose? ==> Count(s.events, id, false) == Count(s.events, id, true))
  {
    PairedExactlyWhenLossless(actions);
    var s := Run(actions);
    TellsOnce(s.events, Stories(s.calls), id);
    if actions != [] && actions[|actions| - 1].DoClose? {
      var before := Run(actions[..|actions| - 1]);
      PairedExactlyWhenLossless(actions[..|actions| - 1]);
      CloseEachFollows(before, before.order);
      assert id in s.calls ==> id in Elements(before.order);
    }
  }

  const ECHO := Use("call-1", "mcp__echo__say", "{}")
  const NAMELESS := Use("", "mcp__echo__say", "{}")
  const ECHO_TOOLS: map<string, Identity> := map["mcp__echo__say" := McpProfile.Identity("echo", "say")]

  /** A message whose second use has no id drops the first one's announcement; closing then reports it all the same. */
  lemma HalfReadMessagesLoseAnnouncements()
    ensures
      var message := Message(true, "s", Uses(false, [ECHO, NAMELESS]));
      var s := Run([DoConsume(ECHO_TOOLS, message, "s"), DoClose]);
      Count(s.events, ECHO.id, true) == 0 && Count(s.events, ECHO.id, false) == 1
  {
    var message := Message(true, "s", Uses(false, [ECHO, NAMELESS]));
    var consume := DoConsume(ECHO_TOOLS, message, "s");
    assert [ECHO, NAMELESS][..1] == [ECHO] && [ECHO][..0] == [];
    assert [consume, DoClose][..1] == [consume] && [consume][..0] == [];
    var observation := Observation(ECHO_TOOLS[ECHO.name], InProgress, ECHO.input, None, None);
    var half := State(map[ECHO.id := observation], [ECHO.id], []);
    assert OnUses(ECHO_TOOLS, START, []) == (START, true);
    assert OnUses(ECHO_TOOLS, START, [ECHO]).0.(events := []) == half;
    assert Run([consume]) == half;
    assert [ECHO.id][..0] == [];
    assert CloseEach(half, []) == half;
    var closed := CloseOne(half, ECHO.id);
    assert Close(half) == closed;
    assert closed.events == [After(ECHO.id, observation.(status := Incomplete))];
    assert closed.events[..0] == [];
  }

  // ----- the object -----

  class Observer {
    /** Shared with the profile, which replaces it on verification. */
    var tools: map<string, Identity>
    var calls: map<string, Observation>
    var order: seq<string>
    /** Everything handed over so far. */
    var events: seq<Event<Observation>>

    constructor (tools: map<string, Identity>)
      ensures this.tools == tools && Value() == START
    {
      this.tools := tools;
      calls, order, events := map[], [], [];
    }

    function Value(): State
      reads this
    {
      State(calls, order, events)
    }

    method ObserveUses(uses: seq<Use>) returns (ok: bool, more: seq<Event<Observation>>)
      modifies this`calls, this`order
      ensures (State(calls, order, events + more), ok) == OnUses(tools, old(Value()), uses)
    {
      more := [];
      var k := 0;
      assert events + more == events;
      while k < |uses|
        invariant 0 <= k <= |uses|
        invariant (State(calls, order, events + more), true) == OnUses(tools, old(Value()), uses[..k])
      {
        var use := uses[k];
        assert uses[..k + 1][..k] == uses[..k];
        if use.name in tools {
          if use.id == ""
              || (use.id in calls && (calls[use.id].tool != tools[use.name] || calls[use.id].arguments != use.input)) {
            UsesStop(tools, old(Value()), uses, k + 1);
            return false, more;
          }
          if use.id !in calls {
            var observation := Observation(tools[use.name], InProgress, use.input, None, None);
            calls, order := calls[use.id := observation], order + [use.id];
            assert events + more + [Before(use.id, observation)] == events + (more + [Before(use.id, observation)]);
            more := more + [Before(use.id, observation)];
          }
        }
        k := k + 1;
      }
      assert uses[..k] == uses;
      ok := true;
    }

    method ObserveAnswers(answers: seq<Answer>, native: Option<Json>) returns (ok: bool, more: seq<Event<Observation>>)
      modifies this`calls
      ensures (State(calls, order, events + more), ok) == OnAnswers(old(Value()), answers, native)
    {
      more := [];
      var k := 0;
      assert events + more == events;
      while k < |answers|
        invariant 0 <= k <= |answers|
        invariant (State(calls, order, events + more), true) == OnAnswers(old(Value()), answers[..k], native)
      {
        var answer := answers[k];
        assert answers[..k + 1][..k] == answers[..k];
        if answer.id in calls {
          if calls[answer.id].status != InProgress {
            AnswersStop(old(Value()), answers, native, k + 1);
            return false, more;
          }
          var value := if native.Some? then native else answer.content;
          var observation := calls[answer.id];
          if answer.isError {
            observation := observation.(status := Failed, error := value);
          } else {
            observation := observation.(status := Completed, output := value);
          }
          calls := calls[answer.id := observation];
          assert events + more + [After(answer.id, observation)] == events + (more + [After(answer.id, observation)]);
          more := more + [After(answer.id, observation)];
        }
        k := k + 1;
      }
      assert answers[..k] == answers;
      ok := true;
    }

    /** Events are handed over only when the whole message was accepted. */
    method ConsumeMessage(message: Message, session: string) returns (ok: bool)
      modifies this`calls, this`order, this`events
      ensures Value() == Consume(tools, old(Value()), message, session)
      ensures ok == Draft(tools, old(Value()), message, session).1
    {
      if !message.relevant {
        return true;
      }
      if message.session != session || session == "" {
        return false;
      }
      var more := [];
      assert events + more == events;
      ok := true;
      match message.body {
        case Text =>
        case Uses(error, uses) =>
          if !error {
            ok, more := ObserveUses(uses);
          }
        case Answers(answers, native) =>
          ok, more := ObserveAnswers(answers, Native(answers, native));
      }
      if ok {
        events := events + more;
      }
    }

    method CloseCalls()
      modifies this`calls, this`events
      ensures Value() == Close(old(Value()))
    {
      var ids, k := order, 0;
      while k < |ids|
        invariant 0 <= k <= |ids|
        invariant Value() == CloseEach(old(Value()), ids[..k])
      {
        assert ids[..k + 1][..k] == ids[..k];
        if ids[k] in calls && calls[ids[k]].status == InProgress {
          calls := calls[ids[k] := calls[ids[k]].(status := Incomplete)];
          events := events + [After(ids[k], calls[ids[k]])];
        }
        k := k + 1;
      }
      assert ids[..k] == ids;
    }
  }

  lemma {:induction false} UsesStop(tools: map<string, Identity>, s: State, uses: seq<Use>, k: nat)
    requires k <= |uses| && !OnUses(tools, s, uses[..k]).1
    ensures OnUses(tools, s, uses) == OnUses(tools, s, uses[..k])
  {
    if k < |uses| {
      assert uses[..|uses| - 1][..k] == uses[..k];
      UsesStop(tools, s, uses[..|uses| - 1], k);
    } else {
      assert uses[..k] == uses;
    }
  }

  lemma {:induction false} AnswersStop(s: State, answers: seq<Answer>, native: Option<Json>, k: nat)
    requires k <= |answers| && !OnAnswers(s, answers[..k], native).1
    ensures OnAnswers(s, answers, native) == OnAnswers(s, answers[..k], native)
  {
    if k < |answers| {
      assert answers[..|answers| - 1][..k] == answers[..k];
      AnswersStop(s, answers[..|answers| - 1], native, k);
    } else {
      assert answers[..k] == answers;
    }
  }
}
