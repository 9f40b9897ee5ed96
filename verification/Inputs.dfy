/** The input ledger: what is handed to the native session, and the receipts that come back for it. */
module Inputs {
  import opened Basics

  const MAX_INPUTS := 64
  const MAX_ID_LENGTH := 256

  /** The opening prompt has no id. */
  datatype Input = Input(id: Option<string>, applied: bool, completed: bool)

  datatype Message = Message(uuid: string, session: string, text: string)

  datatype Event = Ready(session: string) | Closed(session: string) | Applied(id: string) | Rejected(id: string)

  /** A submitted value: either not a steering input at all, or one with an id and a text. */
  datatype Value = Malformed | Steer(id: string, text: string)

  datatype NativeKind = Assistant | StreamEvent | Result | Other

  datatype Native = Native(
    kind: NativeKind, nested: bool, replay: bool, synthetic: bool, session: string, uuids: seq<string>)

  datatype Outcome = Threw | Emitted(events: seq<Event>)

  // ----- text -----

  predicate Blank(text: string) {
    forall c :: c in text ==> c in WHITESPACE
  }

  /** The white space and line terminators of ECMAScript. */
  const WHITESPACE := {'\t', '\n', '\U{0B}', '\U{0C}', '\r', ' ', '\U{A0}', '\U{1680}', '\U{2000}', '\U{2001}',
                       '\U{2002}', '\U{2003}', '\U{2004}', '\U{2005}', '\U{2006}', '\U{2007}', '\U{2008}',
                       '\U{2009}', '\U{200A}', '\U{2028}', '\U{2029}', '\U{202F}', '\U{205F}', '\U{3000}',
                       '\U{FEFF}'}

  /** Length in UTF-16 code units. */
  function Utf16Length(text: string): nat {
    if text == [] then 0 else (if text[0] as int > 0xFFFF then 2 else 1) + Utf16Length(text[1..])
  }

  predicate WellFormed(value: Value) {
    value.Steer? && !Blank(value.id) && Utf16Length(value.id) <= MAX_ID_LENGTH && !Blank(value.text)
  }

  // ----- the ledger and its history -----

  datatype State = State(
    submitted: map<string, Input>, ids: set<string>, queue: seq<Message>, ended: bool, session: string,
    enqueued: seq<Message>, yielded: seq<Message>, events: seq<Event>)

  const START := State(map[], {}, [], false, "", [], [], [])

  function Enqueue(s: State, text: string, id: Option<string>, uuid: string): State {
    var message := Message(uuid, s.session, text);
    s.(submitted := s.submitted[uuid := Input(id, false, false)],
       ids := if id.Some? then s.ids + {id.value} else s.ids,
       queue := s.queue + [message], enqueued := s.enqueued + [message])
  }

  function Release(s: State, prompt: string, uuid: string): (State, Outcome) {
    if s.ended || s.submitted != map[] || Blank(prompt) then (s, Threw)
    else (Enqueue(s, prompt, None, uuid), Emitted([]))
  }

  function Begin(s: State, session: string): (State, Outcome) {
    if s.ended || session == "" || (s.session != "" && s.session != session) then (s, Threw)
    else if s.session != "" then (s, Emitted([]))
    else (s.(session := session, events := s.events + [Ready(session)]), Emitted([Ready(session)]))
  }

  function Submit(s: State, value: Value, uuid: string): (State, Outcome) {
    if !WellFormed(value) then (s, Threw)
    else if s.ended || s.session == "" || |s.submitted| >= MAX_INPUTS || value.id in s.ids then
      (s.(events := s.events + [Rejected(value.id)]), Emitted([Rejected(value.id)]))
    else (Enqueue(s, value.text, Some(value.id), uuid), Emitted([]))
  }

  predicate Relevant(message: Native) {
    !message.kind.Other? && !message.nested && !message.replay && !message.synthetic
  }

  /** Marks one named input, with the receipt this calls for. */
  function MarkOne(m: map<string, Input>, uuid: string, result: bool): (map<string, Input>, seq<Event>) {
    if uuid !in m then (m, [])
    else
      var input := m[uuid];
      (m[uuid := Input(input.id, true, input.completed || result)],
       if !input.applied && input.id.Some? then [Applied(input.id.value)] else [])
  }

  function Mark(m: map<string, Input>, uuids: seq<string>, result: bool): (map<string, Input>, seq<Event>) {
    if uuids == [] then (m, [])
    else
      var (before, events) := Mark(m, uuids[..|uuids| - 1], result);
      var (after, more) := MarkOne(before, uuids[|uuids| - 1], result);
      (after, events + more)
  }

  predicate AllCompleted(m: map<string, Input>) {
    forall u :: u in m ==> m[u].completed
  }

  predicate NamesOne(m: map<string, Input>, uuids: seq<string>) {
    exists u :: u in uuids && u in m
  }

  function Consume(s: State, message: Native): (State, Outcome) {
    if !Relevant(message) then (s, Emitted([]))
    else if message.session != s.session || s.session == "" then (s, Threw)
    else if message.kind.Result? && !NamesOne(s.submitted, message.uuids) then (s, Threw)
    else
      var (marked, receipts) := Mark(s.submitted, message.uuids, message.kind.Result?);
      var closes := message.kind.Result? && AllCompleted(marked);
      var events := if closes then [Closed(s.session)] + receipts else receipts;
      (s.(submitted := marked, ended := s.ended || closes, events := s.events + events), Emitted(events))
  }

  function Close(s: State): State {
    s.(ended := true)
  }

  /** The iterator hands over the oldest queued message, if there is one. */
  function Yield(s: State): State {
    if s.queue == [] then s else s.(queue := s.queue[1..], yielded := s.yielded + [s.queue[0]])
  }

  datatype Action =
    | DoRelease(prompt: string, uuid: string)
    | DoStart(session: string)
    | DoSubmit(value: Value, uuid: string)
    | DoConsume(message: Native)
    | DoClose
    | DoYield

  /** Fresh: a random identifier is none of those already in use. */
  predicate Enabled(s: State, a: Action) {
    (a.DoRelease? || a.DoSubmit?) ==> a.uuid !in s.submitted
  }

  function Step(s: State, a: Action): State {
    match a
    case DoRelease(prompt, uuid) => Release(s, prompt, uuid).0
    case DoStart(session) => Begin(s, session).0
    case DoSubmit(value, uuid) => Submit(s, value, uuid).0
    case DoConsume(message) => Consume(s, message).0
    case DoClose => Close(s)
    case DoYield => Yield(s)
  }

  predicate Reachable(actions: seq<Action>) {
    actions == [] ||
    (Reachable(actions[..|actions| - 1]) && Enabled(Run(actions[..|actions| - 1]), actions[|actions| - 1]))
  }

  function Run(actions: seq<Action>): State {
    if actions == [] then START else Step(Run(actions[..|actions| - 1]), actions[|actions| - 1])
  }

  // ----- what every step keeps -----

  function Uuids(messages: seq<Message>): seq<string> {
    seq(|messages|, i requires 0 <= i < |messages| => messages[i].uuid)
  }

  /** The iterator's order is the order of submission, and every submission is its own entry. */
  predicate Ordered(s: State) {
    && s.yielded + s.queue == s.enqueued
    && Distinct(Uuids(s.enqueued)) && Elements(Uuids(s.enqueued)) == s.submitted.Keys
    && |s.submitted| <= MAX_INPUTS
  }

  /** Ids name one entry each. */
  predicate Identified(m: map<string, Input>, ids: set<string>) {
    && (forall u :: u in m && m[u].id.Some? ==> m[u].id.value in ids)
    && (forall u, v :: u in m && v in m && u != v && m[u].id.Some? ==> m[u].id != m[v].id)
  }

  /** Entries are completed only when applied. */
  predicate Marked(m: map<string, Input>) {
    forall u :: u in m ==> (m[u].completed ==> m[u].applied)
  }

  function AppliedIds(events: seq<Event>): seq<string> {
    if events == [] then []
    else AppliedIds(events[..|events| - 1]) +
         (if events[|events| - 1].Applied? then [events[|events| - 1].id] else [])
  }

  predicate Bears(m: map<string, Input>, u: string, id: string) {
    u in m && m[u].applied && m[u].id == Some(id)
  }

  /** There is one receipt for each applied entry with an id, and no other. */
  predicate Receipted(m: map<string, Input>, receipts: seq<string>) {
    && Distinct(receipts)
    && (forall u :: u in m && m[u].applied && m[u].id.Some? ==> m[u].id.value in receipts)
    && (forall id :: id in receipts ==> exists u :: u in m && Bears(m, u, id))
  }

  predicate Booked(m: map<string, Input>, ids: set<string>, receipts: seq<string>) {
    Identified(m, ids) && Marked(m) && Receipted(m, receipts)
  }

  /** A closing receipt means that there were inputs, all are completed, and nothing more gets in. */
  predicate Shut(s: State) {
    (exists e :: e in s.events && e.Closed?) ==> s.ended && s.submitted != map[] && AllCompleted(s.submitted)
  }

  predicate Inv(s: State) {
    Ordered(s) && Booked(s.submitted, s.ids, AppliedIds(s.events)) && Shut(s)
  }

  lemma {:induction false} AppliedIdsJoin(a: seq<Event>, b: seq<Event>)
    ensures AppliedIds(a + b) == AppliedIds(a) + AppliedIds(b)
  {
    if b == [] {
      assert a + b == a;
    } else {
      AppliedIdsJoin(a, b[..|b| - 1]);
      assert (a + b)[..|a + b| - 1] == a + b[..|b| - 1];
    }
  }

  lemma EnqueueKeeps(s: State, text: string, id: Option<string>, uuid: string)
    requires Inv(s) && uuid !in s.submitted && |s.submitted| < MAX_INPUTS && !s.ended
    requires id.Some? ==> id.value !in s.ids
    ensures Inv(Enqueue(s, text, id, uuid))
  {
    var s' := Enqueue(s, text, id, uuid);
    EnqueueOrdered(s, text, id, uuid);
    forall r | r in AppliedIds(s.events) ensures exists u :: u in s'.submitted && Bears(s'.submitted, u, r) {
      var u :| u in s.submitted && Bears(s.submitted, u, r);
      assert u != uuid && s'.submitted[u] == s.submitted[u];
    }
  }

  lemma EnqueueOrdered(s: State, text: string, id: Option<string>, uuid: string)
    requires Ordered(s) && uuid !in s.submitted && |s.submitted| < MAX_INPUTS
    ensures Ordered(Enqueue(s, text, id, uuid))
  {
    var s' := Enqueue(s, text, id, uuid);
    var before, after := Uuids(s.enqueued), Uuids(s'.enqueued);
    assert after == before + [uuid];
    forall i, j | 0 <= i < j < |after| ensures after[i] != after[j] {
      assert after[i] in Elements(before);
    }
    assert s'.submitted.Keys == s.submitted.Keys + {uuid};
  }

  lemma NoReceipt(s: State, e: Event)
    requires Inv(s) && !e.Applied? && !e.Closed?
    ensures Inv(s.(events := s.events + [e]))
  {
    AppliedIdsJoin(s.events, [e]);
    assert AppliedIds([e]) == [];
    assert AppliedIds(s.events) + [] == AppliedIds(s.events);
  }

  lemma MarkOneKeeps(m: map<string, Input>, ids: set<string>, receipts: seq<string>,
                     uuid: string, result: bool)
    requires Booked(m, ids, receipts)
    ensures
      var (after, events) := MarkOne(m, uuid, result);
      after.Keys == m.Keys && Booked(after, ids, receipts + AppliedIds(events))
  {
    var (after, events) := MarkOne(m, uuid, result);
    if uuid in m {
      assert forall u :: u in m && u != uuid ==> after[u] == m[u];
      forall r | r in receipts ensures exists u :: u in after && Bears(after, u, r) {
        var u :| u in m && Bears(m, u, r);
        assert after[u].applied && after[u].id == m[u].id;
      }
      if events != [] {
        var id := m[uuid].id.value;
        assert AppliedIds(events) == [id];
        assert Bears(after, uuid, id);
        assert id !in receipts;
      } else {
        assert receipts + AppliedIds(events) == receipts;
      }
    } else {
      assert receipts + AppliedIds(events) == receipts;
    }
  }

  lemma {:induction false} MarkKeeps(m: map<string, Input>, ids: set<string>, receipts: seq<string>,
                                     uuids: seq<string>, result: bool)
    requires Booked(m, ids, receipts)
    ensures
      var (after, events) := Mark(m, uuids, result);
      after.Keys == m.Keys && Booked(after, ids, receipts + AppliedIds(events))
  {
    if uuids == [] {
      assert receipts + AppliedIds([]) == receipts;
    } else {
      var front, last := uuids[..|uuids| - 1], uuids[|uuids| - 1];
      MarkKeeps(m, ids, receipts, front, result);
      var (before, events) := Mark(m, front, result);
      MarkNext(before, ids, receipts, events, last, result);
    }
  }

  lemma MarkNext(m: map<string, Input>, ids: set<string>, receipts: seq<string>,
                 events: seq<Event>, uuid: string, result: bool)
    requires Booked(m, ids, receipts + AppliedIds(events))
    ensures
      var (after, more) := MarkOne(m, uuid, result);
      after.Keys == m.Keys && Booked(after, ids, receipts + AppliedIds(events + more))
  {
    MarkOneKeeps(m, ids, receipts + AppliedIds(events), uuid, result);
    var more := MarkOne(m, uuid, result).1;
    assert receipts + AppliedIds(events) + AppliedIds(more) == receipts + AppliedIds(events + more) by {
      AppliedIdsJoin(events, more);
    }
  }

  /** Marking only ever emits receipts and only ever completes. */
  lemma {:induction false} MarkGrows(m: map<string, Input>, uuids: seq<string>, result: bool)
    ensures
      var (after, events) := Mark(m, uuids, result);
      (forall e :: e in events ==> e.Applied?) && (AllCompleted(m) ==> AllCompleted(after))
  {
    if uuids != [] {
      MarkGrows(m, uuids[..|uuids| - 1], result);
    }
  }

  lemma ConsumeKeeps(s: State, message: Native)
    requires Inv(s)
    ensures Inv(Consume(s, message).0)
  {
    var (s', outcome) := Consume(s, message);
    if s' != s {
      var (marked, receipts) := Mark(s.submitted, message.uuids, message.kind.Result?);
      MarkKeeps(s.submitted, s.ids, AppliedIds(s.events), message.uuids, message.kind.Result?);
      MarkGrows(s.submitted, message.uuids, message.kind.Result?);
      AppliedIdsJoin([Closed(s.session)], receipts);
      assert AppliedIds([Closed(s.session)]) == [];
      assert [] + AppliedIds(receipts) == AppliedIds(receipts);
      AppliedIdsJoin(s.events, outcome.events);
    }
  }

  lemma StepKeeps(s: State, a: Action)
    requires Inv(s) && Enabled(s, a)
    ensures Inv(Step(s, a))
  {
    match a {
      case DoRelease(prompt, uuid) => ReleaseKeeps(s, prompt, uuid);
      case DoStart(session) =>
        if Begin(s, session).1 == Emitted([Ready(session)]) {
          NoReceipt(s, Ready(session));
        }
      case DoSubmit(value, uuid) => SubmitKeeps(s, value, uuid);
      case DoConsume(message) => ConsumeKeeps(s, message);
      case DoClose =>
      case DoYield => YieldKeeps(s);
    }
  }

  lemma ReleaseKeeps(s: State, prompt: string, uuid: string)
    requires Inv(s) && uuid !in s.submitted
    ensures Inv(Release(s, prompt, uuid).0)
  {
    if Release(s, prompt, uuid).1.Emitted? {
      assert |s.submitted| == 0;
      EnqueueKeeps(s, prompt, None, uuid);
    }
  }

  lemma SubmitKeeps(s: State, value: Value, uuid: string)
    requires Inv(s) && uuid !in s.submitted
    ensures Inv(Submit(s, value, uuid).0)
  {
    if Submit(s, value, uuid).1 == Emitted([]) {
      EnqueueKeeps(s, value.text, Some(value.id), uuid);
    } else if WellFormed(value) {
      NoReceipt(s, Rejected(value.id));
    }
  }

  lemma YieldKeeps(s: State)
    requires Inv(s)
    ensures Inv(Yield(s))
  {
    if s.queue != [] {
      assert s.yielded + [s.queue[0]] + s.queue[1..] == s.yielded + s.queue;
    }
  }

  lemma {:induction false} RunKeeps(actions: seq<Action>)
    requires Reachable(actions)
    ensures Inv(Run(actions))
  {
    if actions != [] {
      RunKeeps(actions[..|actions| - 1]);
      StepKeeps(Run(actions[..|actions| - 1]), actions[|actions| - 1]);
    }
  }

  // ----- over every run -----

  /** The native session gets the inputs in the order of submission, each once, and never more than the limit. */
  lemma InputsArriveInOrder(actions: seq<Action>)
    requires Reachable(actions)
    ensures
      var s := Run(actions);
      s.yielded <= s.enqueued && Distinct(Uuids(s.enqueued)) && |s.enqueued| <= MAX_INPUTS
  {
    RunKeeps(actions);
    var s := Run(actions);
    assert s.yielded == s.enqueued[..|s.yielded|];
    ElementsSize(Uuids(s.enqueued));
  }

  /** At this point a message of the session itself, neither nested nor replayed nor synthetic, names the input. */
  predicate NamesAt(actions: seq<Action>, k: nat, uuid: string)
    requires k < |actions|
  {
    && actions[k].DoConsume? && uuid in actions[k].message.uuids && Relevant(actions[k].message)
    && actions[k].message.session == Run(actions[..k]).session != ""
  }

  // ----- which messages mark which inputs -----

  /** Marking touches exactly the named entries, applies them, and completes them if it is for a result. */
  lemma {:induction false} MarkMeans(m: map<string, Input>, uuids: seq<string>, result: bool, u: string)
    requires u in m
    ensures
      var after := Mark(m, uuids, result).0;
      && u in after && after[u].id == m[u].id
      && (after[u].applied <==> m[u].applied || u in uuids)
      && (after[u].completed <==> m[u].completed || (result && u in uuids))
  {
    if uuids != [] {
      var front, last := uuids[..|uuids| - 1], uuids[|uuids| - 1];
      assert uuids == front + [last];
      MarkMeans(m, front, result, u);
    }
  }

  /** The message of this action applies the input: the session's own, and it names an input already submitted. */
  predicate AppliesAt(actions: seq<Action>, k: nat, uuid: string)
    requires k < |actions|
  {
    NamesAt(actions, k, uuid) && uuid in Run(actions[..k]).submitted
  }

  predicate CompletesAt(actions: seq<Action>, k: nat, uuid: string)
    requires k < |actions|
  {
    AppliesAt(actions, k, uuid) && actions[k].message.kind.Result?
  }

  predicate EverApplied(actions: seq<Action>, uuid: string) {
    exists k :: 0 <= k < |actions| && AppliesAt(actions, k, uuid)
  }

  predicate EverCompleted(actions: seq<Action>, uuid: string) {
    exists k :: 0 <= k < |actions| && CompletesAt(actions, k, uuid)
  }

  /** Earlier, or at the last action. */
  lemma EverSplits(actions: seq<Action>, uuid: string)
    requires actions != []
    ensures EverApplied(actions, uuid) <==>
      EverApplied(actions[..|actions| - 1], uuid) || AppliesAt(actions, |actions| - 1, uuid)
    ensures EverCompleted(actions, uuid) <==>
      EverCompleted(actions[..|actions| - 1], uuid) || CompletesAt(actions, |actions| - 1, uuid)
  {
    var front := actions[..|actions| - 1];
    assert forall k :: 0 <= k < |front| ==> front[..k] == actions[..k] && front[k] == actions[k];
    assert forall k :: 0 <= k < |front| ==> (AppliesAt(front, k, uuid) <==> AppliesAt(actions, k, uuid));
    assert forall k :: 0 <= k < |front| ==> (CompletesAt(front, k, uuid) <==> CompletesAt(actions, k, uuid));
  }

  lemma {:induction false} SubmittedStays(actions: seq<Action>, k: nat, uuid: string)
    requires k <= |actions| && uuid in Run(actions[..k]).submitted
    ensures uuid in Run(actions).submitted
  {
    if k == |actions| {
      assert actions[..k] == actions;
    } else {
      var front := actions[..|actions| - 1];
      assert front[..k] == actions[..k];
      SubmittedStays(front, k, uuid);
      StepSubmitted(Run(front), actions[|actions| - 1], uuid);
    }
  }

  lemma StepSubmitted(s: State, a: Action, uuid: string)
    requires uuid in s.submitted
    ensures uuid in Step(s, a).submitted
  {
    if a.DoConsume? {
      MarkMeans(s.submitted, a.message.uuids, a.message.kind.Result?, uuid);
    }
  }

  lemma UnsubmittedIsUnmarked(actions: seq<Action>, uuid: string)
    requires uuid !in Run(actions).submitted
    ensures !EverApplied(actions, uuid) && !EverCompleted(actions, uuid)
  {
    if EverApplied(actions, uuid) {
      var k :| 0 <= k < |actions| && AppliesAt(actions, k, uuid);
      SubmittedStays(actions, k, uuid);
    }
  }

  /** The message is the session's own. */
  predicate Heard(s: State, a: Action) {
    a.DoConsume? && Relevant(a.message) && a.message.session == s.session != ""
  }

  lemma StepMarks(s: State, a: Action, uuid: string)
    requires Enabled(s, a) && uuid in s.submitted
    ensures
      var s', named := Step(s, a), Heard(s, a) && uuid in a.message.uuids;
      && uuid in s'.submitted && s'.submitted[uuid].id == s.submitted[uuid].id
      && (s'.submitted[uuid].applied <==> s.submitted[uuid].applied || named)
      && (s'.submitted[uuid].completed <==> s.submitted[uuid].completed || (named && a.message.kind.Result?))
  {
    if a.DoConsume? {
      MarkMeans(s.submitted, a.message.uuids, a.message.kind.Result?, uuid);
    }
  }

  lemma NewIsUnmarked(s: State, a: Action, uuid: string)
    requires uuid !in s.submitted && uuid in Step(s, a).submitted
    ensures !Step(s, a).submitted[uuid].applied && !Step(s, a).submitted[uuid].completed && !a.DoConsume?
  {
    if a.DoConsume? {
      MarkAddsNothing(s.submitted, a.message.uuids, a.message.kind.Result?);
    }
  }

  lemma {:induction false} MarkAddsNothing(m: map<string, Input>, uuids: seq<string>, result: bool)
    ensures Mark(m, uuids, result).0.Keys == m.Keys
  {
    if uuids != [] {
      MarkAddsNothing(m, uuids[..|uuids| - 1], result);
    }
  }

  /**
   * In every run an input is applied if and only if some message of the session named it after it was submitted, and
   * completed if and only if a result did.
   */
  lemma {:induction false} InputsAreMarkedByMessages(actions: seq<Action>, uuid: string)
    requires Reachable(actions) && uuid in Run(actions).submitted
    ensures Run(actions).submitted[uuid].applied <==> EverApplied(actions, uuid)
    ensures Run(actions).submitted[uuid].completed <==> EverCompleted(actions, uuid)
  {
    var front, last := actions[..|actions| - 1], actions[|actions| - 1];
    var s := Run(front);
    EverSplits(actions, uuid);
    if uuid in s.submitted {
      InputsAreMarkedByMessages(front, uuid);
      StepMarks(s, last, uuid);
    } else {
      NewIsUnmarked(s, last, uuid);
      UnsubmittedIsUnmarked(front, uuid);
    }
  }

  /** No id is receipted twice, and an id is receipted if and only if a message of the session named its input. */
  lemma ReceiptsAreEarned(actions: seq<Action>, id: string)
    requires Reachable(actions)
    ensures Distinct(AppliedIds(Run(actions).events))
    ensures id in AppliedIds(Run(actions).events) <==>
      exists uuid :: uuid in Run(actions).submitted && Run(actions).submitted[uuid].id == Some(id)
                     && EverApplied(actions, uuid)
  {
    RunKeeps(actions);
    var s := Run(actions);
    if id in AppliedIds(s.events) {
      var u :| u in s.submitted && Bears(s.submitted, u, id);
      InputsAreMarkedByMessages(actions, u);
    }
    if uuid :| uuid in s.submitted && s.submitted[uuid].id == Some(id) && EverApplied(actions, uuid) {
      InputsAreMarkedByMessages(actions, uuid);
    }
  }

  lemma {:induction false} EndedStays(actions: seq<Action>, k: nat)
    requires k <= |actions| && Run(actions[..k]).ended
    ensures Run(actions).ended && Run(actions).enqueued == Run(actions[..k]).enqueued
  {
    if k == |actions| {
      assert actions[..k] == actions;
    } else {
      assert actions[..|actions| - 1][..k] == actions[..k];
      EndedStays(actions[..|actions| - 1], k);
    }
  }

  /** Once a result has closed the ledger, each of its inputs was named by a result, and later ones are refused. */
  lemma ClosingIsFinal(actions: seq<Action>, k: nat, e: Event, value: Value, uuid: string)
    requires k <= |actions| && Reachable(actions[..k]) && e in Run(actions[..k]).events && e.Closed?
    ensures
      var submitted := Run(actions[..k]).submitted;
      forall u <- submitted :: submitted[u].applied && submitted[u].completed && EverCompleted(actions[..k], u)
    ensures Run(actions[..k]).submitted != map[] && Run(actions).enqueued == Run(actions[..k]).enqueued
    ensures Submit(Run(actions), value, uuid).1 == if WellFormed(value) then Emitted([Rejected(value.id)]) else Threw
  {
    RunKeeps(actions[..k]);
    EndedStays(actions, k);
    forall u | u in Run(actions[..k]).submitted ensures EverCompleted(actions[..k], u) {
      InputsAreMarkedByMessages(actions[..k], u);
    }
  }

  /**
   * A result of the session that names one of its inputs is accepted, and closes the ledger, telling so before any
   * receipt, if and only if by then every input was named by a result. No other message closes it.
   */
  lemma ResultsCloseExactlyWhenAllAreAnswered(actions: seq<Action>, message: Native)
    requires Reachable(actions + [DoConsume(message)])
    ensures
      var s, all := Run(actions), actions + [DoConsume(message)];
      var outcome := Consume(s, message).1;
      var attributed := Heard(s, DoConsume(message)) && exists u :: u in message.uuids && u in s.submitted;
      var answered := forall u :: u in s.submitted ==> EverCompleted(all, u);
      && (outcome.Emitted? && outcome.events != [] && outcome.events[0] == Closed(s.session) <==>
            message.kind.Result? && attributed && answered)
      && (message.kind.Result? && attributed ==> outcome.Emitted?)
      && (outcome.Emitted? ==> forall e :: e in outcome.events ==> e.Applied? || e == Closed(s.session))
  {
    var s, all := Run(actions), actions + [DoConsume(message)];
    assert all[..|actions|] == actions;
    var (marked, receipts) := Mark(s.submitted, message.uuids, message.kind.Result?);
    MarkGrows(s.submitted, message.uuids, message.kind.Result?);
    MarkAddsNothing(s.submitted, message.uuids, message.kind.Result?);
    if Heard(s, DoConsume(message)) && message.kind.Result? && NamesOne(s.submitted, message.uuids) {
      assert Run(all).submitted == marked;
      forall u | u in s.submitted ensures marked[u].completed <==> EverCompleted(all, u) {
        InputsAreMarkedByMessages(all, u);
      }
    }
    assert receipts != [] ==> receipts[0] in receipts;
    assert forall e :: e in [Closed(s.session)] + receipts ==> e == Closed(s.session) || e in receipts;
  }

  // ----- which submissions get in -----

  predicate Announced(events: seq<Event>) {
    exists e :: e in events && e.Ready?
  }

  predicate ToldClosed(events: seq<Event>) {
    exists e :: e in events && e.Closed?
  }

  predicate Uses(m: map<string, Input>, id: string) {
    exists u :: u in m && m[u].id == Some(id)
  }

  /** The ledger's fields are what its history says. */
  predicate Historic(actions: seq<Action>, id: string) {
    var s := Run(actions);
    && (s.session != "" <==> Announced(s.events))
    && (s.ended <==> DoClose in actions || ToldClosed(s.events))
    && (id in s.ids <==> Uses(s.submitted, id))
  }

  lemma EventsJoin(a: seq<Event>, b: seq<Event>)
    ensures Announced(a + b) <==> Announced(a) || Announced(b)
    ensures ToldClosed(a + b) <==> ToldClosed(a) || ToldClosed(b)
  {
    assert forall e :: e in a + b <==> e in a || e in b;
  }

  lemma {:induction false} HistoryTells(actions: seq<Action>, id: string)
    requires Reachable(actions)
    ensures Historic(actions, id)
  {
    if actions != [] {
      var front, last := actions[..|actions| - 1], actions[|actions| - 1];
      HistoryTells(front, id);
      assert actions == front + [last];
      var more := StepTells(Run(front), last);
      EventsJoin(Run(front).events, more);
      StepUses(Run(front), last, id);
    }
  }

  /** A step's events say whether it named the session or closed the ledger. */
  lemma StepTells(s: State, a: Action) returns (more: seq<Event>)
    ensures Step(s, a).events == s.events + more
    ensures Step(s, a).session != "" <==> s.session != "" || Announced(more)
    ensures Step(s, a).ended <==> s.ended || a.DoClose? || ToldClosed(more)
  {
    match a {
      case DoStart(session) =>
        var named := Begin(s, session).1;
        more := if named.Threw? then [] else named.events;
        assert Ready(session) in [Ready(session)];
      case DoSubmit(value, uuid) =>
        var outcome := Submit(s, value, uuid).1;
        more := if outcome.Threw? then [] else outcome.events;
      case DoConsume(message) =>
        more := ConsumeTells(s, message);
      case _ =>
        more := [];
    }
  }

  lemma ConsumeTells(s: State, message: Native) returns (more: seq<Event>)
    ensures Consume(s, message).0.events == s.events + more && !Announced(more)
    ensures Consume(s, message).0.session == s.session
    ensures Consume(s, message).0.ended <==> s.ended || ToldClosed(more)
  {
    var (s', outcome) := Consume(s, message);
    more := if outcome.Threw? then [] else outcome.events;
    var receipts := Mark(s.submitted, message.uuids, message.kind.Result?).1;
    MarkGrows(s.submitted, message.uuids, message.kind.Result?);
    var told := [Closed(s.session)];
    EventsJoin(told, receipts);
    assert told[0] in told && ToldClosed(told) && !Announced(told);
    forall e | e in receipts ensures !e.Ready? && !e.Closed? {
      assert e.Applied?;
    }
  }

  lemma StepUses(s: State, a: Action, id: string)
    requires Enabled(s, a) && (id in s.ids <==> Uses(s.submitted, id))
    ensures id in Step(s, a).ids <==> Uses(Step(s, a).submitted, id)
  {
    var s' := Step(s, a);
    if a.DoConsume? {
      MarkAddsNothing(s.submitted, a.message.uuids, a.message.kind.Result?);
      forall u | u in s.submitted ensures u in s'.submitted && s'.submitted[u].id == s.submitted[u].id {
        MarkMeans(s.submitted, a.message.uuids, a.message.kind.Result?, u);
      }
    } else if a.DoSubmit? || a.DoRelease? {
      assert forall u :: u in s.submitted ==> u in s'.submitted && s'.submitted[u] == s.submitted[u];
      assert a.uuid in s'.submitted || s'.submitted == s.submitted;
    }
  }

  /**
   * In every run a well-formed input is taken, and queued behind all others, if and only if the session was announced,
   * nobody closed the ledger, fewer than 64 inputs were taken and none of them had its id; otherwise it is rejected.
   */
  lemma SubmissionsGetInExactlyWhenOpen(actions: seq<Action>, value: Value, uuid: string)
    requires Reachable(actions) && WellFormed(value)
    ensures
      var s := Run(actions);
      var (s', outcome) := Submit(s, value, uuid);
      var open := Announced(s.events) && DoClose !in actions && !ToldClosed(s.events)
                  && |s.enqueued| < 64 && !Uses(s.submitted, value.id);
      && (open ==> outcome == Emitted([]) && s'.enqueued == s.enqueued + [Message(uuid, s.session, value.text)])
      && (!open ==> outcome == Emitted([Rejected(value.id)]) && s'.enqueued == s.enqueued)
  {
    var s := Run(actions);
    HistoryTells(actions, value.id);
    RunKeeps(actions);
    ElementsSize(Uuids(s.enqueued));
    assert s.submitted.Keys == Elements(Uuids(s.enqueued));
  }

  // ----- the object -----

  class Ledger {
    var submitted: map<string, Input>
    var ids: set<string>
    var queue: seq<Message>
    var ended: bool
    var session: string
    ghost var enqueued: seq<Message>
    ghost var yielded: seq<Message>
    ghost var events: seq<Event>

    constructor ()
      ensures Value() == START
    {
      submitted, ids, queue, ended, session := map[], {}, [], false, "";
      enqueued, yielded, events := [], [], [];
    }

    ghost function Value(): State
      reads this
    {
      State(submitted, ids, queue, ended, session, enqueued, yielded, events)
    }

    method Push(text: string, id: Option<string>, uuid: string)
      modifies this
      ensures Value() == Enqueue(old(Value()), text, id, uuid)
    {
      var message := Message(uuid, session, text);
      submitted := submitted[uuid := Input(id, false, false)];
      if id.Some? {
        ids := ids + {id.value};
      }
      queue, enqueued := queue + [message], enqueued + [message];
    }

    method ReleaseInput(prompt: string, uuid: string) returns (outcome: Outcome)
      modifies this
      ensures (Value(), outcome) == Release(old(Value()), prompt, uuid)
    {
      if ended || submitted != map[] || Blank(prompt) {
        return Threw;
      }
      Push(prompt, None, uuid);
      return Emitted([]);
    }

    method Start(id: string) returns (outcome: Outcome)
      modifies this
      ensures (Value(), outcome) == Begin(old(Value()), id)
    {
      if ended || id == "" || (session != "" && session != id) {
        return Threw;
      }
      if session != "" {
        return Emitted([]);
      }
      session, events := id, events + [Ready(id)];
      return Emitted([Ready(id)]);
    }

    method SubmitInput(value: Value, uuid: string) returns (outcome: Outcome)
      modifies this
      ensures (Value(), outcome) == Submit(old(Value()), value, uuid)
    {
      if !WellFormed(value) {
        return Threw;
      }
      if ended || session == "" || |submitted| >= MAX_INPUTS || value.id in ids {
        events := events + [Rejected(value.id)];
        return Emitted([Rejected(value.id)]);
      }
      Push(value.text, Some(value.id), uuid);
      return Emitted([]);
    }

    /** Marks the named inputs one after another. */
    method MarkInputs(uuids: seq<string>, result: bool) returns (receipts: seq<Event>)
      modifies this`submitted
      ensures (submitted, receipts) == Mark(old(submitted), uuids, result)
    {
      receipts := [];
      var k := 0;
      while k < |uuids|
        invariant 0 <= k <= |uuids|
        invariant (submitted, receipts) == Mark(old(submitted), uuids[..k], result)
      {
        assert uuids[..k + 1][..k] == uuids[..k] && receipts + [] == receipts;
        if uuids[k] in submitted {
          var input := submitted[uuids[k]];
          if !input.applied && input.id.Some? {
            receipts := receipts + [Applied(input.id.value)];
          }
          submitted := submitted[uuids[k] := Input(input.id, true, input.completed || result)];
        }
        k := k + 1;
      }
      assert uuids[..k] == uuids;
    }

    method ConsumeMessage(message: Native) returns (outcome: Outcome)
      modifies this
      ensures (Value(), outcome) == Consume(old(Value()), message)
    {
      if !Relevant(message) {
        return Emitted([]);
      }
      if message.session != session || session == "" {
        return Threw;
      }
      if message.kind.Result? && !NamesOne(submitted, message.uuids) {
        return Threw;
      }
      var receipts := MarkInputs(message.uuids, message.kind.Result?);
      if message.kind.Result? && AllCompleted(submitted) {
        ended := true;
        receipts := [Closed(session)] + receipts;
      }
      events := events + receipts;
      return Emitted(receipts);
    }

    method CloseInputs()
      modifies this
      ensures Value() == Close(old(Value()))
    {
      ended := true;
    }

    /** One turn of the iterator: the next message, the end, or a wait. */
    method Next() returns (message: Option<Message>, done: bool)
      modifies this
      ensures Value() == Yield(old(Value()))
      ensures message == (if old(queue) == [] then None else Some(old(queue)[0]))
      ensures done <==> old(queue) == [] && ended
    {
      if queue != [] {
        message, done := Some(queue[0]), false;
        queue, yielded := queue[1..], yielded + [queue[0]];
      } else {
        message, done := None, ended;
      }
    }
  }
}
