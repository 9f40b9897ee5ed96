/** The function bridge: a host result is confirmed once, when the native session shows it took that very result. */
module FunctionBridge {
  import opened Basics

  datatype FunctionResult = FunctionResult(call: string, delivery: string, success: bool, texts: seq<string>)

  /** What the native session shows for a result: a list of text parts, one text, or anything else. */
  datatype Content = Parts(texts: seq<string>) | Joined(text: string) | Unknown

  datatype Block = Block(id: string, isError: bool, content: Content)

  datatype Event = Called(call: string) | Applied(call: string, delivery: string)

  /** A submitted line that is not a function result, or one that is. */
  datatype Line = Malformed | Wellformed(result: FunctionResult)

  /** One confirmation: the native block and the host result it was matched with. */
  datatype Match = Match(block: Block, result: FunctionResult)

  /** A confirmation on its way out: not yet emitted, or emitted with the call not yet taken off. */
  datatype Applying = Idle | Offered(pair: Match) | Emitted(pair: Match)

  /** Pending holds a call's submitted result, once there is one. Accepted and matches are the history. */
  datatype State = State(
    pending: map<string, Option<FunctionResult>>, seen: set<string>, applying: Applying,
    accepted: seq<FunctionResult>, matches: seq<Match>, events: seq<Event>)

  const START := State(map[], {}, Idle, [], [], [])

  function Join(texts: seq<string>): string {
    if texts == [] then "" else if |texts| == 1 then texts[0] else texts[0] + "\n" + Join(texts[1..])
  }

  /** Results arrive as parts, errors as one text. */
  predicate SameContent(block: Block, result: FunctionResult) {
    && block.isError == !result.success
    && block.content == if result.success then Parts(result.texts) else Joined(Join(result.texts))
  }

  predicate Agrees(block: Block, result: FunctionResult) {
    block.id == result.call && SameContent(block, result)
  }

  // ----- the steps -----

  function Invoke(s: State, id: string, aborted: bool): (State, bool) {
    if aborted || id in s.seen then (s, false)
    else (s.(seen := s.seen + {id}, pending := s.pending[id := None], events := s.events + [Called(id)]), true)
  }

  function Abort(s: State, id: string): State {
    s.(pending := s.pending - {id})
  }

  predicate WellFormed(line: Line) {
    line.Wellformed? && line.result.call != "" && line.result.delivery != ""
  }

  function Submit(s: State, line: Line): (State, bool) {
    if !WellFormed(line) || line.result.call !in s.pending || s.pending[line.result.call].Some? then (s, false)
    else (s.(pending := s.pending[line.result.call := Some(line.result)], accepted := s.accepted + [line.result]), true)
  }

  /** The native session shows a result: a confirmation is offered, or the message fails. */
  function Show(s: State, block: Block): (State, bool) {
    if block.id !in s.pending then (s, true)
    else
      var result := s.pending[block.id];
      if result.None? || !SameContent(block, result.value) then (s, false)
      else (s.(applying := Offered(Match(block, result.value))), true)
  }

  function Emit(s: State): State {
    if !s.applying.Offered? then s
    else
      var m := s.applying.pair;
      s.(applying := Emitted(m), matches := s.matches + [m],
         events := s.events + [Applied(m.result.call, m.result.delivery)])
  }

  /** The emission failed: nothing went out, and the call stays pending with its result. */
  function Fail(s: State): State {
    if s.applying.Offered? then s.(applying := Idle) else s
  }

  function Settle(s: State): State {
    if s.applying.Emitted? then s.(pending := s.pending - {s.applying.pair.result.call}, applying := Idle) else s
  }

  function Close(s: State): State {
    s.(pending := map[])
  }

  datatype Action =
    | DoInvoke(id: string, aborted: bool)
    | DoAbort(id: string)
    | DoSubmit(line: Line)
    | DoShow(block: Block)
    | DoEmit
    | DoFail
    | DoSettle
    | DoClose

  /** One message is consumed at a time; calls, results, aborts and closing may come while a confirmation is emitted. */
  function Step(s: State, a: Action): State {
    match a
    case DoInvoke(id, aborted) => Invoke(s, id, aborted).0
    case DoAbort(id) => Abort(s, id)
    case DoSubmit(line) => Submit(s, line).0
    case DoShow(block) => if s.applying.Idle? then Show(s, block).0 else s
    case DoEmit => Emit(s)
    case DoFail => Fail(s)
    case DoSettle => Settle(s)
    case DoClose => Close(s)
  }

  function Run(actions: seq<Action>): State {
    if actions == [] then START else Step(Run(actions[..|actions| - 1]), actions[|actions| - 1])
  }

  // ----- what every step keeps -----

  /** Each submitted result was accepted, for a call that was made. */
  predicate Known(s: State) {
    && s.pending.Keys <= s.seen
    && (forall id :: id in s.pending && s.pending[id].Some? ==>
          s.pending[id].value in s.accepted && s.pending[id].value.call == id)
    && (forall r :: r in s.accepted ==> r.call in s.seen)
  }

  predicate MatchOk(s: State, m: Match) {
    Agrees(m.block, m.result) && m.result in s.accepted
  }

  /** A confirmed call is no longer pending, unless its confirmation was just emitted; an offered one is new. */
  predicate Confirmed(s: State) {
    && (forall k :: 0 <= k < |s.matches| ==>
          && MatchOk(s, s.matches[k])
          && (s.matches[k].result.call in s.pending ==>
                s.applying.Emitted? && s.applying.pair.result.call == s.matches[k].result.call))
    && (forall i, j :: 0 <= i < j < |s.matches| ==> s.matches[i].result.call != s.matches[j].result.call)
    && (s.applying.Offered? ==>
          && MatchOk(s, s.applying.pair)
          && forall k :: 0 <= k < |s.matches| ==> s.matches[k].result.call != s.applying.pair.result.call)
  }

  function Applications(events: seq<Event>): seq<Event> {
    if events == [] then []
    else Applications(events[..|events| - 1]) + (if events[|events| - 1].Applied? then [events[|events| - 1]] else [])
  }

  /** The confirmations emitted are those matched, in order. */
  predicate Logged(s: State) {
    Applications(s.events) == seq(|s.matches|, k requires 0 <= k < |s.matches| =>
      Applied(s.matches[k].result.call, s.matches[k].result.delivery))
  }

  /** No call is given two results. */
  predicate OneResultEach(s: State) {
    && (forall i, j :: 0 <= i < j < |s.accepted| ==> s.accepted[i].call != s.accepted[j].call)
    && (forall id :: id in s.pending && s.pending[id].None? ==> forall r :: r in s.accepted ==> r.call != id)
  }

  predicate Inv(s: State) {
    Known(s) && Confirmed(s) && Logged(s) && OneResultEach(s)
  }

  lemma ApplicationsSnoc(events: seq<Event>, e: Event)
    ensures Applications(events + [e]) == Applications(events) + (if e.Applied? then [e] else [])
  {
    assert (events + [e])[..|events|] == events;
  }

  lemma InvokeKeeps(s: State, id: string)
    requires Inv(s) && id !in s.seen
    ensures Inv(Invoke(s, id, false).0)
  {
    ApplicationsSnoc(s.events, Called(id));
    assert forall k :: 0 <= k < |s.matches| ==> s.matches[k].result.call in s.seen;
  }

  lemma SubmitKeeps(s: State, line: Line)
    requires Inv(s) && Submit(s, line).1
    ensures Inv(Submit(s, line).0)
  {
    var s' := Submit(s, line).0;
    assert forall r :: r in s.accepted ==> r in s'.accepted;
  }

  lemma EmitKeeps(s: State)
    requires Inv(s) && s.applying.Offered?
    ensures Inv(Emit(s))
  {
    var result := s.applying.pair.result;
    ApplicationsSnoc(s.events, Applied(result.call, result.delivery));
  }

  lemma ShowKeeps(s: State, block: Block)
    requires Inv(s) && s.applying.Idle?
    ensures Inv(Show(s, block).0)
  {
  }

  lemma SettleKeeps(s: State)
    requires Inv(s)
    ensures Inv(Settle(s))
  {
  }

  lemma StepKeeps(s: State, a: Action)
    requires Inv(s)
    ensures Inv(Step(s, a))
  {
    match a {
      case DoInvoke(id, aborted) =>
        if !aborted && id !in s.seen {
          InvokeKeeps(s, id);
        }
      case DoAbort(id) =>
      case DoSubmit(line) =>
        if Submit(s, line).1 {
          SubmitKeeps(s, line);
        }
      case DoShow(block) =>
        if s.applying.Idle? {
          ShowKeeps(s, block);
        }
      case DoEmit =>
        if s.applying.Offered? {
          EmitKeeps(s);
        }
      case DoFail =>
      case DoSettle =>
        SettleKeeps(s);
      case DoClose =>
    }
  }

  lemma {:induction false} RunKeeps(actions: seq<Action>)
    ensures Inv(Run(actions))
  {
    if actions != [] {
      RunKeeps(actions[..|actions| - 1]);
      StepKeeps(Run(actions[..|actions| - 1]), actions[|actions| - 1]);
    }
  }

  // ----- over every run -----

  predicate SubmittedBefore(actions: seq<Action>, result: FunctionResult, k: nat) {
    exists i :: 0 <= i < k && i < |actions| && actions[i] == DoSubmit(Wellformed(result))
  }

  lemma {:induction false} AcceptedWereSubmitted(actions: seq<Action>, result: FunctionResult)
    requires result in Run(actions).accepted
    ensures SubmittedBefore(actions, result, |actions|)
  {
    var front, last := actions[..|actions| - 1], actions[|actions| - 1];
    if result in Run(front).accepted {
      AcceptedWereSubmitted(front, result);
      var i :| 0 <= i < |front| && front[i] == DoSubmit(Wellformed(result));
      assert actions[i] == front[i];
    } else {
      assert actions[|actions| - 1] == DoSubmit(Wellformed(result));
    }
  }

  predicate Made(s: State, m: Match) {
    m in s.matches || s.applying == Offered(m)
  }

  /** A match is first made when its block is shown, with a result accepted by then. */
  lemma StepMakes(s: State, a: Action, m: Match)
    requires Known(s) && Made(Step(s, a), m) && !Made(s, m)
    ensures a == DoShow(m.block) && m.result in s.accepted
  {
  }

  predicate ShownAfterSubmission(actions: seq<Action>, m: Match) {
    exists k :: 0 <= k < |actions| && actions[k] == DoShow(m.block) && SubmittedBefore(actions, m.result, k)
  }

  lemma ShownStill(actions: seq<Action>, last: Action, m: Match)
    requires ShownAfterSubmission(actions, m)
    ensures ShownAfterSubmission(actions + [last], m)
  {
    var k :| 0 <= k < |actions| && actions[k] == DoShow(m.block) && SubmittedBefore(actions, m.result, k);
    var i :| 0 <= i < k && actions[i] == DoSubmit(Wellformed(m.result));
    var all := actions + [last];
    assert all[k] == actions[k] && all[i] == actions[i];
  }

  lemma ShownNow(actions: seq<Action>, m: Match)
    requires SubmittedBefore(actions, m.result, |actions|)
    ensures ShownAfterSubmission(actions + [DoShow(m.block)], m)
  {
    var i :| 0 <= i < |actions| && actions[i] == DoSubmit(Wellformed(m.result));
    var all := actions + [DoShow(m.block)];
    assert all[i] == actions[i] && all[|actions|] == DoShow(m.block);
  }

  /** A confirmation follows the native block that showed it, which follows the submission it agrees with. */
  lemma {:induction false} MatchesFollowSubmissions(actions: seq<Action>, m: Match)
    requires Made(Run(actions), m)
    ensures ShownAfterSubmission(actions, m)
  {
    var front, last := actions[..|actions| - 1], actions[|actions| - 1];
    assert actions == front + [last];
    if Made(Run(front), m) {
      MatchesFollowSubmissions(front, m);
      ShownStill(front, last, m);
    } else {
      RunKeeps(front);
      StepMakes(Run(front), last, m);
      AcceptedWereSubmitted(front, m.result);
      ShownNow(front, m);
    }
  }

  /**
   * In every interleaving a call is confirmed at most once, and a confirmation carries the delivery id of a result
   * submitted for that call before the native session showed content agreeing with it.
   */
  lemma ConfirmationsAreTrue(actions: seq<Action>, k: nat)
    requires k < |Applications(Run(actions).events)|
    ensures
      var s := Run(actions);
      var e := Applications(s.events)[k];
      && (forall j :: 0 <= j < |Applications(s.events)| && j != k ==> Applications(s.events)[j].call != e.call)
      && exists m <- s.matches ::
           && e == Applied(m.result.call, m.result.delivery) && Agrees(m.block, m.result)
           && ShownAfterSubmission(actions, m)
  {
    RunKeeps(actions);
    var s := Run(actions);
    var m := s.matches[k];
    assert m in s.matches;
    MatchesFollowSubmissions(actions, m);
  }

  lemma OneStep(actions: seq<Action>, a: Action)
    ensures Run(actions + [a]) == Step(Run(actions), a)
  {
    assert (actions + [a])[..|actions|] == actions;
  }

  /**
   * From every reachable state: a call that was not made before, its result submitted, a block agreeing with it shown
   * and the confirmation emitted, is confirmed with that result's delivery id, and waits no longer. A failed emission
   * in between changes nothing.
   */
  lemma CallsAreConfirmed(actions: seq<Action>, result: FunctionResult, block: Block)
    requires result.call !in Run(actions).seen && Run(actions).applying.Idle?
    requires result.call != "" && result.delivery != "" && Agrees(block, result)
    ensures
      var s := Run(actions);
      var made := Run(actions + [DoInvoke(result.call, false)] + [DoSubmit(Wellformed(result))]);
      var tried := Step(Step(made, DoShow(block)), DoFail);
      var done := Step(Step(Step(tried, DoShow(block)), DoEmit), DoSettle);
      && tried == made
      && done.events == s.events + [Called(result.call), Applied(result.call, result.delivery)]
      && result.call !in done.pending && done.applying.Idle?
  {
    var s, invoke, submit := Run(actions), DoInvoke(result.call, false), DoSubmit(Wellformed(result));
    OneStep(actions, invoke);
    OneStep(actions + [invoke], submit);
    var made := Run(actions + [invoke] + [submit]);
    assert made.events == s.events + [Called(result.call)] && made.applying.Idle?;
    ShownIsConfirmed(made, result, block);
    var e := Applied(result.call, result.delivery);
    assert made.events + [e] == s.events + [Called(result.call), e];
  }

  lemma ShownIsConfirmed(s: State, result: FunctionResult, block: Block)
    requires s.applying.Idle? && result.call in s.pending && s.pending[result.call] == Some(result)
    requires Agrees(block, result)
    ensures
      var shown := Step(s, DoShow(block));
      var done := Step(Step(shown, DoEmit), DoSettle);
      && Step(shown, DoFail) == s
      && done.events == s.events + [Applied(result.call, result.delivery)]
      && result.call !in done.pending && done.applying.Idle?
  {
    assert Step(s, DoShow(block)) == s.(applying := Offered(Match(block, result)));
  }

  // ----- the object -----

  /** Shows the blocks one after another, up to the first that disagrees or whose emission fails. */
  function ShowAll(s: State, blocks: seq<Block>, emits: nat -> bool): (State, bool) {
    if blocks == [] then (s, true)
    else
      var last := |blocks| - 1;
      var (before, ok) := ShowAll(s, blocks[..last], emits);
      if !ok then (before, false)
      else
        var (shown, agreed) := Show(before, blocks[last]);
        if shown.applying.Offered? && !emits(last) then (Fail(shown), false) else (Settle(Emit(shown)), agreed)
  }

  lemma {:induction false} ShowAllStops(s: State, blocks: seq<Block>, emits: nat -> bool, k: nat)
    requires k <= |blocks| && !ShowAll(s, blocks[..k], emits).1
    ensures ShowAll(s, blocks, emits) == ShowAll(s, blocks[..k], emits)
  {
    if k < |blocks| {
      assert blocks[..|blocks| - 1][..k] == blocks[..k];
      ShowAllStops(s, blocks[..|blocks| - 1], emits, k);
    } else {
      assert blocks[..k] == blocks;
    }
  }

  class Bridge {
    var pending: map<string, Option<FunctionResult>>
    var seen: set<string>
    ghost var accepted: seq<FunctionResult>
    ghost var matches: seq<Match>
    /** Everything emitted so far. */
    var events: seq<Event>

    constructor ()
      ensures Value() == START
    {
      pending, seen, accepted, matches, events := map[], {}, [], [], [];
    }

    ghost function Value(): State
      reads this
    {
      State(pending, seen, Idle, accepted, matches, events)
    }

    method InvokeCall(id: string, aborted: bool) returns (ok: bool)
      modifies this
      ensures (Value(), ok) == Invoke(old(Value()), id, aborted)
    {
      if aborted || id in seen {
        return false;
      }
      seen, pending, events := seen + {id}, pending[id := None], events + [Called(id)];
      return true;
    }

    method AbortCall(id: string)
      modifies this
      ensures Value() == Abort(old(Value()), id)
    {
      pending := pending - {id};
    }

    method SubmitLine(line: Line) returns (ok: bool)
      modifies this
      ensures (Value(), ok) == Submit(old(Value()), line)
    {
      if !WellFormed(line) || line.result.call !in pending || pending[line.result.call].Some? {
        return false;
      }
      pending, accepted := pending[line.result.call := Some(line.result)], accepted + [line.result];
      return true;
    }

    /** Whether the emission for a block succeeds is the stream's answer. */
    method ConsumeBlocks(blocks: seq<Block>, emits: nat -> bool) returns (ok: bool)
      modifies this
      ensures (Value(), ok) == ShowAll(old(Value()), blocks, emits)
    {
      var k := 0;
      while k < |blocks|
        invariant 0 <= k <= |blocks|
        invariant (Value(), true) == ShowAll(old(Value()), blocks[..k], emits)
      {
        var block := blocks[k];
        assert blocks[..k + 1][..k] == blocks[..k];
        if block.id in pending {
          var result := pending[block.id];
          if result.None? || !SameContent(block, result.value) || !emits(k) {
            ShowAllStops(old(Value()), blocks, emits, k + 1);
            return false;
          }
          events := events + [Applied(result.value.call, result.value.delivery)];
          matches := matches + [Match(block, result.value)];
          pending := pending - {result.value.call};
        }
        k := k + 1;
      }
      assert blocks[..k] == blocks;
      return true;
    }

    method AssertComplete() returns (ok: bool)
      ensures ok <==> forall id :: id !in pending
    {
      ok := pending == map[];
      assert !ok ==> exists id :: id in pending;
    }

    method CloseBridge()
      modifies this
      ensures Value() == Close(old(Value()))
    {
      pending := map[];
    }
  }
}
