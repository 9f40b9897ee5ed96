/** The gateway's machine, seen by one session, does what the session object's methods do. */
module GatewayViews {
  import opened Basics
  import opened Subscriptions
  import opened SessionViews
  import opened Gateway
  import GatewayPromises

  // ----- two maps seen as one -----

  /** The subscriptions a session's runs lead to. */
  function Reached(runs: map<string, nat>, subs: map<nat, Owned>): map<string, Sub> {
    map run | run in runs && runs[run] in subs :: subs[runs[run]].sub
  }

  /** Every run leads to a subscription of its own. */
  predicate Apart(runs: map<string, nat>, subs: map<nat, Owned>) {
    && (forall run :: run in runs ==> runs[run] in subs)
    && (forall a, b :: a in runs && b in runs && a != b ==> runs[a] != runs[b])
  }

  lemma ReachedDrops(runs: map<string, nat>, subs: map<nat, Owned>, run: string, o: Owned)
    requires Apart(runs, subs) && run in runs
    ensures Reached(runs - {run}, subs[runs[run] := o]) == Reached(runs, subs) - {run}
    ensures Apart(runs - {run}, subs[runs[run] := o])
  {
  }

  lemma ReachedJoins(runs: map<string, nat>, subs: map<nat, Owned>, run: string, id: nat, o: Owned)
    requires Apart(runs, subs) && id !in subs
    ensures Reached(runs[run := id], subs[id := o]) == Reached(runs, subs)[run := o.sub]
  {
  }

  lemma ReachedChanges(runs: map<string, nat>, subs: map<nat, Owned>, run: string, o: Owned)
    requires Apart(runs, subs) && run in runs
    ensures Reached(runs, subs[runs[run] := o]) == Reached(runs, subs)[run := o.sub]
  {
  }

  /** The runs whose entry leads to this session. */
  function Mine(byRun: map<string, nat>, n: nat): set<string> {
    set run | run in byRun && byRun[run] == n
  }

  lemma MineChanges(byRun: map<string, nat>, n: nat, run: string)
    ensures Mine(byRun - {run}, n) == Mine(byRun, n) - {run}
    ensures Mine(byRun[run := n], n) == Mine(byRun, n) + {run}
  {
  }

  // ----- the machine's steps -----

  function Seen(s: State, n: nat): View
    requires n in s.sessions
  {
    View(s.sessions[n].phase.Open?, Reached(s.sessions[n].subs, s.subs), s.index.byRun.Keys, Mine(s.index.byRun, n))
  }

  lemma PlacedApart(s: State, n: nat)
    requires n in s.sessions && Placed(s)
    ensures Apart(s.sessions[n].subs, s.subs)
  {
    var subs := s.sessions[n].subs;
    assert forall run :: run in subs ==> MapOk(s, n, run);
  }

  lemma LeaveIsSeen(s: State, n: nat, run: string, err: Option<Failure>)
    requires n in s.sessions && Apart(s.sessions[n].subs, s.subs) && run in s.sessions[n].subs
    ensures
      var s' := Leave(s, n, run, err);
      && n in s'.sessions && Apart(s'.sessions[n].subs, s'.subs) && s'.subs.Keys == s.subs.Keys
      && Seen(s', n) == Seen(s, n).(subs := Seen(s, n).subs - {run})
  {
    var runs, subs := s.sessions[n].subs, s.subs;
    ReachedDrops(runs, subs, run, Leave(s, n, run, err).subs[runs[run]]);
  }

  lemma JoinIsSeen(s: State, n: nat, run: string, durable: bool, id: nat)
    requires n in s.sessions && Apart(s.sessions[n].subs, s.subs) && id !in s.subs
    ensures n in Join(s, n, run, durable, id).sessions
    ensures
      var v := Seen(s, n);
      Seen(Join(s, n, run, durable, id), n) ==
        v.(subs := v.subs[run := Fresh(run, durable)], runs := v.runs + {run}, mine := v.mine + {run})
  {
    ReachedJoins(s.sessions[n].subs, s.subs, run, id, Join(s, n, run, durable, id).subs[id]);
    MineChanges(s.index.byRun, n, run);
  }

  lemma SubscribeStep(s: State, n: nat, run: string, durable: bool, id: nat)
    requires n in s.sessions && id !in s.subs && Apart(s.sessions[n].subs, s.subs)
    ensures n in DoSubscribe(s, n, run, durable, id).sessions
    ensures Seen(DoSubscribe(s, n, run, durable, id), n) == Subscribed(Seen(s, n), run, durable)
  {
    if run != "" && s.sessions[n].phase.Open? {
      if run in s.sessions[n].subs {
        LeaveIsSeen(s, n, run, Some(SessionClosed));
        JoinIsSeen(Leave(s, n, run, Some(SessionClosed)), n, run, durable, id);
        var held, made := Seen(s, n).subs, Fresh(run, durable);
        assert (held - {run})[run := made] == held[run := made];
      } else {
        JoinIsSeen(s, n, run, durable, id);
      }
    }
  }

  lemma UnsubscribeStep(s: State, n: nat, run: string)
    requires n in s.sessions && Apart(s.sessions[n].subs, s.subs)
    ensures n in DoUnsubscribe(s, n, run).sessions
    ensures Seen(DoUnsubscribe(s, n, run), n) == Dropped(Seen(s, n), run)
  {
    var s', runs, subs := DoUnsubscribe(s, n, run), s.sessions[n].subs, s.subs;
    if run in runs {
      ReachedDrops(runs, subs, run, s'.subs[runs[run]]);
    } else {
      assert Reached(runs, subs) - {run} == Reached(runs, subs);
    }
    MineChanges(s.index.byRun, n, run);
  }

  lemma HandIsSeen(s: State, n: nat, f: Frame)
    requires n in s.sessions && Apart(s.sessions[n].subs, s.subs) && f.run in s.sessions[n].subs
    ensures n in Hand(s, n, f).sessions && Seen(Hand(s, n, f), n) == Dispatched(Seen(s, n), f)
  {
    var s', runs, subs := Hand(s, n, f), s.sessions[n].subs, s.subs;
    var o := s'.subs[runs[f.run]];
    assert o.sub == Offer(Reached(runs, subs)[f.run], f);
    if o.sub.closed {
      ReachedDrops(runs, subs, f.run, o);
      MineChanges(s.index.byRun, n, f.run);
    } else {
      ReachedChanges(runs, subs, f.run, o);
    }
  }

  lemma DispatchStep(s: State, n: nat, f: Frame)
    requires n in s.sessions && Apart(s.sessions[n].subs, s.subs) && "" !in s.sessions[n].subs
    ensures n in DoDispatch(s, n, f).sessions
    ensures Seen(DoDispatch(s, n, f), n) == Dispatched(Seen(s, n), f)
  {
    if f.run != "" {
      NotedIsSeen(s, n, f);
      if f.run in s.sessions[n].subs {
        HandIsSeen(Noted(s, n, f), n, f);
      }
    }
  }

  lemma NotedIsSeen(s: State, n: nat, f: Frame)
    requires n in s.sessions
    ensures
      var s' := Noted(s, n, f);
      n in s'.sessions && s'.subs == s.subs && s'.sessions[n].subs == s.sessions[n].subs && Seen(s', n) == Seen(s, n)
  {
  }

  // ----- in every state a run reaches -----

  /** No session holds a subscription to the empty run. */
  predicate Named(s: State) {
    forall n :: n in s.sessions ==> "" !in s.sessions[n].subs
  }

  lemma StepNamed(s: State, a: Action)
    requires Named(s)
    ensures Named(Step(s, a))
  {
  }

  lemma {:induction false} RunNamed(s: State, actions: seq<Action>)
    requires Named(s)
    ensures Named(Run(s, actions))
    decreases |actions|
  {
    if actions != [] {
      StepNamed(s, actions[0]);
      RunNamed(Step(s, actions[0]), actions[1..]);
    }
  }

  lemma ReachableApart(actions: seq<Action>, n: nat)
    requires n in Run(EMPTY, actions).sessions
    ensures
      var s := Run(EMPTY, actions);
      Apart(s.sessions[n].subs, s.subs) && "" !in s.sessions[n].subs
  {
    GatewayPromises.RunKeeps(EMPTY, actions);
    PlacedApart(Run(EMPTY, actions), n);
    RunNamed(EMPTY, actions);
  }

  /** Subscribing in any reachable state, as the session sees it. */
  lemma SubscribeIsSeen(actions: seq<Action>, n: nat, run: string, durable: bool, id: nat)
    requires n in Run(EMPTY, actions).sessions && id !in Run(EMPTY, actions).subs
    ensures
      var s := Run(EMPTY, actions);
      var s' := Step(s, Subscribe(n, run, durable, id));
      n in s'.sessions && Seen(s', n) == Subscribed(Seen(s, n), run, durable)
  {
    ReachableApart(actions, n);
    SubscribeStep(Run(EMPTY, actions), n, run, durable, id);
  }

  /** Unsubscribing in any reachable state, as the session sees it. */
  lemma UnsubscribeIsSeen(actions: seq<Action>, n: nat, run: string)
    requires n in Run(EMPTY, actions).sessions
    ensures
      var s := Run(EMPTY, actions);
      var s' := Step(s, Unsubscribe(n, run));
      n in s'.sessions && Seen(s', n) == Dropped(Seen(s, n), run)
  {
    ReachableApart(actions, n);
    UnsubscribeStep(Run(EMPTY, actions), n, run);
  }

  /** Dispatching in any reachable state, as the session sees it. */
  lemma DispatchIsSeen(actions: seq<Action>, n: nat, f: Frame)
    requires n in Run(EMPTY, actions).sessions
    ensures
      var s := Run(EMPTY, actions);
      var s' := Step(s, Dispatch(n, f));
      n in s'.sessions && Seen(s', n) == Dispatched(Seen(s, n), f)
  {
    ReachableApart(actions, n);
    DispatchStep(Run(EMPTY, actions), n, f);
  }
}
