/** When a frame reaches its reader: exactly while the reader's channel has room, 256 frames or 32. */
module GatewayDelivery {
  import opened Basics
  import opened Subscriptions
  import opened Gateway
  import GatewayPromises

  /** The frame is for the subscription that is current for its run. */
  predicate Reaches(s: State, a: Action, id: nat) {
    && a.Dispatch? && a.session in s.sessions && a.frame.run != ""
    && a.frame.run in s.sessions[a.session].subs && s.sessions[a.session].subs[a.frame.run] == id
  }

  /** So many frames wait for the reader that the channel takes no more. */
  predicate Full(sub: Sub) {
    if sub.durable then |sub.buffer| >= 256 else |sub.buffer| >= 32
  }

  /** What a dispatched frame does to its subscription. */
  predicate Handled(sub: Sub, after: Sub, f: Frame) {
    && after.offered == sub.offered + [f]
    && (!Full(sub) ==>
          && after.delivered == sub.delivered + [f] && after.buffer == sub.buffer + [f]
          && (after.closed <==> f.kind.Done?) && after.err == None)
    && (Full(sub) ==> after.delivered == sub.delivered && after.buffer == sub.buffer)
    && (Full(sub) && sub.durable ==> after.closed && after.err == Some(SubscriberOverflow))
    && (Full(sub) && !sub.durable ==> (after.closed <==> f.kind.Done?) && after.err == None)
  }

  lemma ReachedIsHandled(s: State, n: nat, f: Frame, id: nat)
    requires Placed(s) && Reaches(s, Dispatch(n, f), id) && id in s.subs && SubInv(s.subs[id].sub)
    ensures
      var s' := DoDispatch(s, n, f);
      id in s'.subs && Handled(s.subs[id].sub, s'.subs[id].sub, f)
  {
    assert MapOk(s, n, f.run);
    assert PlaceOk(s, id);
  }

  lemma ReachedIsCurrent(s: State, n: nat, f: Frame, id: nat)
    requires Placed(s) && Sound(s) && Reaches(s, Dispatch(n, f), id)
    ensures id in s.subs && SubInv(s.subs[id].sub)
  {
    assert MapOk(s, n, f.run);
  }

  lemma OthersAreLeft(s: State, a: Action, id: nat)
    requires id in s.subs && !Reaches(s, a, id)
    ensures
      var s' := Step(s, a);
      && id in s'.subs && s'.subs[id].sub.durable == s.subs[id].sub.durable
      && s'.subs[id].sub.offered == s.subs[id].sub.offered && s'.subs[id].sub.delivered == s.subs[id].sub.delivered
  {
    match a {
      case Subscribe(n, run, durable, k) => SubscribeLeaves(s, n, run, durable, k, id);
      case Dispatch(n, f) => DispatchLeaves(s, n, f, id);
      case SwapOut(n) =>
      case DrainOne(k, reason) => DrainLeaves(s, k, reason, id);
      case _ =>
    }
  }

  lemma SubscribeLeaves(s: State, n: nat, run: string, durable: bool, k: nat, id: nat)
    requires id in s.subs
    ensures
      var s' := DoSubscribe(s, n, run, durable, k);
      && id in s'.subs && s'.subs[id].sub.durable == s.subs[id].sub.durable
      && s'.subs[id].sub.offered == s.subs[id].sub.offered && s'.subs[id].sub.delivered == s.subs[id].sub.delivered
  {
  }

  lemma DispatchLeaves(s: State, n: nat, f: Frame, id: nat)
    requires id in s.subs && !Reaches(s, Dispatch(n, f), id)
    ensures id in DoDispatch(s, n, f).subs && DoDispatch(s, n, f).subs[id] == s.subs[id]
  {
  }

  lemma DrainLeaves(s: State, k: nat, reason: nat, id: nat)
    requires id in s.subs
    ensures
      var s' := DoDrain(s, k, reason);
      && id in s'.subs && s'.subs[id].sub.durable == s.subs[id].sub.durable
      && s'.subs[id].sub.offered == s.subs[id].sub.offered && s'.subs[id].sub.delivered == s.subs[id].sub.delivered
  {
  }

  /** One more frame in the channel if fewer than 32 wait in it. */
  predicate Told(sub: Sub, after: Sub, kind: Kind, body: nat) {
    !after.closed && after.buffer == sub.buffer + if |sub.buffer| < 32 then [Frame(sub.run, kind, body)] else []
  }

  /** What closing tells a best-effort reader, the error before the done, as long as there is room. */
  lemma ClosingFramesEnter(s: State, id: nat, reason: nat)
    requires Placed(s) && id in s.subs && s.subs[id].place.Draining? && !s.subs[id].sub.durable
    ensures
      var o, o' := s.subs[id], DoDrain(s, id, reason).subs[id];
      && (o.place.stage.SendError? ==> o'.place == Draining(SendDone) && Told(o.sub, o'.sub, Error, reason))
      && (o.place.stage.SendDone? ==> o'.place == Draining(CloseChannel) && Told(o.sub, o'.sub, Done, 0))
      && (o.place.stage.CloseChannel? ==> o'.sub.closed && o'.sub.err == Some(SessionClosed))
  {
    assert PlaceOk(s, id);
  }

  /** A subscription starts with nothing dispatched to it. */
  lemma NewcomersAreEmpty(s: State, a: Action, id: nat)
    requires id !in s.subs && id in Step(s, a).subs
    ensures Step(s, a).subs[id].sub.offered == Step(s, a).subs[id].sub.delivered == []
  {
  }

  /** The session holds this subscription for the run, and lookups of the run find the session. */
  predicate Attached(s: State, n: nat, run: string, id: nat) {
    && n in s.sessions && run in s.sessions[n].subs && s.sessions[n].subs[run] == id && id in s.subs
    && run in s.index.byRun && s.index.byRun[run] == n
  }

  /**
   * While it is open a session subscribes to any named run, replacing and ending the former subscription; lookups of
   * the run then find it, and every frame of the run reaches the new subscription.
   */
  lemma SubscribersAreAttached(actions: seq<Action>, n: nat, run: string, durable: bool, id: nat, f: Frame)
    requires
      var s := Run(EMPTY, actions);
      n in s.sessions && s.sessions[n].phase.Open? && run != "" && id !in s.subs && f.run == run
    ensures
      var s := Run(EMPTY, actions);
      var s' := Step(s, Subscribe(n, run, durable, id));
      && Attached(s', n, run, id) && Reaches(s', Dispatch(n, f), id)
      && s'.subs[id].sub.durable == durable && s'.subs[id].sub.buffer == [] && !s'.subs[id].sub.closed
      && (run in s.sessions[n].subs ==>
            var former := s.sessions[n].subs[run];
            && former in s.subs && former in s'.subs
            && s'.subs[former].sub.closed && s'.subs[former].sub.err == Some(SessionClosed)
            && s'.subs[former].sub.buffer == s.subs[former].sub.buffer)
  {
    var s := Run(EMPTY, actions);
    assert Placed(s) by {
      GatewayPromises.RunKeeps(EMPTY, actions);
    }
    if run in s.sessions[n].subs {
      assert MapOk(s, n, run);
      assert PlaceOk(s, s.sessions[n].subs[run]);
    }
  }

  /** Unsubscribing ends the subscription without an error and leaves no entry for the run. */
  lemma UnsubscribersAreDetached(actions: seq<Action>, n: nat, run: string)
    requires n in Run(EMPTY, actions).sessions && run in Run(EMPTY, actions).sessions[n].subs
    ensures
      var s := Run(EMPTY, actions);
      var s', id := Step(s, Unsubscribe(n, run)), s.sessions[n].subs[run];
      && id in s.subs && id in s'.subs && s'.subs[id].sub == s.subs[id].sub.(closed := true, err := None)
      && run !in s'.sessions[n].subs && run !in s'.index.byRun
  {
    var s := Run(EMPTY, actions);
    assert Placed(s) && Sound(s) by {
      GatewayPromises.RunKeeps(EMPTY, actions);
    }
    assert MapOk(s, n, run);
    assert PlaceOk(s, s.sessions[n].subs[run]);
  }

  // ----- over every run -----

  lemma {:induction false} RunSnoc(s: State, actions: seq<Action>, a: Action)
    ensures Run(s, actions + [a]) == Step(Run(s, actions), a)
    decreases |actions|
  {
    if actions == [] {
      assert [a][1..] == [];
    } else {
      assert (actions + [a])[1..] == actions[1..] + [a];
      RunSnoc(Step(s, actions[0]), actions[1..], a);
    }
  }

  lemma LastStep(actions: seq<Action>)
    requires actions != []
    ensures Run(EMPTY, actions) == Step(Run(EMPTY, actions[..|actions| - 1]), actions[|actions| - 1])
  {
    RunSnoc(EMPTY, actions[..|actions| - 1], actions[|actions| - 1]);
    assert actions[..|actions| - 1] + [actions[|actions| - 1]] == actions;
  }

  /** The k-th action dispatched a frame to the subscription when its channel was full. */
  predicate FullAt(actions: seq<Action>, k: nat, id: nat)
    requires k < |actions|
  {
    var s := Run(EMPTY, actions[..k]);
    id in s.subs && Reaches(s, actions[k], id) && Full(s.subs[id].sub)
  }

  predicate EverFull(actions: seq<Action>, id: nat) {
    exists k :: 0 <= k < |actions| && FullAt(actions, k, id)
  }

  lemma {:induction false} SubsStay(actions: seq<Action>, k: nat, id: nat)
    requires k <= |actions| && id in Run(EMPTY, actions[..k]).subs
    ensures id in Run(EMPTY, actions).subs
    decreases |actions|
  {
    if k == |actions| {
      assert actions[..k] == actions;
    } else {
      var front, last := actions[..|actions| - 1], actions[|actions| - 1];
      assert front[..k] == actions[..k];
      SubsStay(front, k, id);
      LastStep(actions);
      SubStays(Run(EMPTY, front), last, id);
    }
  }

  lemma SubStays(s: State, a: Action, id: nat)
    requires id in s.subs
    ensures id in Step(s, a).subs
  {
    if !Reaches(s, a, id) {
      OthersAreLeft(s, a, id);
    }
  }

  /** Being full earlier, or at the last action. */
  lemma EverFullSplits(actions: seq<Action>, id: nat)
    requires actions != []
    ensures EverFull(actions, id) <==>
      EverFull(actions[..|actions| - 1], id) || FullAt(actions, |actions| - 1, id)
  {
    var front := actions[..|actions| - 1];
    assert forall k :: 0 <= k < |front| ==> front[..k] == actions[..k] && front[k] == actions[k];
    assert forall k :: 0 <= k < |front| ==> (FullAt(front, k, id) <==> FullAt(actions, k, id));
  }

  lemma NotYetFull(actions: seq<Action>, id: nat)
    requires id !in Run(EMPTY, actions).subs
    ensures !EverFull(actions, id)
  {
    if EverFull(actions, id) {
      var k :| 0 <= k < |actions| && FullAt(actions, k, id);
      SubsStay(actions, k, id);
    }
  }

  predicate Missed(sub: Sub) {
    |sub.delivered| < |sub.offered|
  }

  /** A frame dispatched to a subscription is missing exactly when one found the channel full. */
  lemma {:induction false} MissedExactlyWhenFull(actions: seq<Action>, id: nat)
    requires id in Run(EMPTY, actions).subs
    ensures
      var sub := Run(EMPTY, actions).subs[id].sub;
      |sub.delivered| <= |sub.offered| && (Missed(sub) <==> EverFull(actions, id))
  {
    var front, last := actions[..|actions| - 1], actions[|actions| - 1];
    var s := Run(EMPTY, front);
    LastStep(actions);
    EverFullSplits(actions, id);
    if id in s.subs {
      MissedExactlyWhenFull(front, id);
      LastMisses(actions, id);
    } else {
      NewcomersAreEmpty(s, last, id);
      NotYetFull(front, id);
    }
  }

  lemma LastMisses(actions: seq<Action>, id: nat)
    requires actions != []
    requires
      var s := Run(EMPTY, actions[..|actions| - 1]);
      id in s.subs && |s.subs[id].sub.delivered| <= |s.subs[id].sub.offered|
    ensures
      var s, s' := Run(EMPTY, actions[..|actions| - 1]), Run(EMPTY, actions);
      && id in s'.subs
      && |s'.subs[id].sub.delivered| <= |s'.subs[id].sub.offered|
      && (Missed(s'.subs[id].sub) <==> Missed(s.subs[id].sub) || FullAt(actions, |actions| - 1, id))
  {
    var front, last := actions[..|actions| - 1], actions[|actions| - 1];
    var s := Run(EMPTY, front);
    LastStep(actions);
    GatewayPromises.RunKeeps(EMPTY, front);
    if Reaches(s, last, id) {
      ReachedIsHandled(s, last.session, last.frame, id);
    } else {
      OthersAreLeft(s, last, id);
    }
  }

  lemma {:induction false} SelectionOfAll(a: seq<Frame>, b: seq<Frame>)
    requires Subsequence(a, b) && |a| >= |b|
    ensures a == b
    decreases |b|
  {
    if a != [] {
      var a', b' := a[..|a| - 1], b[..|b| - 1];
      if a[|a| - 1] == b[|b| - 1] && Subsequence(a', b') {
        SelectionOfAll(a', b');
        assert a == a' + [a[|a| - 1]] && b == b' + [b[|b| - 1]];
      } else {
        SelectionOfAll(a, b');
      }
    }
  }

  lemma DeliveredIsOffered(sub: Sub)
    requires SubInv(sub) && |sub.delivered| <= |sub.offered|
    ensures Missed(sub) <==> sub.delivered != sub.offered
  {
    if !sub.durable && !Missed(sub) {
      SelectionOfAll(sub.delivered, sub.offered);
    }
  }

  /**
   * In every run a dispatched frame enters its reader's channel exactly when fewer than 256, or 32, frames wait in
   * it; one that does not ends a durable subscription with an overflow and is dropped from a best-effort one.
   */
  lemma DispatchedFramesEnter(actions: seq<Action>, n: nat, f: Frame, id: nat)
    requires Reaches(Run(EMPTY, actions), Dispatch(n, f), id)
    ensures
      var s := Run(EMPTY, actions);
      var s' := Step(s, Dispatch(n, f));
      id in s.subs && id in s'.subs && Handled(s.subs[id].sub, s'.subs[id].sub, f)
  {
    var s := Run(EMPTY, actions);
    assert Placed(s) && Sound(s) by {
      GatewayPromises.RunKeeps(EMPTY, actions);
    }
    ReachedIsCurrent(s, n, f, id);
    ReachedIsHandled(s, n, f, id);
  }

  /** A reader of either kind is given its whole share exactly when no frame for it ever found the channel full. */
  lemma ReadersMissNothingWithRoom(actions: seq<Action>, id: nat)
    requires id in Run(EMPTY, actions).subs
    ensures
      var s := Run(EMPTY, actions);
      var sub := s.subs[id].sub;
      && s.subs[id].session in s.sessions
      && sub.taken + sub.buffer == sub.delivered + sub.synthetic
      && (sub.delivered == Share(s, id) <==> !EverFull(actions, id))
      && (sub.durable ==> (sub.err == Some(SubscriberOverflow) <==> EverFull(actions, id)))
  {
    var s := Run(EMPTY, actions);
    var sub := s.subs[id].sub;
    GatewayPromises.RunKeeps(EMPTY, actions);
    assert ShareOk(s, id) && SubInv(sub);
    MissedExactlyWhenFull(actions, id);
    DeliveredIsOffered(sub);
  }

  // ----- which session a device is found at -----

  /** The session that connected last for a device. */
  function Latest(actions: seq<Action>, device: string): Option<nat> {
    if actions == [] then None
    else
      var front, last := actions[..|actions| - 1], actions[|actions| - 1];
      if last.Connect? && last.device == device != "" && last.session !in Run(EMPTY, front).sessions
      then Some(last.session) else Latest(front, device)
  }

  predicate FoundExactly(actions: seq<Action>, device: string) {
    var s, latest := Run(EMPTY, actions), Latest(actions, device);
    && (latest.Some? ==> latest.value in s.sessions && s.sessions[latest.value].device == device)
    && (device in s.index.byDevice <==> latest.Some? && !s.sessions[latest.value].phase.Finished?)
    && (device in s.index.byDevice ==> s.index.byDevice[device] == latest.value)
  }

  /** The devices' entries are the same, and the session is of the same device and finished or not as before. */
  predicate SameDevices(s: State, s': State, n: nat) {
    && s'.index.byDevice == s.index.byDevice
    && (n in s.sessions ==>
          && n in s'.sessions && s'.sessions[n].device == s.sessions[n].device
          && (s'.sessions[n].phase.Finished? <==> s.sessions[n].phase.Finished?))
  }

  lemma SubscribeKeepsDevices(s: State, m: nat, run: string, durable: bool, id: nat, n: nat)
    ensures SameDevices(s, DoSubscribe(s, m, run, durable, id), n)
  {
  }

  lemma UnsubscribeKeepsDevices(s: State, m: nat, run: string, n: nat)
    ensures SameDevices(s, DoUnsubscribe(s, m, run), n)
  {
  }

  lemma DispatchKeepsDevices(s: State, m: nat, f: Frame, n: nat)
    ensures SameDevices(s, DoDispatch(s, m, f), n)
  {
  }

  lemma DrainKeepsDevices(s: State, id: nat, reason: nat, n: nat)
    ensures SameDevices(s, DoDrain(s, id, reason), n)
  {
  }

  /** Only connecting and the end of closing touch the devices' entries, or finish a session. */
  lemma OthersKeepDevices(s: State, a: Action, n: nat)
    requires !a.Connect? && !a.Deregister?
    ensures SameDevices(s, Step(s, a), n)
  {
    match a {
      case Subscribe(m, run, durable, id) => SubscribeKeepsDevices(s, m, run, durable, id, n);
      case Unsubscribe(m, run) => UnsubscribeKeepsDevices(s, m, run, n);
      case Dispatch(m, f) => DispatchKeepsDevices(s, m, f, n);
      case DrainOne(id, reason) => DrainKeepsDevices(s, id, reason, n);
      case MarkClosed(m) =>
      case SwapOut(m) =>
      case _ =>
        GatewayPromises.ElsewhereSame(s, a);
    }
  }

  lemma DeregisterKeepsDevices(s: State, n: nat, device: string)
    ensures
      var s' := DoDeregister(s, n);
      && (forall m :: m in s.sessions ==> m in s'.sessions && s'.sessions[m].device == s.sessions[m].device)
      && (forall m :: m in s.sessions && m != n ==> s'.sessions[m] == s.sessions[m])
      && (s' != s ==> n in s.sessions && s'.sessions[n].phase.Finished? && s.sessions[n].phase.Closing?)
      && (device in s.index.byDevice && (s' == s || s.index.byDevice[device] != n) ==>
            device in s'.index.byDevice && s'.index.byDevice[device] == s.index.byDevice[device])
      && (device in s'.index.byDevice ==>
            device in s.index.byDevice && s'.index.byDevice[device] == s.index.byDevice[device])
      && (s' != s && device in s.index.byDevice && s.index.byDevice[device] == n && s.sessions[n].device == device ==>
            device !in s'.index.byDevice)
  {
  }

  /** In every run a device is found exactly at the session that connected last for it, until that one is finished. */
  lemma {:induction false} DevicesAreFoundAtTheirLatestSession(actions: seq<Action>, device: string)
    ensures FoundExactly(actions, device)
  {
    if actions != [] {
      var front, last := actions[..|actions| - 1], actions[|actions| - 1];
      var s := Run(EMPTY, front);
      DevicesAreFoundAtTheirLatestSession(front, device);
      LastStep(actions);
      var latest := Latest(front, device);
      if last.Deregister? {
        DeregisterKeepsDevices(s, last.session, device);
      } else if !last.Connect? {
        OthersKeepDevices(s, last, if latest.Some? then latest.value else 0);
      }
    }
  }
}
