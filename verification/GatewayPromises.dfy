/** What every reachable state of the gateway keeps, and what readers, waiters and lookups can rely on. */
module GatewayPromises {
  import opened Basics
  import opened Subscriptions
  import opened Registries
  import opened Gateway

  // ----- places -----

  lemma LeavePlaced(s: State, n: nat, run: string, err: Option<Failure>)
    requires Placed(s) && n in s.sessions && run in s.sessions[n].subs
    ensures Placed(Leave(s, n, run, err))
    ensures n in Leave(s, n, run, err).sessions && run !in Leave(s, n, run, err).sessions[n].subs
    ensures Leave(s, n, run, err).sessions[n].phase == s.sessions[n].phase
  {
    assert MapOk(s, n, run);
    var s' := Leave(s, n, run, err);
    forall id | id in s'.subs ensures PlaceOk(s', id) {
      assert PlaceOk(s, id);
    }
    forall m, r | m in s'.sessions && r in s'.sessions[m].subs ensures MapOk(s', m, r) {
      assert MapOk(s, m, r);
    }
  }

  lemma JoinPlaced(s: State, n: nat, run: string, durable: bool, id: nat)
    requires Placed(s) && n in s.sessions && s.sessions[n].phase.Open? && run !in s.sessions[n].subs && id !in s.subs
    ensures Placed(Join(s, n, run, durable, id))
  {
    var s' := Join(s, n, run, durable, id);
    forall k | k in s'.subs ensures PlaceOk(s', k) {
      assert k != id ==> PlaceOk(s, k);
    }
    forall m, r | m in s'.sessions && r in s'.sessions[m].subs ensures MapOk(s', m, r) {
      assert !(m == n && r == run) ==> MapOk(s, m, r);
    }
  }

  lemma NotedPlaced(s: State, n: nat, f: Frame)
    requires Placed(s) && n in s.sessions
    ensures Placed(Noted(s, n, f))
  {
    var s' := Noted(s, n, f);
    forall k | k in s'.subs ensures PlaceOk(s', k) {
      assert PlaceOk(s, k);
    }
    forall m, r | m in s'.sessions && r in s'.sessions[m].subs ensures MapOk(s', m, r) {
      assert MapOk(s, m, r);
    }
  }

  lemma HandPlaced(s: State, n: nat, f: Frame)
    requires Placed(s) && n in s.sessions && f.run in s.sessions[n].subs && s.sessions[n].subs[f.run] in s.subs
    ensures Placed(Hand(s, n, f))
  {
    var s', id := Hand(s, n, f), s.sessions[n].subs[f.run];
    assert MapOk(s, n, f.run) && PlaceOk(s, id);
    forall k | k in s'.subs ensures PlaceOk(s', k) {
      assert PlaceOk(s, k);
    }
    forall m, r | m in s'.sessions && r in s'.sessions[m].subs ensures MapOk(s', m, r) {
      assert MapOk(s, m, r);
    }
  }

  lemma DispatchPlaced(s: State, n: nat, f: Frame)
    requires Placed(s)
    ensures Placed(DoDispatch(s, n, f))
  {
    if n in s.sessions && f.run != "" {
      NotedPlaced(s, n, f);
      var noted := Noted(s, n, f);
      if f.run in noted.sessions[n].subs && noted.sessions[n].subs[f.run] in s.subs {
        HandPlaced(noted, n, f);
      }
    }
  }

  lemma SwapOutPlaced(s: State, n: nat)
    requires Placed(s)
    ensures Placed(DoSwapOut(s, n))
  {
    var s' := DoSwapOut(s, n);
    forall k | k in s'.subs ensures PlaceOk(s', k) {
      assert PlaceOk(s, k);
    }
    forall m, r | m in s'.sessions && r in s'.sessions[m].subs ensures MapOk(s', m, r) {
      assert MapOk(s, m, r);
    }
  }

  lemma DrainPlaced(s: State, id: nat, reason: nat)
    requires Placed(s)
    ensures Placed(DoDrain(s, id, reason))
  {
    var s' := DoDrain(s, id, reason);
    forall k | k in s'.subs ensures PlaceOk(s', k) {
      assert PlaceOk(s, k);
    }
    forall m, r | m in s'.sessions && r in s'.sessions[m].subs ensures MapOk(s', m, r) {
      assert MapOk(s, m, r);
    }
  }

  /** Changing one session's phase or adding a session keeps every subscription in its place. */
  lemma PhasePlaced(s: State, a: Action)
    requires Placed(s) && (a.Connect? || a.MarkClosed? || a.Deregister?)
    ensures Placed(Step(s, a))
  {
    var s' := Step(s, a);
    assert s'.subs == s.subs && s'.panicked == s.panicked;
    forall k | k in s'.subs ensures PlaceOk(s', k) {
      assert PlaceOk(s, k);
    }
    forall m, r | m in s'.sessions && r in s'.sessions[m].subs ensures MapOk(s', m, r) {
      assert m in s.sessions && r in s.sessions[m].subs && MapOk(s, m, r);
    }
  }

  lemma ConsumePlaced(s: State, id: nat)
    requires Placed(s)
    ensures Placed(Step(s, Consume(id)))
  {
    var s' := Step(s, Consume(id));
    forall k | k in s'.subs ensures PlaceOk(s', k) {
      assert PlaceOk(s, k);
    }
    forall m, r | m in s'.sessions && r in s'.sessions[m].subs ensures MapOk(s', m, r) {
      assert MapOk(s, m, r);
    }
  }

  lemma SubscribePlaced(s: State, n: nat, run: string, durable: bool, id: nat)
    requires Placed(s)
    ensures Placed(DoSubscribe(s, n, run, durable, id))
  {
    if n in s.sessions && run != "" && id !in s.subs && s.sessions[n].phase.Open? {
      if run in s.sessions[n].subs {
        LeavePlaced(s, n, run, Some(SessionClosed));
        JoinPlaced(Leave(s, n, run, Some(SessionClosed)), n, run, durable, id);
      } else {
        JoinPlaced(s, n, run, durable, id);
      }
    }
  }

  lemma UnsubscribePlaced(s: State, n: nat, run: string)
    requires Placed(s)
    ensures Placed(DoUnsubscribe(s, n, run))
  {
    if n in s.sessions {
      var left := if run in s.sessions[n].subs then Leave(s, n, run, None) else s;
      if run in s.sessions[n].subs {
        LeavePlaced(s, n, run, None);
      }
      IndexIrrelevant(left, DoUnsubscribe(s, n, run));
    }
  }

  lemma IndexIrrelevant(s: State, s': State)
    requires Placed(s) && s'.subs == s.subs && s'.sessions == s.sessions && s'.panicked == s.panicked
    ensures Placed(s')
  {
    forall k | k in s'.subs ensures PlaceOk(s', k) {
      assert PlaceOk(s, k);
    }
    forall m, r | m in s'.sessions && r in s'.sessions[m].subs ensures MapOk(s', m, r) {
      assert MapOk(s, m, r);
    }
  }

  lemma StepPlaced(s: State, a: Action)
    requires Placed(s)
    ensures Placed(Step(s, a))
  {
    match a
    case Subscribe(n, run, durable, id) => SubscribePlaced(s, n, run, durable, id);
    case Unsubscribe(n, run) => UnsubscribePlaced(s, n, run);
    case Dispatch(n, f) => DispatchPlaced(s, n, f);
    case SwapOut(n) => SwapOutPlaced(s, n);
    case DrainOne(id, reason) => DrainPlaced(s, id, reason);
    case Connect(_, _) => PhasePlaced(s, a);
    case MarkClosed(_) => PhasePlaced(s, a);
    case Deregister(_) => PhasePlaced(s, a);
    case Consume(id) => ConsumePlaced(s, id);
    case _ => IndexIrrelevant(s, Step(s, a));
  }

  // ----- each subscription's own promises -----

  lemma DrainSubKeeps(sub: Sub, stage: Stage, reason: nat)
    requires SubInv(sub) && StageOk(sub, stage)
    ensures SubInv(DrainSub(sub, stage, reason).0)
  {
    match stage
    case SendError => if !sub.durable { PutErrorKeeps(sub, reason); }
    case SendDone => PutDoneKeeps(sub);
    case CloseChannel => ShutKeeps(sub, Some(SessionClosed));
    case Detach =>
  }

  lemma LeaveSound(s: State, n: nat, run: string, err: Option<Failure>)
    requires Placed(s) && Sound(s) && n in s.sessions && run in s.sessions[n].subs && err != Some(SubscriberOverflow)
    ensures Sound(Leave(s, n, run, err))
  {
    var id := s.sessions[n].subs[run];
    assert MapOk(s, n, run) && PlaceOk(s, id);
    ShutKeeps(s.subs[id].sub, err);
  }

  lemma SubscribeSound(s: State, n: nat, run: string, durable: bool, id: nat)
    requires Placed(s) && Sound(s)
    ensures Sound(DoSubscribe(s, n, run, durable, id))
  {
    FreshInv(run, durable);
    if n in s.sessions && run in s.sessions[n].subs {
      LeaveSound(s, n, run, Some(SessionClosed));
    }
  }

  lemma DispatchSound(s: State, n: nat, f: Frame)
    requires Placed(s) && Sound(s)
    ensures Sound(DoDispatch(s, n, f))
  {
    if n in s.sessions && f.run in s.sessions[n].subs {
      var id := s.sessions[n].subs[f.run];
      assert MapOk(s, n, f.run) && PlaceOk(s, id);
      OfferKeeps(s.subs[id].sub, f);
    }
  }

  lemma UnsubscribeSound(s: State, n: nat, run: string)
    requires Placed(s) && Sound(s)
    ensures Sound(DoUnsubscribe(s, n, run))
  {
    if n in s.sessions && run in s.sessions[n].subs {
      LeaveSound(s, n, run, None);
    }
  }

  lemma DrainSound(s: State, id: nat, reason: nat)
    requires Placed(s) && Sound(s)
    ensures Sound(DoDrain(s, id, reason))
  {
    if id in s.subs && s.subs[id].place.Draining? {
      assert PlaceOk(s, id);
      DrainSubKeeps(s.subs[id].sub, s.subs[id].place.stage, reason);
    }
  }

  lemma ConsumeSound(s: State, id: nat)
    requires Sound(s)
    ensures Sound(Step(s, Consume(id)))
  {
    if id in s.subs {
      TakeKeeps(s.subs[id].sub);
    }
  }

  /** Swapping the map out, and every step elsewhere, leaves the channels alone. */
  lemma UntouchedSound(s: State, s': State)
    requires Sound(s) && s'.subs.Keys == s.subs.Keys
    requires forall id :: id in s'.subs ==> s'.subs[id].sub == s.subs[id].sub
    ensures Sound(s')
  {
    forall id | id in s'.subs ensures SubInv(s'.subs[id].sub) {
      assert SubInv(s.subs[id].sub);
    }
  }

  lemma StepSound(s: State, a: Action)
    requires Placed(s) && Sound(s)
    ensures Sound(Step(s, a))
  {
    match a
    case Subscribe(n, run, durable, id) => SubscribeSound(s, n, run, durable, id);
    case Unsubscribe(n, run) => UnsubscribeSound(s, n, run);
    case Dispatch(n, f) => DispatchSound(s, n, f);
    case Consume(id) => ConsumeSound(s, id);
    case DrainOne(id, reason) => DrainSound(s, id, reason);
    case SwapOut(n) => UntouchedSound(s, DoSwapOut(s, n));
    case _ => assert Step(s, a).subs == s.subs;
  }

  // ----- what each subscription was offered -----

  lemma ForRunSnoc(frames: seq<Frame>, f: Frame, from: nat, run: string)
    requires from <= |frames|
    ensures ForRun((frames + [f])[from..|frames| + 1], run)
            == if f.run == run then ForRun(frames[from..|frames|], run) + [f] else ForRun(frames[from..|frames|], run)
  {
    var all := (frames + [f])[from..|frames| + 1];
    assert all[..|all| - 1] == frames[from..|frames|];
  }

  /** The subscription saw no new frame; it may have stopped being the current one. */
  predicate SameStretch(s: State, s': State, k: nat) {
    && k in s.subs && k in s'.subs
    && var o, o' := s.subs[k], s'.subs[k];
       && o'.session == o.session && o'.from == o.from && o'.sub.run == o.sub.run && o'.sub.offered == o.sub.offered
       && o.session in s.sessions && o.session in s'.sessions
       && s'.sessions[o.session].dispatched == s.sessions[o.session].dispatched
       && (o'.place.Current? ==> o.place.Current?)
       && o'.until ==
            if o.place.Current? && !o'.place.Current? then |s.sessions[o.session].dispatched| else o.until
  }

  lemma SameShare(s: State, s': State)
    requires Shared(s)
    requires forall k :: k in s'.subs ==> SameStretch(s, s', k)
    ensures Shared(s')
  {
    forall k | k in s'.subs ensures ShareOk(s', k) {
      assert SameStretch(s, s', k) && ShareOk(s, k);
    }
  }

  lemma LeaveShared(s: State, n: nat, run: string, err: Option<Failure>)
    requires Placed(s) && Shared(s) && n in s.sessions && run in s.sessions[n].subs
    ensures Shared(Leave(s, n, run, err))
  {
    var s' := Leave(s, n, run, err);
    assert MapOk(s, n, run);
    forall k | k in s'.subs ensures SameStretch(s, s', k) {
      assert PlaceOk(s, k);
    }
    SameShare(s, s');
  }

  lemma JoinShared(s: State, n: nat, run: string, durable: bool, id: nat)
    requires Shared(s) && n in s.sessions && id !in s.subs
    ensures Shared(Join(s, n, run, durable, id))
  {
    var s' := Join(s, n, run, durable, id);
    forall k | k in s'.subs ensures ShareOk(s', k) {
      assert k != id ==> ShareOk(s, k);
    }
  }

  lemma SubscribeShared(s: State, n: nat, run: string, durable: bool, id: nat)
    requires Placed(s) && Shared(s)
    ensures Shared(DoSubscribe(s, n, run, durable, id))
  {
    if n in s.sessions && run != "" && id !in s.subs && s.sessions[n].phase.Open? {
      if run in s.sessions[n].subs {
        LeaveShared(s, n, run, Some(SessionClosed));
        LeavePlaced(s, n, run, Some(SessionClosed));
        JoinShared(Leave(s, n, run, Some(SessionClosed)), n, run, durable, id);
      } else {
        JoinShared(s, n, run, durable, id);
      }
    }
  }

  lemma UnsubscribeShared(s: State, n: nat, run: string)
    requires Placed(s) && Shared(s)
    ensures Shared(DoUnsubscribe(s, n, run))
  {
    var s' := DoUnsubscribe(s, n, run);
    if n in s.sessions {
      var left := if run in s.sessions[n].subs then Leave(s, n, run, None) else s;
      if run in s.sessions[n].subs {
        LeaveShared(s, n, run, None);
      }
      forall k | k in s'.subs ensures SameStretch(left, s', k) {
        assert ShareOk(left, k);
      }
      SameShare(left, s');
    }
  }

  /** A subscription the frame does not reach keeps its share; its stretch may have grown by another run's frame. */
  lemma NotedShare(s: State, n: nat, f: Frame, k: nat)
    requires Shared(s) && n in s.sessions && k in s.subs
    requires !(s.subs[k].session == n && s.subs[k].place.Current? && s.subs[k].sub.run == f.run)
    ensures ShareOk(Noted(s, n, f), k)
  {
    assert ShareOk(s, k);
    var o, frames := s.subs[k], s.sessions[n].dispatched;
    if o.session == n {
      if o.place.Current? {
        ForRunSnoc(frames, f, o.from, o.sub.run);
      } else {
        assert (frames + [f])[o.from..o.until] == frames[o.from..o.until];
      }
    }
  }

  lemma HandShare(s: State, n: nat, f: Frame)
    requires Placed(s) && Shared(s) && n in s.sessions && f.run in s.sessions[n].subs
    requires s.sessions[n].subs[f.run] in s.subs
    ensures ShareOk(Hand(Noted(s, n, f), n, f), s.sessions[n].subs[f.run])
  {
    var id, frames := s.sessions[n].subs[f.run], s.sessions[n].dispatched;
    assert MapOk(s, n, f.run) && ShareOk(s, id);
    var o, s' := s.subs[id], Hand(Noted(s, n, f), n, f);
    ForRunSnoc(frames, f, o.from, f.run);
    assert s'.sessions[n].dispatched == frames + [f];
    assert s'.subs[id].sub.offered == o.sub.offered + [f];
    assert Share(s', id) == ForRun((frames + [f])[o.from..|frames| + 1], f.run);
  }

  lemma HandLeavesOthers(s: State, n: nat, f: Frame, k: nat)
    requires n in s.sessions && f.run in s.sessions[n].subs && s.sessions[n].subs[f.run] in s.subs
    requires k in s.subs && k != s.sessions[n].subs[f.run] && ShareOk(s, k)
    ensures k in Hand(s, n, f).subs && ShareOk(Hand(s, n, f), k)
  {
    assert Hand(s, n, f).subs[k] == s.subs[k];
    assert Hand(s, n, f).sessions[n].dispatched == s.sessions[n].dispatched;
  }

  lemma ReachesOnlyCurrent(s: State, n: nat, f: Frame, k: nat)
    requires Placed(s) && n in s.sessions && k in s.subs
    requires s.subs[k].session == n && s.subs[k].place.Current? && s.subs[k].sub.run == f.run
    ensures f.run in s.sessions[n].subs && s.sessions[n].subs[f.run] == k
  {
    assert PlaceOk(s, k);
  }

  lemma DispatchSharedOne(s: State, n: nat, f: Frame, k: nat)
    requires Placed(s) && Shared(s) && n in s.sessions && f.run != "" && k in s.subs
    ensures k in DoDispatch(s, n, f).subs && ShareOk(DoDispatch(s, n, f), k)
  {
    var noted := Noted(s, n, f);
    var reached := f.run in s.sessions[n].subs && s.sessions[n].subs[f.run] in s.subs;
    if reached && k == s.sessions[n].subs[f.run] {
      HandShare(s, n, f);
    } else {
      if s.subs[k].session == n && s.subs[k].place.Current? && s.subs[k].sub.run == f.run {
        ReachesOnlyCurrent(s, n, f, k);
      }
      NotedShare(s, n, f, k);
      if reached {
        HandLeavesOthers(noted, n, f, k);
      }
    }
  }

  lemma DispatchShared(s: State, n: nat, f: Frame)
    requires Placed(s) && Shared(s)
    ensures Shared(DoDispatch(s, n, f))
  {
    if n in s.sessions && f.run != "" {
      assert DoDispatch(s, n, f).subs.Keys == s.subs.Keys;
      forall k | k in DoDispatch(s, n, f).subs ensures ShareOk(DoDispatch(s, n, f), k) {
        DispatchSharedOne(s, n, f, k);
      }
    }
  }

  lemma SwapOutShared(s: State, n: nat)
    requires Placed(s) && Shared(s)
    ensures Shared(DoSwapOut(s, n))
  {
    var s' := DoSwapOut(s, n);
    forall k | k in s'.subs ensures SameStretch(s, s', k) {
      assert PlaceOk(s, k);
    }
    SameShare(s, s');
  }

  lemma DrainStretch(s: State, id: nat, reason: nat)
    requires id in s.subs && s.subs[id].place.Draining? && s.subs[id].session in s.sessions
    ensures SameStretch(s, DoDrain(s, id, reason), id)
    ensures DoDrain(s, id, reason).sessions == s.sessions
    ensures DoDrain(s, id, reason).subs.Keys == s.subs.Keys
    ensures forall k :: k in s.subs && k != id ==> DoDrain(s, id, reason).subs[k] == s.subs[k]
  {
  }

  lemma DrainShared(s: State, id: nat, reason: nat)
    requires Placed(s) && Shared(s)
    ensures Shared(DoDrain(s, id, reason))
  {
    var s' := DoDrain(s, id, reason);
    if id in s.subs && s.subs[id].place.Draining? {
      DrainStretch(s, id, reason);
      forall k | k in s'.subs ensures SameStretch(s, s', k) {
        assert ShareOk(s, k);
        assert k != id ==> s'.subs[k] == s.subs[k];
      }
      SameShare(s, s');
    }
  }

  lemma QuietShared(s: State, a: Action)
    requires Shared(s)
    requires !a.Subscribe? && !a.Unsubscribe? && !a.Dispatch? && !a.SwapOut? && !a.DrainOne? && !a.Consume?
    ensures Shared(Step(s, a))
  {
    var s' := Step(s, a);
    assert s'.subs == s.subs;
    assert forall n :: n in s.sessions ==> n in s'.sessions && s'.sessions[n].dispatched == s.sessions[n].dispatched;
    forall k | k in s'.subs ensures SameStretch(s, s', k) {
      assert ShareOk(s, k);
    }
    SameShare(s, s');
  }

  lemma ConsumeShared(s: State, id: nat)
    requires Shared(s)
    ensures Shared(Step(s, Consume(id)))
  {
    var s' := Step(s, Consume(id));
    forall k | k in s'.subs ensures SameStretch(s, s', k) {
      assert ShareOk(s, k);
    }
    SameShare(s, s');
  }

  lemma StepShared(s: State, a: Action)
    requires Placed(s) && Shared(s)
    ensures Shared(Step(s, a))
  {
    match a
    case Subscribe(n, run, durable, id) => SubscribeShared(s, n, run, durable, id);
    case Unsubscribe(n, run) => UnsubscribeShared(s, n, run);
    case Dispatch(n, f) => DispatchShared(s, n, f);
    case SwapOut(n) => SwapOutShared(s, n);
    case DrainOne(id, reason) => DrainShared(s, id, reason);
    case Consume(id) => ConsumeShared(s, id);
    case _ => QuietShared(s, a);
  }

  // ----- the indexes -----

  /** The same session, with the same map unless it is closing. */
  predicate Tamer(session: Session, session': Session) {
    && session'.device == session.device
    && (session'.phase.Finished? ==> session.phase.Finished?)
    && (session'.phase.Closing? || session' == session || (session'.subs == session.subs && !session.phase.Closing?))
  }

  /** Entries survive when sessions keep their maps, or turn closing, and entries at most disappear. */
  lemma QuietIndexed(s: State, s': State)
    requires IndexInv(s)
    requires s'.index.byDevice == s.index.byDevice
    requires forall r :: r in s'.index.byRun ==> r in s.index.byRun && s'.index.byRun[r] == s.index.byRun[r]
    requires forall n :: n in s.sessions ==> n in s'.sessions && Tamer(s.sessions[n], s'.sessions[n])
    ensures IndexInv(s')
  {
    forall run | run in s'.index.byRun ensures RunEntryOk(s', run) {
      assert RunEntryOk(s, run);
    }
    forall device | device in s'.index.byDevice ensures DeviceEntryOk(s', device) {
      assert DeviceEntryOk(s, device);
    }
  }

  lemma ConnectIndexed(s: State, n: nat, device: string)
    requires IndexInv(s)
    ensures IndexInv(Step(s, Connect(n, device)))
  {
    var s' := Step(s, Connect(n, device));
    forall run | run in s'.index.byRun ensures RunEntryOk(s', run) {
      assert RunEntryOk(s, run);
    }
    forall d | d in s'.index.byDevice ensures DeviceEntryOk(s', d) {
      assert d in s.index.byDevice ==> DeviceEntryOk(s, d);
    }
  }

  lemma DeregisterIndexed(s: State, n: nat)
    requires IndexInv(s)
    ensures IndexInv(DoDeregister(s, n))
  {
    var s' := DoDeregister(s, n);
    forall run | run in s'.index.byRun ensures RunEntryOk(s', run) {
      assert RunEntryOk(s, run);
    }
    forall d | d in s'.index.byDevice ensures DeviceEntryOk(s', d) {
      assert DeviceEntryOk(s, d);
    }
  }

  /** After a run left session n's map, only that run's entry may be stale. */
  predicate IndexedBut(s: State, run: string) {
    && (forall r :: r in s.index.byRun && r != run ==> RunEntryOk(s, r))
    && (forall device :: device in s.index.byDevice ==> DeviceEntryOk(s, device))
  }

  lemma LeaveIndexed(s: State, n: nat, run: string, err: Option<Failure>)
    requires IndexInv(s) && n in s.sessions && run in s.sessions[n].subs
    ensures IndexedBut(Leave(s, n, run, err), run)
  {
    var s' := Leave(s, n, run, err);
    forall r | r in s'.index.byRun && r != run ensures RunEntryOk(s', r) {
      assert RunEntryOk(s, r);
    }
    forall d | d in s'.index.byDevice ensures DeviceEntryOk(s', d) {
      assert DeviceEntryOk(s, d);
    }
  }

  lemma JoinIndexed(s: State, n: nat, run: string, durable: bool, id: nat)
    requires IndexedBut(s, run) && n in s.sessions
    ensures IndexInv(Join(s, n, run, durable, id))
  {
    var s' := Join(s, n, run, durable, id);
    forall r | r in s'.index.byRun ensures RunEntryOk(s', r) {
      assert r in s.index.byRun && r != run ==> RunEntryOk(s, r);
    }
    forall d | d in s'.index.byDevice ensures DeviceEntryOk(s', d) {
      assert DeviceEntryOk(s, d);
    }
  }

  lemma DetachIndexed(s: State, s': State, run: string)
    requires IndexedBut(s, run) && s'.sessions == s.sessions && s'.index == s.index.(byRun := s.index.byRun - {run})
    ensures IndexInv(s')
  {
    forall r | r in s'.index.byRun ensures RunEntryOk(s', r) {
      assert RunEntryOk(s, r);
    }
    forall d | d in s'.index.byDevice ensures DeviceEntryOk(s', d) {
      assert DeviceEntryOk(s, d);
    }
  }

  lemma SubscribeIndexed(s: State, n: nat, run: string, durable: bool, id: nat)
    requires Placed(s) && IndexInv(s)
    ensures IndexInv(DoSubscribe(s, n, run, durable, id))
  {
    if n in s.sessions && run != "" && id !in s.subs && s.sessions[n].phase.Open? {
      if run in s.sessions[n].subs {
        LeaveIndexed(s, n, run, Some(SessionClosed));
        LeavePlaced(s, n, run, Some(SessionClosed));
        JoinIndexed(Leave(s, n, run, Some(SessionClosed)), n, run, durable, id);
      } else {
        JoinIndexed(s, n, run, durable, id);
      }
    }
  }

  lemma UnsubscribeIndexed(s: State, n: nat, run: string)
    requires IndexInv(s)
    ensures IndexInv(DoUnsubscribe(s, n, run))
  {
    if n in s.sessions {
      if run in s.sessions[n].subs {
        LeaveIndexed(s, n, run, None);
        DetachIndexed(Leave(s, n, run, None), DoUnsubscribe(s, n, run), run);
      } else {
        DetachIndexed(s, DoUnsubscribe(s, n, run), run);
      }
    }
  }

  lemma DispatchIndexed(s: State, n: nat, f: Frame)
    requires IndexInv(s)
    ensures IndexInv(DoDispatch(s, n, f))
  {
    var s' := DoDispatch(s, n, f);
    if n in s.sessions && f.run != "" {
      forall r | r in s'.index.byRun ensures RunEntryOk(s', r) {
        assert RunEntryOk(s, r);
      }
      forall d | d in s'.index.byDevice ensures DeviceEntryOk(s', d) {
        assert DeviceEntryOk(s, d);
      }
    }
  }

  lemma SwapOutIndexed(s: State, n: nat)
    requires IndexInv(s)
    ensures IndexInv(DoSwapOut(s, n))
  {
    QuietIndexed(s, DoSwapOut(s, n));
  }

  lemma SameIndexed(s: State, s': State)
    requires IndexInv(s) && s'.sessions == s.sessions
    requires s'.index.byRun == s.index.byRun && s'.index.byDevice == s.index.byDevice
    ensures IndexInv(s')
  {
    QuietIndexed(s, s');
  }

  /** Consuming and waiting touch neither sessions nor entries. */
  lemma ElsewhereSame(s: State, a: Action)
    requires a.Consume? || a.Wait? || a.Receive? || a.GiveUp? || a.RemoveWaiter?
    ensures Step(s, a).sessions == s.sessions
    ensures Step(s, a).index.byRun == s.index.byRun && Step(s, a).index.byDevice == s.index.byDevice
  {
  }

  lemma MarkIndexed(s: State, n: nat)
    requires IndexInv(s)
    ensures IndexInv(Step(s, MarkClosed(n)))
  {
    QuietIndexed(s, Step(s, MarkClosed(n)));
  }

  lemma DrainIndexed(s: State, id: nat, reason: nat)
    requires IndexInv(s)
    ensures IndexInv(DoDrain(s, id, reason))
  {
    QuietIndexed(s, DoDrain(s, id, reason));
  }

  lemma StepIndexed(s: State, a: Action)
    requires Placed(s) && IndexInv(s)
    ensures IndexInv(Step(s, a))
  {
    match a
    case Connect(n, device) => ConnectIndexed(s, n, device);
    case Subscribe(n, run, durable, id) => SubscribeIndexed(s, n, run, durable, id);
    case Unsubscribe(n, run) => UnsubscribeIndexed(s, n, run);
    case Dispatch(n, f) => DispatchIndexed(s, n, f);
    case Deregister(n) => DeregisterIndexed(s, n);
    case DrainOne(id, reason) => DrainIndexed(s, id, reason);
    case SwapOut(n) => SwapOutIndexed(s, n);
    case MarkClosed(n) => MarkIndexed(s, n);
    case _ =>
      ElsewhereSame(s, a);
      SameIndexed(s, Step(s, a));
  }

  // ----- waiting for a device -----

  /** Nothing waiters look at changed, but for devices that left. */
  predicate Quiet(s: State, s': State) {
    && s'.callers == s.callers && s'.index.waiters == s.index.waiters && s'.index.slots == s.index.slots
    && s'.index.byDevice.Keys <= s.index.byDevice.Keys
    && forall n :: n in s.sessions ==> n in s'.sessions && s'.sessions[n].device == s.sessions[n].device
  }

  lemma QuietWaits(s: State, s': State)
    requires WaitInv(s) && Quiet(s, s')
    ensures WaitInv(s')
  {
    forall device | device in s'.index.waiters ensures ListOk(s', device) {
      assert ListOk(s, device);
    }
    forall c | c in s'.callers ensures CallerOk(s', c) {
      assert CallerOk(s, c);
    }
  }

  lemma LeaveIsQuiet(s: State, n: nat, run: string, err: Option<Failure>)
    requires n in s.sessions && run in s.sessions[n].subs
    ensures Quiet(s, Leave(s, n, run, err)) && Leave(s, n, run, err).index == s.index
  {
  }

  lemma JoinIsQuiet(s: State, n: nat, run: string, durable: bool, id: nat)
    requires n in s.sessions
    ensures Quiet(s, Join(s, n, run, durable, id))
  {
  }

  lemma SubscribeIsQuiet(s: State, n: nat, run: string, durable: bool, id: nat)
    ensures Quiet(s, DoSubscribe(s, n, run, durable, id))
  {
    if n in s.sessions {
      if run in s.sessions[n].subs {
        LeaveIsQuiet(s, n, run, Some(SessionClosed));
        JoinIsQuiet(Leave(s, n, run, Some(SessionClosed)), n, run, durable, id);
      } else {
        JoinIsQuiet(s, n, run, durable, id);
      }
    }
  }

  lemma UnsubscribeIsQuiet(s: State, n: nat, run: string)
    ensures Quiet(s, DoUnsubscribe(s, n, run))
  {
    if n in s.sessions && run in s.sessions[n].subs {
      LeaveIsQuiet(s, n, run, None);
    }
  }

  lemma DispatchIsQuiet(s: State, n: nat, f: Frame)
    ensures Quiet(s, DoDispatch(s, n, f))
  {
  }

  lemma ConnectWaits(s: State, n: nat, device: string)
    requires WaitInv(s)
    ensures WaitInv(Step(s, Connect(n, device)))
    ensures n !in s.sessions && device != "" ==>
      forall c :: c in Listed(s.index, device) ==> Step(s, Connect(n, device)).index.slots[c] == Some(n)
  {
    var s' := Step(s, Connect(n, device));
    if n !in s.sessions && device != "" {
      if device in s.index.waiters {
        assert ListOk(s, device);
      }
      forall d | d in s'.index.waiters ensures ListOk(s', d) {
        assert ListOk(s, d);
      }
      forall c | c in s'.callers ensures CallerOk(s', c) {
        assert CallerOk(s, c);
      }
    }
  }

  lemma WaitWaits(s: State, device: string, channel: nat)
    requires WaitInv(s)
    ensures WaitInv(DoWait(s, device, channel))
  {
    var s' := DoWait(s, device, channel);
    if s' != s {
      assert channel in s.callers ==> CallerOk(s, channel);
      forall d | d in s'.index.waiters ensures ListOk(s', d) {
        assert d in s.index.waiters ==> ListOk(s, d);
        if d == device {
          var was := Listed(s.index, device);
          assert channel !in was;
          assert Distinct(was + [channel]) by {
            assert Distinct(was);
          }
        }
      }
      forall c | c in s'.callers ensures CallerOk(s', c) {
        assert c in s.callers ==> CallerOk(s, c);
      }
    }
  }

  lemma ReceiveWaits(s: State, channel: nat)
    requires WaitInv(s)
    ensures WaitInv(DoReceive(s, channel))
  {
    var s' := DoReceive(s, channel);
    forall d | d in s'.index.waiters ensures ListOk(s', d) {
      assert ListOk(s, d);
    }
    forall c | c in s'.callers ensures CallerOk(s', c) {
      assert CallerOk(s, c);
    }
  }

  lemma GiveUpWaits(s: State, channel: nat)
    requires WaitInv(s)
    ensures WaitInv(Step(s, GiveUp(channel)))
  {
    var s' := Step(s, GiveUp(channel));
    forall d | d in s'.index.waiters ensures ListOk(s', d) {
      assert ListOk(s, d);
    }
    forall c | c in s'.callers ensures CallerOk(s', c) {
      assert CallerOk(s, c);
    }
  }

  lemma RemoveWaits(s: State, channel: nat)
    requires WaitInv(s)
    ensures WaitInv(DoRemoveWaiter(s, channel))
  {
    var s' := DoRemoveWaiter(s, channel);
    if s' != s {
      var device := s.callers[channel].device;
      RemainingIsTheRest(Listed(s.index, device), channel);
      forall d | d in s'.index.waiters ensures ListOk(s', d) {
        assert ListOk(s, d);
      }
      forall c | c in s'.callers ensures CallerOk(s', c) {
        assert CallerOk(s, c);
        var left := Remaining(Listed(s.index, device), channel);
        assert c in Listed(s.index, device) ==> c in left;
      }
    }
  }

  lemma DrainIsQuiet(s: State, id: nat, reason: nat)
    ensures Quiet(s, DoDrain(s, id, reason))
  {
  }

  lemma PhaseIsQuiet(s: State, a: Action)
    requires a.MarkClosed? || a.SwapOut? || a.Deregister? || a.Consume?
    ensures Quiet(s, Step(s, a))
  {
  }

  lemma StepWaits(s: State, a: Action)
    requires WaitInv(s)
    ensures WaitInv(Step(s, a))
  {
    match a
    case Connect(n, device) => ConnectWaits(s, n, device);
    case Wait(device, channel) => WaitWaits(s, device, channel);
    case Receive(channel) => ReceiveWaits(s, channel);
    case GiveUp(channel) => GiveUpWaits(s, channel);
    case RemoveWaiter(channel) => RemoveWaits(s, channel);
    case Subscribe(n, run, durable, id) =>
      SubscribeIsQuiet(s, n, run, durable, id);
      QuietWaits(s, Step(s, a));
    case Unsubscribe(n, run) =>
      UnsubscribeIsQuiet(s, n, run);
      QuietWaits(s, Step(s, a));
    case Dispatch(n, f) =>
      DispatchIsQuiet(s, n, f);
      QuietWaits(s, Step(s, a));
    case DrainOne(id, reason) =>
      DrainIsQuiet(s, id, reason);
      QuietWaits(s, Step(s, a));
    case _ =>
      PhaseIsQuiet(s, a);
      QuietWaits(s, Step(s, a));
  }

  // ----- every run -----

  predicate Inv(s: State) {
    Placed(s) && Sound(s) && Shared(s) && IndexInv(s) && WaitInv(s)
  }

  lemma {:induction false} RunKeeps(s: State, actions: seq<Action>)
    requires Inv(s)
    ensures Inv(Run(s, actions))
    decreases |actions|
  {
    if actions != [] {
      StepPlaced(s, actions[0]);
      StepSound(s, actions[0]);
      StepShared(s, actions[0]);
      StepIndexed(s, actions[0]);
      StepWaits(s, actions[0]);
      RunKeeps(Step(s, actions[0]), actions[1..]);
    }
  }

  /** No interleaving ever sends on a closed channel. */
  lemma NeverPanics(actions: seq<Action>)
    ensures !Run(EMPTY, actions).panicked
  {
    RunKeeps(EMPTY, actions);
  }

  /**
   * A durable reader holds, in order and without a gap, a prefix of what its session dispatched for its run
   * while it was subscribed, all of it unless the subscription ended in overflow.
   */
  lemma DurableReadersHaveNoGaps(actions: seq<Action>, id: nat)
    requires id in Run(EMPTY, actions).subs && Run(EMPTY, actions).subs[id].sub.durable
    ensures
      var s := Run(EMPTY, actions);
      var sub := s.subs[id].sub;
      && s.subs[id].session in s.sessions
      && sub.taken + sub.buffer <= Share(s, id)
      && (sub.err == Some(SubscriberOverflow) <==> sub.taken + sub.buffer != Share(s, id))
      && (sub.err == Some(SubscriberOverflow) ==> sub.closed)
  {
    var s := Run(EMPTY, actions);
    RunKeeps(EMPTY, actions);
    assert ShareOk(s, id) && SubInv(s.subs[id].sub);
    assert s.subs[id].sub.delivered + [] == s.subs[id].sub.delivered;
  }

  /** A best-effort reader holds an ordered selection of its share, then at most the closing error and done. */
  lemma BestEffortReadersKeepOrder(actions: seq<Action>, id: nat)
    requires id in Run(EMPTY, actions).subs && !Run(EMPTY, actions).subs[id].sub.durable
    ensures
      var s := Run(EMPTY, actions);
      var sub := s.subs[id].sub;
      && s.subs[id].session in s.sessions
      && sub.taken + sub.buffer == sub.delivered + sub.synthetic
      && Subsequence(sub.delivered, Share(s, id))
      && ClosingTail(sub.synthetic)
      && (sub.synthetic != [] ==>
            var phase := s.sessions[s.subs[id].session].phase;
            phase.Closing? || phase.Finished?)
  {
    var s := Run(EMPTY, actions);
    RunKeeps(EMPTY, actions);
    assert ShareOk(s, id) && SubInv(s.subs[id].sub) && PlaceOk(s, id);
  }

  /** No device is registered while somebody waits for it, and nobody waits in vain. */
  lemma NobodyWaitsInVain(actions: seq<Action>)
    ensures
      var s := Run(EMPTY, actions);
      && (forall device :: device in s.index.waiters ==> ListOk(s, device))
      && (forall c :: c in s.callers ==> CallerOk(s, c))
  {
    RunKeeps(EMPTY, actions);
  }

  /** Registering a device hands the new session to every caller then listed for it: no send is dropped. */
  lemma RegisterReachesEveryWaiter(actions: seq<Action>, n: nat, device: string)
    requires n !in Run(EMPTY, actions).sessions && device != ""
    ensures
      var s := Run(EMPTY, actions);
      var s' := Step(s, Connect(n, device));
      && device !in s'.index.waiters
      && (forall c :: c in Listed(s.index, device) ==> c in s'.index.slots && s'.index.slots[c] == Some(n))
  {
    var s := Run(EMPTY, actions);
    RunKeeps(EMPTY, actions);
    ConnectWaits(s, n, device);
    if device in s.index.waiters {
      assert ListOk(s, device);
    }
  }

  /** Entries lead to holders, and once a session's close has finished no device or run leads to it any more. */
  lemma LookupsFindHolders(actions: seq<Action>)
    ensures
      var s := Run(EMPTY, actions);
      && (forall run :: run in s.index.byRun ==> RunEntryOk(s, run))
      && (forall device :: device in s.index.byDevice ==> DeviceEntryOk(s, device))
      && (forall n :: n in s.sessions && s.sessions[n].phase.Finished? ==>
            n !in s.index.byRun.Values && n !in s.index.byDevice.Values)
  {
    var s := Run(EMPTY, actions);
    RunKeeps(EMPTY, actions);
    forall n | n in s.sessions && s.sessions[n].phase.Finished?
      ensures n !in s.index.byRun.Values && n !in s.index.byDevice.Values
    {
      forall run | run in s.index.byRun ensures s.index.byRun[run] != n {
        assert RunEntryOk(s, run);
        assert run in s.sessions[n].subs ==> MapOk(s, n, run);
      }
      forall device | device in s.index.byDevice ensures s.index.byDevice[device] != n {
        assert DeviceEntryOk(s, device);
      }
    }
  }
}
