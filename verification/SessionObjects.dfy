/** The session and subscription objects as the gateway updates them, proved against the channel model. */
module SessionObjects {
  import opened Basics
  import opened Subscriptions
  import opened Registries
  import opened SessionViews

  class Subscription {
    const run: string
    const durable: bool
    var buffer: seq<Frame>
    var closed: bool
    var err: Option<Failure>
    ghost var offered: seq<Frame>
    ghost var delivered: seq<Frame>
    ghost var synthetic: seq<Frame>
    ghost var taken: seq<Frame>

    constructor (run: string, durable: bool)
      ensures Value() == Fresh(run, durable)
    {
      this.run, this.durable, buffer, closed, err := run, durable, [], false, None;
      offered, delivered, synthetic, taken := [], [], [], [];
    }

    ghost function Value(): Sub
      reads this
    {
      Sub(run, durable, buffer, closed, err, offered, delivered, synthetic, taken)
    }

    method CloseLocked(failure: Option<Failure>)
      modifies this
      ensures Value() == Shut(old(Value()), failure)
    {
      if !closed {
        err, closed := failure, true;
      }
    }

    /** The select of a dispatch; sending on a closed channel is excluded by the caller. */
    method Dispatch(f: Frame)
      requires !closed
      modifies this
      ensures Value() == Offer(old(Value()), f)
    {
      offered := offered + [f];
      if |buffer| < Capacity(durable) {
        buffer, delivered := buffer + [f], delivered + [f];
        if f.kind.Done? {
          CloseLocked(None);
        }
      } else if durable {
        CloseLocked(Some(SubscriberOverflow));
      } else if f.kind.Done? {
        CloseLocked(None);
      }
    }

    method DeliverSynthetic(f: Frame)
      requires !closed
      modifies this
      ensures Value() == PutSynthetic(old(Value()), f)
    {
      if |buffer| < Capacity(durable) {
        buffer, synthetic := buffer + [f], synthetic + [f];
      }
    }

    method Receive() returns (f: Option<Frame>)
      modifies this
      ensures Value() == Take(old(Value()))
      ensures f == if old(buffer) == [] then None else Some(old(buffer)[0])
    {
      if buffer == [] {
        return None;
      }
      f, taken := Some(buffer[0]), taken + [buffer[0]];
      buffer := buffer[1..];
    }

    /** Closing by the session; here no reader runs in between. */
    method CloseForSession(reason: nat)
      modifies this
      ensures Value() == Ended(old(Value()), reason)
    {
      if closed {
        return;
      }
      if !durable {
        DeliverSynthetic(ErrorFrame(run, reason));
        DeliverSynthetic(DoneFrame(run));
      }
      CloseLocked(Some(SessionClosed));
    }
  }

  class Session {
    const device: string
    const reg: Registry<Session>
    var closed: bool
    var subs: map<string, Subscription>

    constructor (device: string, reg: Registry<Session>)
      ensures Valid() && this.device == device && this.reg == reg && !closed && subs == map[]
    {
      this.device, this.reg, closed, subs := device, reg, false, map[];
    }

    /** Every mapped subscription is open and stands under its own run. */
    ghost predicate Valid()
      reads this, subs.Values
    {
      forall run :: run in subs ==> run != "" && subs[run].run == run && !subs[run].closed
    }

    /** The session as the gateway's machine sees it. */
    ghost function Shown(): View
      reads this, subs.Values, reg
    {
      View(!closed, map run | run in subs :: subs[run].Value(), reg.byRun.Keys,
           Leading(reg.byRun))
    }

    /** One run's subscription replaced or dropped, and the others as they were. */
    lemma ShowsChange(before: View, run: string, value: Option<Sub>)
      requires subs.Keys - {run} == before.subs.Keys - {run}
      requires forall r :: r in subs && r in before.subs && r != run ==> subs[r].Value() == before.subs[r]
      requires run in subs <==> value.Some?
      requires value.Some? ==> subs[run].Value() == value.value
      ensures Shown().subs == if value.Some? then before.subs[run := value.value] else before.subs - {run}
    {
      forall r | r in subs && r != run ensures r in before.subs {
        assert r in subs.Keys - {run};
      }
      forall r | r in before.subs && r != run ensures r in subs {
        assert r in before.subs.Keys - {run};
      }
    }

    /** One run's entry added or dropped. */
    lemma ShowsRuns(before: map<string, Session>, run: string)
      ensures reg.byRun == before[run := this] ==>
        Shown().runs == before.Keys + {run} && Shown().mine == Leading(before) + {run}
      ensures reg.byRun == before - {run} ==>
        Shown().runs == before.Keys - {run} && Shown().mine == Leading(before) - {run}
    {
    }

    ghost function Leading(byRun: map<string, Session>): set<string> {
      set run | run in byRun && byRun[run] == this
    }

    method Subscribe(run: string, durable: bool) returns (sub: Option<Subscription>)
      requires Valid()
      modifies this`subs, subs.Values, reg
      ensures Valid() && Shown() == Subscribed(old(Shown()), run, durable)
      ensures sub.None? <==> run == "" || closed
      ensures sub.None? ==> subs == old(subs) && reg.Value() == old(reg.Value())
      ensures sub.Some? ==>
        && fresh(sub.value) && sub.value.Value() == Fresh(run, durable)
        && subs == old(subs)[run := sub.value]
        && reg.Value() == old(reg.Value()).(byRun := old(reg.byRun)[run := this])
      ensures sub.Some? && run in old(subs) ==>
        old(subs)[run].Value() == Shut(old(subs[run].Value()), Some(SessionClosed))
      ensures forall r :: r in old(subs) && (sub.None? || r != run) ==> unchanged(old(subs)[r])
    {
      if run == "" || closed {
        return None;
      }
      ghost var before, entries := Shown(), reg.byRun;
      var made := new Subscription(run, durable);
      if run in subs {
        subs[run].CloseLocked(Some(SessionClosed));
      }
      subs := subs[run := made];
      reg.AttachRun(run, this);
      ShowsChange(before, run, Some(Fresh(run, durable)));
      ShowsRuns(entries, run);
      return Some(made);
    }

    method Unsubscribe(run: string)
      requires Valid()
      modifies this`subs, subs.Values, reg
      ensures Valid() && ("" !in old(reg.byRun) ==> Shown() == Dropped(old(Shown()), run))
      ensures subs == old(subs) - {run}
      ensures reg.Value() == old(reg.Value()).(byRun := if run == "" then old(reg.byRun) else old(reg.byRun) - {run})
      ensures run in old(subs) ==> old(subs)[run].Value() == Shut(old(subs[run].Value()), None)
      ensures forall r :: r in old(subs) && r != run ==> unchanged(old(subs)[r])
    {
      ghost var before, entries := Shown(), reg.byRun;
      if run in subs {
        subs[run].CloseLocked(None);
        subs := subs - {run};
      } else {
        assert subs - {run} == subs;
      }
      reg.DetachRun(run);
      ShowsChange(before, run, None);
      assert "" !in entries ==> entries - {""} == entries;
      ShowsRuns(entries, run);
    }

    /** The frame reaches its run's subscription, and a subscription it closed leaves the map and the index. */
    method DispatchToSubscriber(f: Frame)
      requires Valid()
      modifies this`subs, subs.Values, reg
      ensures Valid() && Shown() == Dispatched(old(Shown()), f)
      ensures f.run !in old(subs) ==> subs == old(subs) && reg.Value() == old(reg.Value())
      ensures f.run in old(subs) ==>
        var sub := old(subs)[f.run];
        && sub.Value() == Offer(old(sub.Value()), f)
        && subs == (if sub.closed then old(subs) - {f.run} else old(subs))
        && reg.Value() ==
             (if sub.closed then old(reg.Value()).(byRun := old(reg.byRun) - {f.run}) else old(reg.Value()))
      ensures forall r :: r in old(subs) && r != f.run ==> unchanged(old(subs)[r])
    {
      if f.run !in subs {
        return;
      }
      ghost var before, entries := Shown(), reg.byRun;
      var sub := subs[f.run];
      sub.Dispatch(f);
      if sub.closed {
        subs := subs - {f.run};
        reg.DetachRun(f.run);
      }
      ShowsChange(before, f.run, if sub.closed then None else Some(sub.Value()));
      ShowsRuns(entries, f.run);
    }

    /** Close, run alone: every subscription shut, the map empty, and no entry of any index left to this session. */
    method Close(reason: nat)
      requires Valid()
      modifies this, subs.Values, reg
      ensures closed
      ensures !old(closed) ==>
        && subs == map[]
        && (forall r :: r in old(subs) ==> old(subs)[r].Value() == Ended(old(subs[r].Value()), reason))
        && this !in reg.byRun.Values && this !in reg.byPerm.Values && this !in reg.byAsk.Values
        && (device in reg.byDevice ==> reg.byDevice[device] != this)
      ensures old(closed) ==> subs == old(subs) && reg.Value() == old(reg.Value())
    {
      if closed {
        return;
      }
      closed := true;
      var draining := subs;
      subs := map[];
      Drain(draining, reason);
      reg.Deregister(device, this);
    }

    /** Closes the subscriptions taken out of the map, in any order. */
    method Drain(draining: map<string, Subscription>, reason: nat)
      requires forall run :: run in draining ==> draining[run].run == run && !draining[run].closed
      modifies draining.Values, reg`byRun
      ensures forall run :: run in draining ==> draining[run].Value() == Ended(old(draining[run].Value()), reason)
    {
      var left := draining.Keys;
      while left != {}
        invariant left <= draining.Keys
        invariant forall r :: r in left ==> unchanged(draining[r])
        invariant forall r :: r in draining && r !in left ==>
                    draining[r].Value() == Ended(old(draining[r].Value()), reason)
        decreases left
      {
        var run :| run in left;
        var sub := draining[run];
        assert forall r :: r in draining && r != run ==> draining[r] != sub;
        CloseOne(sub, reason);
        left := left - {run};
      }
    }

    method CloseOne(sub: Subscription, reason: nat)
      modifies sub, reg`byRun
      ensures sub.Value() == Ended(old(sub.Value()), reason)
    {
      sub.CloseForSession(reason);
      reg.DetachRun(sub.run);
    }
  }
}
