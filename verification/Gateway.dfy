/** Sessions, their subscriptions and the registry together: every interleaving of their locked regions. */
module Gateway {
  import opened Basics
  import opened Subscriptions
  import opened Registries

  datatype Phase = Open | Marked | Closing | Finished

  /** How far the closing session has got with one of its former subscriptions. */
  datatype Stage = SendError | SendDone | CloseChannel | Detach

  /** In its session's map, in the hands of the closing session, or neither. */
  datatype Place = Current | Draining(stage: Stage) | Gone

  datatype Session = Session(device: string, phase: Phase, subs: map<string, nat>, dispatched: seq<Frame>)

  /** A subscription, its session, and the stretch of the session's frames it was current for. */
  datatype Owned = Owned(sub: Sub, session: nat, from: nat, until: nat, place: Place)

  datatype Caller = Caller(device: string, leaving: bool, got: Option<nat>)

  datatype State = State(
    index: Index<nat>, sessions: map<nat, Session>, subs: map<nat, Owned>, callers: map<nat, Caller>, panicked: bool)

  const EMPTY := State(Index(map[], map[], map[], map[], map[], map[]), map[], map[], map[], false)

  datatype Action =
    | Connect(session: nat, device: string)
    | Subscribe(session: nat, run: string, durable: bool, id: nat)
    | Unsubscribe(session: nat, run: string)
    | Dispatch(session: nat, frame: Frame)
    | Consume(id: nat)
    | MarkClosed(session: nat)
    | SwapOut(session: nat)
    | DrainOne(id: nat, reason: nat)
    | Deregister(session: nat)
    | Wait(device: string, channel: nat)
    | Receive(channel: nat)
    | GiveUp(channel: nat)
    | RemoveWaiter(channel: nat)

  function DoSubscribe(s: State, n: nat, run: string, durable: bool, id: nat): State {
    if n !in s.sessions || run == "" || id in s.subs || !s.sessions[n].phase.Open? then s
    else
      var left := if run in s.sessions[n].subs then Leave(s, n, run, Some(SessionClosed)) else s;
      Join(left, n, run, durable, id)
  }

  /** Shuts a current subscription and takes it out of its session's map. */
  function Leave(s: State, n: nat, run: string, err: Option<Failure>): State
    requires n in s.sessions && run in s.sessions[n].subs
  {
    var session := s.sessions[n];
    var id := session.subs[run];
    if id !in s.subs then s
    else
      var o := s.subs[id];
      s.(subs := s.subs[id := o.(sub := Shut(o.sub, err), until := |session.dispatched|, place := Gone)],
         sessions := s.sessions[n := session.(subs := session.subs - {run})])
  }

  function Join(s: State, n: nat, run: string, durable: bool, id: nat): State
    requires n in s.sessions
  {
    var session := s.sessions[n];
    var now := |session.dispatched|;
    s.(subs := s.subs[id := Owned(Fresh(run, durable), n, now, now, Current)],
       sessions := s.sessions[n := session.(subs := session.subs[run := id])],
       index := s.index.(byRun := s.index.byRun[run := n]))
  }

  function DoUnsubscribe(s: State, n: nat, run: string): State {
    if n !in s.sessions then s
    else
      var left := if run in s.sessions[n].subs then Leave(s, n, run, None) else s;
      left.(index := s.index.(byRun := s.index.byRun - {run}))
  }

  function DoDispatch(s: State, n: nat, f: Frame): State {
    if n !in s.sessions || f.run == "" then s
    else
      var noted := Noted(s, n, f);
      if f.run in noted.sessions[n].subs && noted.sessions[n].subs[f.run] in s.subs then Hand(noted, n, f) else noted
  }

  /** The frame joins the session's history. */
  function Noted(s: State, n: nat, f: Frame): (s': State)
    requires n in s.sessions
    ensures n in s'.sessions
  {
    s.(sessions := s.sessions[n := s.sessions[n].(dispatched := s.sessions[n].dispatched + [f])])
  }

  /** The frame goes to its run's current subscription, which leaves the map if that closed it. */
  function Hand(s: State, n: nat, f: Frame): State
    requires n in s.sessions && f.run in s.sessions[n].subs && s.sessions[n].subs[f.run] in s.subs
  {
    var session := s.sessions[n];
    var id := session.subs[f.run];
    var o := s.subs[id];
    var sub := Offer(o.sub, f);
    // A send on a closed channel would be fatal.
    var sent := s.(panicked := s.panicked || o.sub.closed);
    if sub.closed then
      sent.(subs := s.subs[id := o.(sub := sub, until := |session.dispatched|, place := Gone)],
            sessions := s.sessions[n := session.(subs := session.subs - {f.run})],
            index := s.index.(byRun := s.index.byRun - {f.run}))
    else sent.(subs := s.subs[id := o.(sub := sub)])
  }

  function DoSwapOut(s: State, n: nat): State {
    if n !in s.sessions || !s.sessions[n].phase.Marked? then s
    else
      var session := s.sessions[n];
      s.(sessions := s.sessions[n := session.(phase := Closing, subs := map[])],
         subs := map id | id in s.subs :: SwappedOut(s.subs[id], n, |session.dispatched|))
  }

  function SwappedOut(o: Owned, n: nat, now: nat): Owned {
    if o.session == n && o.place.Current? then o.(place := Draining(SendError), until := now) else o
  }

  function DoDrain(s: State, id: nat, reason: nat): State {
    if id !in s.subs || !s.subs[id].place.Draining? then s
    else
      var o := s.subs[id];
      if o.place.stage.Detach?
      then s.(subs := s.subs[id := o.(place := Gone)], index := s.index.(byRun := s.index.byRun - {o.sub.run}))
      else
        var (sub, stage) := DrainSub(o.sub, o.place.stage, reason);
        s.(subs := s.subs[id := o.(sub := sub, place := Draining(stage))],
           panicked := s.panicked || (o.place.stage.SendDone? && o.sub.closed))
  }

  /** One channel operation of closing a subscription; its reader may run between any two. */
  function DrainSub(sub: Sub, stage: Stage, reason: nat): (next: (Sub, Stage))
    ensures next.0.run == sub.run && next.0.offered == sub.offered
  {
    match stage
    case SendError =>
      if sub.closed then (sub, Detach)
      else if sub.durable then (sub, CloseChannel)
      else (PutSynthetic(sub, ErrorFrame(sub.run, reason)), SendDone)
    case SendDone => (PutSynthetic(sub, DoneFrame(sub.run)), CloseChannel)
    case CloseChannel => (Shut(sub, Some(SessionClosed)), Detach)
    case Detach => (sub, Detach)
  }

  predicate Drained(s: State, n: nat) {
    forall id :: id in s.subs && s.subs[id].session == n ==> !s.subs[id].place.Draining?
  }

  function DoDeregister(s: State, n: nat): State {
    if n !in s.sessions || !s.sessions[n].phase.Closing? || !Drained(s, n) then s
    else s.(sessions := s.sessions[n := s.sessions[n].(phase := Finished)],
            index := Deregistered(s.index, s.sessions[n].device, n))
  }

  function DoWait(s: State, device: string, channel: nat): State {
    if device == "" || channel in s.index.slots || device in s.index.byDevice then s
    else s.(index := Enlisted(s.index, device, channel), callers := s.callers[channel := Caller(device, false, None)])
  }

  function DoReceive(s: State, channel: nat): State {
    if channel !in s.callers || s.callers[channel].leaving then s
    else if channel !in s.index.slots || s.index.slots[channel].None? then s
    else s.(index := s.index.(slots := s.index.slots[channel := None]),
            callers := s.callers[channel := s.callers[channel].(leaving := true, got := s.index.slots[channel])])
  }

  function DoRemoveWaiter(s: State, channel: nat): State {
    if channel !in s.callers || !s.callers[channel].leaving then s
    else s.(index := Unlisted(s.index, s.callers[channel].device, channel), callers := s.callers - {channel})
  }

  function Step(s: State, a: Action): State {
    match a
    case Connect(n, device) =>
      if n in s.sessions || device == "" then s
      else s.(sessions := s.sessions[n := Session(device, Open, map[], [])], index := Registered(s.index, device, n))
    case Subscribe(n, run, durable, id) => DoSubscribe(s, n, run, durable, id)
    case Unsubscribe(n, run) => DoUnsubscribe(s, n, run)
    case Dispatch(n, f) => DoDispatch(s, n, f)
    case Consume(id) => if id in s.subs then s.(subs := s.subs[id := s.subs[id].(sub := Take(s.subs[id].sub))]) else s
    case MarkClosed(n) =>
      if n in s.sessions && s.sessions[n].phase.Open?
      then s.(sessions := s.sessions[n := s.sessions[n].(phase := Marked)]) else s
    case SwapOut(n) => DoSwapOut(s, n)
    case DrainOne(id, reason) => DoDrain(s, id, reason)
    case Deregister(n) => DoDeregister(s, n)
    case Wait(device, channel) => DoWait(s, device, channel)
    case Receive(channel) => DoReceive(s, channel)
    case GiveUp(channel) =>
      if channel in s.callers then s.(callers := s.callers[channel := s.callers[channel].(leaving := true)]) else s
    case RemoveWaiter(channel) => DoRemoveWaiter(s, channel)
  }

  function Run(s: State, actions: seq<Action>): State
    decreases |actions|
  {
    if actions == [] then s else Run(Step(s, actions[0]), actions[1..])
  }

  // ----- what every state keeps -----

  function ForRun(frames: seq<Frame>, run: string): seq<Frame> {
    if frames == [] then []
    else if frames[|frames| - 1].run == run then ForRun(frames[..|frames| - 1], run) + [frames[|frames| - 1]]
    else ForRun(frames[..|frames| - 1], run)
  }

  /** Every subscription keeps its own promises. */
  predicate Sound(s: State) {
    forall id :: id in s.subs ==> SubInv(s.subs[id].sub)
  }

  predicate PlaceOk(s: State, id: nat)
    requires id in s.subs
  {
    var o := s.subs[id];
    && o.session in s.sessions
    && var session := s.sessions[o.session];
       match o.place
       case Current =>
         o.sub.run in session.subs && session.subs[o.sub.run] == id && !o.sub.closed && o.sub.synthetic == []
       case Draining(stage) => session.phase.Closing? && StageOk(o.sub, stage)
       case Gone => o.sub.closed && (o.sub.synthetic != [] ==> session.phase.Closing? || session.phase.Finished?)
  }

  predicate StageOk(sub: Sub, stage: Stage) {
    match stage
    case SendError => !sub.closed && sub.synthetic == []
    case SendDone => !sub.closed && !sub.durable && ErrorAtMost(sub.synthetic)
    case CloseChannel => !sub.closed
    case Detach => sub.closed
  }

  predicate MapOk(s: State, n: nat, run: string)
    requires n in s.sessions && run in s.sessions[n].subs
  {
    var id := s.sessions[n].subs[run];
    && !s.sessions[n].phase.Closing? && !s.sessions[n].phase.Finished?
    && id in s.subs && s.subs[id].session == n && s.subs[id].sub.run == run && s.subs[id].place.Current?
  }

  /** The maps and the subscriptions' places agree, and only open channels are ever sent on. */
  predicate Placed(s: State) {
    && !s.panicked
    && (forall id :: id in s.subs ==> PlaceOk(s, id))
    && (forall n, run :: n in s.sessions && run in s.sessions[n].subs ==> MapOk(s, n, run))
  }

  /** What the session dispatched for the run while the subscription was the current one. */
  function Share(s: State, id: nat): seq<Frame>
    requires id in s.subs && s.subs[id].session in s.sessions
  {
    var o := s.subs[id];
    var frames := s.sessions[o.session].dispatched;
    var until := if o.place.Current? then |frames| else o.until;
    if o.from <= until <= |frames| then ForRun(frames[o.from..until], o.sub.run) else []
  }

  predicate ShareOk(s: State, id: nat)
    requires id in s.subs
  {
    var o := s.subs[id];
    && o.session in s.sessions
    && o.from <= o.until <= |s.sessions[o.session].dispatched|
    && o.sub.offered == Share(s, id)
  }

  predicate Shared(s: State) {
    forall id :: id in s.subs ==> ShareOk(s, id)
  }

  /** A run's entry names a session that still holds the subscription or is closing. */
  predicate RunEntryOk(s: State, run: string)
    requires run in s.index.byRun
  {
    var n := s.index.byRun[run];
    n in s.sessions && (run in s.sessions[n].subs || s.sessions[n].phase.Closing?)
  }

  predicate DeviceEntryOk(s: State, device: string)
    requires device in s.index.byDevice
  {
    var n := s.index.byDevice[device];
    n in s.sessions && s.sessions[n].device == device && !s.sessions[n].phase.Finished?
  }

  predicate IndexInv(s: State) {
    && (forall run :: run in s.index.byRun ==> RunEntryOk(s, run))
    && (forall device :: device in s.index.byDevice ==> DeviceEntryOk(s, device))
  }

  /** Listed channels belong to callers of that device, are empty, and are listed once; the device is absent. */
  predicate ListOk(s: State, device: string)
    requires device in s.index.waiters
  {
    var channels := s.index.waiters[device];
    && device !in s.index.byDevice && channels != [] && Distinct(channels)
    && forall c :: c in channels ==>
         c in s.callers && s.callers[c].device == device && c in s.index.slots && s.index.slots[c].None?
  }

  /** Nobody waits in vain: a waiting caller is listed or has its session at hand. */
  predicate CallerOk(s: State, c: nat)
    requires c in s.callers
  {
    && c in s.index.slots
    && (!s.callers[c].leaving ==>
      c in Listed(s.index, s.callers[c].device)
      || (s.index.slots[c].Some? && s.index.slots[c].value in s.sessions
          && s.sessions[s.index.slots[c].value].device == s.callers[c].device))
  }

  predicate WaitInv(s: State) {
    && (forall device :: device in s.index.waiters ==> ListOk(s, device))
    && (forall c :: c in s.callers ==> CallerOk(s, c))
  }
}
