/** Preparation streams: private status channels, each about one handle, that a terminal status ends. */
module Preparations {
  import opened Basics

  const CAPACITY: nat := 16
  const MAX_STREAMS: nat := 64

  datatype Phase = Rejected | Progress | Started | Released | Expired | Failed

  datatype Status = Status(phase: Phase, handle: string, revision: nat)

  datatype Failure = SessionClosed | SubscriberOverflow

  predicate Terminal(phase: Phase) {
    phase.Started? || phase.Released? || phase.Expired? || phase.Failed?
  }

  /** A stream with its history: `sent` is everything that entered the channel, `taken` what was read. */
  datatype Stream = Stream(
    request: string, buffer: seq<Status>, closed: bool, err: Option<Failure>, handle: string, revision: nat,
    sent: seq<Status>, taken: seq<Status>, refused: Option<Status>)

  function NewStream(request: string): Stream {
    Stream(request, [], false, None, "", 0, [], [], None)
  }

  function Shut(p: Stream, err: Option<Failure>): Stream {
    if p.closed then p else p.(closed := true, err := err)
  }

  /** A rejection always passes; anything else must name the handle and a higher revision. */
  predicate Admits(p: Stream, status: Status) {
    status.phase.Rejected?
    || (status.handle != "" && (p.handle == "" || p.handle == status.handle)
        && status.revision != 0 && status.revision > p.revision)
  }

  function Offer(p: Stream, status: Status): Stream {
    if !Admits(p, status) then p
    else
      var noted := if status.phase.Rejected? then p else p.(handle := status.handle, revision := status.revision);
      if |p.buffer| < CAPACITY then
        var put := noted.(buffer := p.buffer + [status], sent := p.sent + [status]);
        if Terminal(status.phase) then Shut(put, None) else put
      else Shut(noted.(refused := Some(status)), Some(SubscriberOverflow))
  }

  function Take(p: Stream): Stream {
    if p.buffer == [] then p else p.(buffer := p.buffer[1..], taken := p.taken + [p.buffer[0]])
  }

  // ----- what a reader can rely on -----

  predicate OneHandle(p: Stream) {
    forall i :: 0 <= i < |p.sent| && !p.sent[i].phase.Rejected? ==>
      p.sent[i].handle != "" && p.sent[i].handle == p.handle && 0 < p.sent[i].revision <= p.revision
  }

  predicate Rising(sent: seq<Status>) {
    forall i, j :: 0 <= i < j < |sent| && !sent[i].phase.Rejected? && !sent[j].phase.Rejected? ==>
      sent[i].revision < sent[j].revision
  }

  predicate NothingAfterTerminal(p: Stream) {
    forall i :: 0 <= i < |p.sent| && Terminal(p.sent[i].phase) ==> i == |p.sent| - 1 && p.closed
  }

  predicate StreamInv(p: Stream) {
    && p.taken + p.buffer == p.sent && |p.buffer| <= CAPACITY
    && OneHandle(p) && Rising(p.sent) && NothingAfterTerminal(p)
    && (!p.closed ==> p.err.None? && p.refused.None?)
    && (p.err == Some(SubscriberOverflow) <==> p.refused.Some?)
  }

  lemma OfferKeeps(p: Stream, status: Status)
    requires StreamInv(p) && !p.closed
    ensures StreamInv(Offer(p, status))
  {
    var after := Offer(p, status);
    if after.sent != p.sent {
      assert after.sent == p.sent + [status];
      assert p.taken + (p.buffer + [status]) == p.sent + [status];
      forall i, j | 0 <= i < j < |after.sent| && !after.sent[i].phase.Rejected? && !after.sent[j].phase.Rejected?
        ensures after.sent[i].revision < after.sent[j].revision
      {
        assert after.sent[i] == p.sent[i];
      }
    }
  }

  lemma TakeKeeps(p: Stream)
    requires StreamInv(p)
    ensures StreamInv(Take(p))
  {
    if p.buffer != [] {
      assert p.taken + [p.buffer[0]] + p.buffer[1..] == p.taken + p.buffer;
    }
  }

  // ----- all streams of a session, under every interleaving -----

  /** The session's list of open requests, and every stream there ever was. */
  datatype Books = Books(sessionClosed: bool, drained: bool, preparations: map<string, nat>, streams: map<nat, Stream>)

  const EMPTY := Books(false, false, map[], map[])

  function DoSubscribe(b: Books, id: string, number: nat): Books {
    if number in b.streams || b.sessionClosed || id == "" then b
    else if id in b.preparations || |b.preparations| >= MAX_STREAMS then b
    else b.(preparations := b.preparations[id := number], streams := b.streams[number := NewStream(id)])
  }

  /** Replaces a listed stream, and takes its request off the list if it is now closed. */
  function Replace(b: Books, id: string, p: Stream): Books
    requires id in b.preparations
  {
    b.(streams := b.streams[b.preparations[id] := p],
       preparations := if p.closed then b.preparations - {id} else b.preparations)
  }

  function DoUnsubscribe(b: Books, id: string): Books {
    if id !in b.preparations || b.preparations[id] !in b.streams then b
    else Replace(b, id, Shut(b.streams[b.preparations[id]], None))
  }

  function DoDispatch(b: Books, id: string, status: Option<Status>): Books {
    if status.None? || id !in b.preparations || b.preparations[id] !in b.streams then b
    else Replace(b, id, Offer(b.streams[b.preparations[id]], status.value))
  }

  function DoConsume(b: Books, number: nat): Books {
    if number !in b.streams then b else b.(streams := b.streams[number := Take(b.streams[number])])
  }

  predicate Lists(b: Books, n: nat)
    requires n in b.streams
  {
    b.streams[n].request in b.preparations && b.preparations[b.streams[n].request] == n
  }

  /** Some time after it was marked closed, the session shuts every listed stream and lists none any more. */
  function DoClose(b: Books): Books {
    if !b.sessionClosed then b
    else
      var shut := map n | n in b.streams ::
        if Lists(b, n) then Shut(b.streams[n], Some(SessionClosed)) else b.streams[n];
      Books(true, true, map[], shut)
  }

  datatype Action =
    | Subscribe(id: string, number: nat)
    | Unsubscribe(id: string)
    | Dispatch(id: string, status: Option<Status>)
    | Consume(number: nat)
    | MarkClosed
    | Close

  function Step(b: Books, a: Action): Books {
    match a
    case Subscribe(id, number) => DoSubscribe(b, id, number)
    case Unsubscribe(id) => DoUnsubscribe(b, id)
    case Dispatch(id, status) => DoDispatch(b, id, status)
    case Consume(number) => DoConsume(b, number)
    case MarkClosed => b.(sessionClosed := true)
    case Close => DoClose(b)
  }

  function Run(b: Books, actions: seq<Action>): Books
    decreases |actions|
  {
    if actions == [] then b else Run(Step(b, actions[0]), actions[1..])
  }

  predicate Sound(b: Books) {
    forall n :: n in b.streams ==> StreamInv(b.streams[n])
  }

  /** A request is listed exactly while its stream is open. */
  predicate Listed(b: Books) {
    && (forall id :: id in b.preparations ==>
         var n := b.preparations[id];
         n in b.streams && b.streams[n].request == id && !b.streams[n].closed)
    && (forall n :: n in b.streams && !b.streams[n].closed ==>
         b.streams[n].request in b.preparations && b.preparations[b.streams[n].request] == n)
    && |b.preparations| <= MAX_STREAMS
    && (b.drained ==> b.sessionClosed && b.preparations == map[])
  }

  lemma ReplaceSound(b: Books, id: string, p: Stream)
    requires Sound(b) && id in b.preparations && StreamInv(p)
    ensures Sound(Replace(b, id, p))
  {
  }

  lemma CloseSound(b: Books)
    requires Sound(b)
    ensures Sound(DoClose(b))
  {
    forall n | n in b.streams ensures StreamInv(DoClose(b).streams[n]) {
      assert StreamInv(b.streams[n]);
    }
  }

  lemma StepSound(b: Books, a: Action)
    requires Sound(b) && Listed(b)
    ensures Sound(Step(b, a))
  {
    match a
    case Subscribe(_, _) =>
    case Unsubscribe(id) =>
      if id in b.preparations { ReplaceSound(b, id, Shut(b.streams[b.preparations[id]], None)); }
    case Dispatch(id, status) =>
      if status.Some? && id in b.preparations {
        OfferKeeps(b.streams[b.preparations[id]], status.value);
        ReplaceSound(b, id, Offer(b.streams[b.preparations[id]], status.value));
      }
    case Consume(number) => if number in b.streams { TakeKeeps(b.streams[number]); }
    case MarkClosed =>
    case Close => CloseSound(b);
  }

  lemma ReplaceListed(b: Books, id: string, p: Stream)
    requires Listed(b) && id in b.preparations && p.request == id
    ensures Listed(Replace(b, id, p))
  {
    var b' := Replace(b, id, p);
    if p.closed {
      assert b.preparations.Keys == b'.preparations.Keys + {id};
    }
  }

  lemma SubscribeListed(b: Books, id: string, number: nat)
    requires Listed(b)
    ensures Listed(DoSubscribe(b, id, number))
  {
    var b' := DoSubscribe(b, id, number);
    SubscribeSize(b, id, number);
    assert forall x :: x in b.preparations ==> b.preparations[x] in b.streams;
    assert b' != b ==> forall n :: n in b.streams ==> n != number && b'.streams[n] == b.streams[n];
  }

  lemma SubscribeSize(b: Books, id: string, number: nat)
    requires |b.preparations| <= MAX_STREAMS
    ensures |DoSubscribe(b, id, number).preparations| <= MAX_STREAMS
  {
    var b' := DoSubscribe(b, id, number);
    if b' != b {
      assert b'.preparations.Keys == b.preparations.Keys + {id} && |b'.preparations.Keys| == |b'.preparations|;
    }
  }

  lemma CloseListed(b: Books)
    requires Listed(b)
    ensures Listed(DoClose(b))
    ensures b.sessionClosed ==> forall n :: n in DoClose(b).streams ==> DoClose(b).streams[n].closed
  {
  }

  lemma ConsumeListed(b: Books, number: nat)
    requires Listed(b)
    ensures Listed(DoConsume(b, number))
  {
  }

  lemma StepListed(b: Books, a: Action)
    requires Listed(b)
    ensures Listed(Step(b, a))
  {
    match a
    case Subscribe(id, number) => SubscribeListed(b, id, number);
    case Unsubscribe(id) =>
      if id in b.preparations { ReplaceListed(b, id, Shut(b.streams[b.preparations[id]], None)); }
    case Dispatch(id, status) =>
      if status.Some? && id in b.preparations {
        ReplaceListed(b, id, Offer(b.streams[b.preparations[id]], status.value));
      }
    case Consume(number) => ConsumeListed(b, number);
    case MarkClosed =>
    case Close => CloseListed(b);
  }

  lemma {:induction false} RunKeeps(b: Books, actions: seq<Action>)
    requires Sound(b) && Listed(b)
    ensures Sound(Run(b, actions)) && Listed(Run(b, actions))
    decreases |actions|
  {
    if actions != [] {
      StepSound(b, actions[0]);
      StepListed(b, actions[0]);
      RunKeeps(Step(b, actions[0]), actions[1..]);
    }
  }

  /**
   * In every interleaving a stream carries one handle with strictly rising revisions, rejections aside, and
   * nothing after a terminal status; it ends in overflow exactly when a status found it full; and only
   * open streams, at most 64, are listed to be sent to.
   */
  lemma StreamsKeepTheirPromises(actions: seq<Action>)
    ensures
      var b := Run(EMPTY, actions);
      && (forall n :: n in b.streams ==> StreamInv(b.streams[n]))
      && (forall id :: id in b.preparations ==>
            b.preparations[id] in b.streams && !b.streams[b.preparations[id]].closed)
      && |b.preparations| <= MAX_STREAMS
  {
    RunKeeps(EMPTY, actions);
  }

  /** Once the closing session has drained the list, every stream there is or ever will be is shut. */
  lemma NothingOutlivesTheSession(actions: seq<Action>)
    ensures
      var b := Run(EMPTY, actions);
      b.drained ==> forall n :: n in b.streams ==> b.streams[n].closed
  {
    RunKeeps(EMPTY, actions);
  }

  // ----- what gets through -----

  /** Some status other than a rejection went into the channel. */
  predicate Spoken(p: Stream) {
    exists i :: 0 <= i < |p.sent| && !p.sent[i].phase.Rejected?
  }

  /** While the stream is open, its handle and revision are those of the latest status that is not a rejection. */
  predicate Current(p: Stream) {
    if Spoken(p) then
      exists i :: 0 <= i < |p.sent| && !p.sent[i].phase.Rejected?
                  && p.sent[i].handle == p.handle && p.sent[i].revision == p.revision
    else p.handle == "" && p.revision == 0
  }

  predicate AllCurrent(b: Books) {
    forall n :: n in b.streams && !b.streams[n].closed ==> Current(b.streams[n])
  }

  lemma OfferCurrent(p: Stream, status: Status)
    requires Current(p) && !p.closed && !Offer(p, status).closed
    ensures Current(Offer(p, status))
  {
    var after := Offer(p, status);
    if after.sent != p.sent {
      assert after.sent[|p.sent|] == status;
      assert forall i :: 0 <= i < |p.sent| ==> after.sent[i] == p.sent[i];
    }
  }

  lemma StepCurrent(b: Books, a: Action)
    requires Listed(b) && AllCurrent(b)
    ensures AllCurrent(Step(b, a))
  {
    if a.Dispatch? {
      DispatchCurrent(b, a.id, a.status);
    } else {
      QuietCurrent(b, a);
    }
  }

  lemma DispatchCurrent(b: Books, id: string, status: Option<Status>)
    requires Listed(b) && AllCurrent(b)
    ensures AllCurrent(DoDispatch(b, id, status))
  {
    if status.Some? && id in b.preparations {
      var p := b.streams[b.preparations[id]];
      if !Offer(p, status.value).closed {
        OfferCurrent(p, status.value);
      }
    }
  }

  /** Nothing but a status changes what an open stream has sent. */
  lemma QuietCurrent(b: Books, a: Action)
    requires AllCurrent(b) && !a.Dispatch?
    ensures AllCurrent(Step(b, a))
  {
    var b' := Step(b, a);
    forall n | n in b'.streams && !b'.streams[n].closed ensures Current(b'.streams[n]) {
      if n in b.streams {
        assert !b.streams[n].closed && SameNotes(b.streams[n], b'.streams[n]);
      }
    }
  }

  predicate SameNotes(p: Stream, p': Stream) {
    p'.sent == p.sent && p'.handle == p.handle && p'.revision == p.revision
  }

  lemma {:induction false} RunCurrent(b: Books, actions: seq<Action>)
    requires Listed(b) && AllCurrent(b)
    ensures AllCurrent(Run(b, actions))
    decreases |actions|
  {
    if actions != [] {
      StepCurrent(b, actions[0]);
      StepListed(b, actions[0]);
      RunCurrent(Step(b, actions[0]), actions[1..]);
    }
  }

  /** News to the reader: a rejection, or a revision of the same handle above all that were sent. */
  predicate IsNews(p: Stream, status: Status) {
    || status.phase.Rejected?
    || (&& status.handle != "" && status.revision > 0
        && forall i :: 0 <= i < |p.sent| && !p.sent[i].phase.Rejected? ==>
             p.sent[i].handle == status.handle && p.sent[i].revision < status.revision)
  }

  lemma AdmitsMeans(p: Stream, status: Status)
    requires StreamInv(p) && Current(p)
    ensures Admits(p, status) <==> IsNews(p, status)
  {
    if Spoken(p) {
      var i :| 0 <= i < |p.sent| && !p.sent[i].phase.Rejected?
               && p.sent[i].handle == p.handle && p.sent[i].revision == p.revision;
    }
  }

  /** What a status for an open stream does to it. */
  predicate Heard(p: Stream, p': Stream, status: Status) {
    && (!IsNews(p, status) ==> p' == p)
    && (IsNews(p, status) && |p.buffer| < 16 ==>
          && p'.buffer == p.buffer + [status] && p'.err.None?
          && (p'.closed <==> status.phase in {Phase.Started, Phase.Released, Phase.Expired, Phase.Failed}))
    && (IsNews(p, status) && |p.buffer| >= 16 ==>
          p'.buffer == p.buffer && p'.closed && p'.err == Some(SubscriberOverflow))
  }

  lemma OfferIsHeard(p: Stream, status: Status)
    requires StreamInv(p) && Current(p) && !p.closed
    ensures Heard(p, Offer(p, status), status)
  {
    AdmitsMeans(p, status);
  }

  /**
   * In every interleaving a status for a listed request enters its channel exactly when it is news to the reader and
   * fewer than 16 wait in it; one of the four last phases then ends the stream. News that finds it full ends it with
   * an overflow, and what is no news changes nothing.
   */
  lemma NewsGetsThrough(actions: seq<Action>, id: string, status: Status)
    requires id in Run(EMPTY, actions).preparations
    ensures
      var b := Run(EMPTY, actions);
      var n := b.preparations[id];
      var b' := Step(b, Dispatch(id, Some(status)));
      n in b.streams && n in b'.streams && Heard(b.streams[n], b'.streams[n], status)
  {
    var b := Run(EMPTY, actions);
    assert Sound(b) && Listed(b) && AllCurrent(b) by {
      RunKeeps(EMPTY, actions);
      RunCurrent(EMPTY, actions);
    }
    OfferIsHeard(b.streams[b.preparations[id]], status);
  }

  // ----- the session's own methods -----

  class Table {
    var sessionClosed: bool
    var drained: bool
    var preparations: map<string, nat>
    var streams: map<nat, Stream>

    constructor ()
      ensures Value() == EMPTY
    {
      sessionClosed, drained, preparations, streams := false, false, map[], map[];
    }

    function Value(): Books
      reads this
    {
      Books(sessionClosed, drained, preparations, streams)
    }

    method Subscribe(id: string, number: nat) returns (ok: bool)
      requires number !in streams
      modifies this
      ensures Value() == DoSubscribe(old(Value()), id, number)
      ensures ok <==> number in streams
    {
      if sessionClosed || id == "" || id in preparations || |preparations| >= MAX_STREAMS {
        return false;
      }
      preparations, streams := preparations[id := number], streams[number := NewStream(id)];
      return true;
    }

    method Unsubscribe(id: string)
      requires Listed(Value())
      modifies this
      ensures Value() == DoUnsubscribe(old(Value()), id)
    {
      if id in preparations {
        var n := preparations[id];
        streams := streams[n := Shut(streams[n], None)];
        preparations := preparations - {id};
      }
    }

    method Dispatch(id: string, status: Option<Status>)
      requires Listed(Value())
      modifies this
      ensures Value() == DoDispatch(old(Value()), id, status)
    {
      if status.None? || id !in preparations {
        return;
      }
      var n, p := preparations[id], streams[preparations[id]];
      if !status.value.phase.Rejected? {
        if status.value.handle == "" || status.value.revision == 0
           || (p.handle != "" && p.handle != status.value.handle) || status.value.revision <= p.revision {
          assert streams == streams[n := p];
          return;
        }
        p := p.(handle := status.value.handle, revision := status.value.revision);
      }
      if |p.buffer| < CAPACITY {
        p := p.(buffer := p.buffer + [status.value], sent := p.sent + [status.value]);
        if Terminal(status.value.phase) {
          p := Shut(p, None);
        }
      } else {
        p := Shut(p.(refused := Some(status.value)), Some(SubscriberOverflow));
      }
      streams := streams[n := p];
      if p.closed {
        preparations := preparations - {id};
      }
    }

    method ClosePreparations()
      requires Listed(Value()) && sessionClosed
      modifies this`drained, this`preparations, this`streams
      ensures Value() == DoClose(old(Value()))
    {
      ghost var b := old(Value());
      while preparations != map[]
        invariant preparations.Keys <= b.preparations.Keys
        invariant forall id :: id in preparations ==> preparations[id] == b.preparations[id]
        invariant streams == ShutBut(b, preparations.Keys)
        decreases preparations.Keys
      {
        var id :| id in preparations;
        ShutOneMore(b, preparations.Keys, id);
        ShutListed(id);
      }
      drained := true;
      assert ShutBut(b, {}) == DoClose(b).streams;
    }

    /** One turn of the loop. */
    method ShutListed(id: string)
      requires id in preparations && preparations[id] in streams
      modifies this`streams, this`preparations
      ensures preparations == old(preparations) - {id}
      ensures
        var n := old(preparations)[id];
        streams == old(streams)[n := Shut(old(streams)[n], Some(SessionClosed))]
    {
      var n := preparations[id];
      streams := streams[n := Shut(streams[n], Some(SessionClosed))];
      preparations := preparations - {id};
    }
  }

  /** The streams with every listed one shut but those of the given requests. */
  ghost function ShutBut(b: Books, left: set<string>): map<nat, Stream> {
    map n | n in b.streams ::
      if Lists(b, n) && b.streams[n].request !in left then Shut(b.streams[n], Some(SessionClosed)) else b.streams[n]
  }

  lemma ShutOneMore(b: Books, left: set<string>, id: string)
    requires Listed(b) && id in left && left <= b.preparations.Keys
    ensures
      var n := b.preparations[id];
      && n in b.streams && ShutBut(b, left)[n] == b.streams[n]
      && ShutBut(b, left - {id}) == ShutBut(b, left)[n := Shut(b.streams[n], Some(SessionClosed))]
  {
  }
}
