/** One subscriber channel: what may enter it, how it closes, and what its reader can rely on. */
module Subscriptions {
  import opened Basics

  datatype Kind = Data | Error | Done

  /** A frame of one run; `body` stands for its payload. */
  datatype Frame = Frame(run: string, kind: Kind, body: nat)

  datatype Failure = SessionClosed | SubscriberOverflow

  /**
   * A subscription with its history: `offered` are the frames dispatched to it, `delivered` those of them
   * that entered the channel, `synthetic` the closing pair, and `taken` what the reader has received.
   */
  datatype Sub = Sub(
    run: string, durable: bool, buffer: seq<Frame>, closed: bool, err: Option<Failure>,
    offered: seq<Frame>, delivered: seq<Frame>, synthetic: seq<Frame>, taken: seq<Frame>)

  function Capacity(durable: bool): nat {
    if durable then 256 else 32
  }

  function Fresh(run: string, durable: bool): Sub {
    Sub(run, durable, [], false, None, [], [], [], [])
  }

  function Shut(sub: Sub, err: Option<Failure>): Sub {
    if sub.closed then sub else sub.(closed := true, err := err)
  }

  /** Dispatch of one frame: a non-blocking send whose refusal fails a durable subscription. */
  function Offer(sub: Sub, f: Frame): (after: Sub)
    ensures after.offered == sub.offered + [f] && after.run == sub.run && after.synthetic == sub.synthetic
  {
    var seen := sub.(offered := sub.offered + [f]);
    if |sub.buffer| < Capacity(sub.durable) then
      var sent := seen.(buffer := sub.buffer + [f], delivered := sub.delivered + [f]);
      if f.kind.Done? then Shut(sent, None) else sent
    else if sub.durable then Shut(seen, Some(SubscriberOverflow))
    else if f.kind.Done? then Shut(seen, None)
    else seen
  }

  function PutSynthetic(sub: Sub, f: Frame): Sub {
    if |sub.buffer| < Capacity(sub.durable)
    then sub.(buffer := sub.buffer + [f], synthetic := sub.synthetic + [f]) else sub
  }

  function ErrorFrame(run: string, reason: nat): Frame {
    Frame(run, Error, reason)
  }

  function DoneFrame(run: string): Frame {
    Frame(run, Done, 0)
  }

  /** As much of the closing error and done as the channel has room for. */
  function WithTail(sub: Sub, reason: nat): Sub {
    PutSynthetic(PutSynthetic(sub, ErrorFrame(sub.run, reason)), DoneFrame(sub.run))
  }

  /** A subscription its session has closed. */
  function Ended(sub: Sub, reason: nat): Sub {
    if sub.closed then sub else Shut(if sub.durable then sub else WithTail(sub, reason), Some(SessionClosed))
  }

  /** A best-effort reader with two places free learns both the reason and the end, with one the reason only. */
  lemma EndedTells(sub: Sub, reason: nat)
    requires !sub.closed && |sub.buffer| <= 32
    ensures
      var after, tail := Ended(sub, reason), [Frame(sub.run, Error, reason), Frame(sub.run, Done, 0)];
      && after.closed && after.err == Some(SessionClosed)
      && after.buffer == sub.buffer +
           if sub.durable || |sub.buffer| == 32 then [] else if |sub.buffer| == 31 then tail[..1] else tail
  {
    if !sub.durable && |sub.buffer| < 31 {
      assert sub.buffer + [ErrorFrame(sub.run, reason)] + [DoneFrame(sub.run)] ==
        sub.buffer + [ErrorFrame(sub.run, reason), DoneFrame(sub.run)];
    }
  }

  function Take(sub: Sub): Sub {
    if sub.buffer == [] then sub
    else sub.(buffer := sub.buffer[1..], taken := sub.taken + [sub.buffer[0]])
  }

  // ----- what a reader can rely on -----

  predicate Subsequence(a: seq<Frame>, b: seq<Frame>) {
    if a == [] then true
    else if b == [] then false
    else if a[|a| - 1] == b[|b| - 1] && Subsequence(a[..|a| - 1], b[..|b| - 1]) then true
    else Subsequence(a, b[..|b| - 1])
  }

  /** Everything that ever entered the channel. */
  function Entered(sub: Sub): seq<Frame> {
    sub.delivered + sub.synthetic
  }

  predicate NothingLost(sub: Sub) {
    sub.taken + sub.buffer == Entered(sub) && |sub.buffer| <= Capacity(sub.durable)
  }

  /** A gap-free prefix of what was dispatched, short of it exactly when the subscription overflowed. */
  predicate DurablePromise(sub: Sub) {
    && sub.synthetic == []
    && sub.delivered <= sub.offered
    && (sub.err == Some(SubscriberOverflow) <==> sub.delivered != sub.offered)
    && |sub.offered| <= |sub.delivered| + 1
  }

  /** An ordered selection of what was dispatched, then at most the session's error and done. */
  predicate BestEffortPromise(sub: Sub) {
    && Subsequence(sub.delivered, sub.offered)
    && sub.err != Some(SubscriberOverflow)
    && (sub.closed && sub.synthetic != [] ==> sub.err == Some(SessionClosed))
    && ClosingTail(sub.synthetic)
  }

  /** Some of an error followed by a done. */
  predicate ClosingTail(frames: seq<Frame>) {
    || frames == []
    || (|frames| == 1 && (frames[0].kind.Error? || frames[0].kind.Done?))
    || (|frames| == 2 && frames[0].kind.Error? && frames[1].kind.Done?)
  }

  predicate ErrorAtMost(frames: seq<Frame>) {
    frames == [] || (|frames| == 1 && frames[0].kind.Error?)
  }

  predicate SubInv(sub: Sub) {
    && NothingLost(sub)
    && (!sub.closed ==> sub.err.None?)
    && (if sub.durable then DurablePromise(sub) else BestEffortPromise(sub))
    && (forall i :: 0 <= i < |sub.offered| ==> sub.offered[i].run == sub.run)
    && (forall i :: 0 <= i < |sub.offered| && sub.offered[i].kind.Done? ==> sub.closed && i == |sub.offered| - 1)
  }

  lemma FreshInv(run: string, durable: bool)
    ensures SubInv(Fresh(run, durable))
  {
  }

  lemma OfferLosesNothing(sub: Sub, f: Frame)
    requires NothingLost(sub) && !sub.closed && sub.synthetic == []
    ensures NothingLost(Offer(sub, f))
  {
    if |sub.buffer| < Capacity(sub.durable) {
      assert sub.taken + (sub.buffer + [f]) == sub.taken + sub.buffer + [f];
    }
  }

  lemma OfferKeepsBestEffort(sub: Sub, f: Frame)
    requires BestEffortPromise(sub) && !sub.closed && !sub.durable && sub.err.None? && sub.synthetic == []
    ensures BestEffortPromise(Offer(sub, f))
  {
    var after := Offer(sub, f);
    assert after.offered[..|after.offered| - 1] == sub.offered;
    assert after.delivered != sub.delivered ==> after.delivered[..|after.delivered| - 1] == sub.delivered;
  }

  lemma OfferKeeps(sub: Sub, f: Frame)
    requires SubInv(sub) && !sub.closed && sub.synthetic == [] && f.run == sub.run
    ensures SubInv(Offer(sub, f))
  {
    OfferLosesNothing(sub, f);
    if !sub.durable {
      OfferKeepsBestEffort(sub, f);
    }
    forall i | 0 <= i < |sub.offered| + 1
      ensures
        var after := Offer(sub, f);
        after.offered[i].run == sub.run && (after.offered[i].kind.Done? ==> after.closed && i == |sub.offered|)
    {
    }
  }

  lemma TakeKeeps(sub: Sub)
    requires SubInv(sub)
    ensures SubInv(Take(sub))
    ensures Take(sub).taken + Take(sub).buffer == sub.taken + sub.buffer
  {
    if sub.buffer != [] {
      assert sub.buffer == [sub.buffer[0]] + sub.buffer[1..];
    }
  }

  /** The error goes first, so the tail it starts is one of the allowed ones. */
  lemma PutErrorKeeps(sub: Sub, reason: nat)
    requires SubInv(sub) && !sub.closed && !sub.durable && sub.synthetic == []
    ensures SubInv(PutSynthetic(sub, ErrorFrame(sub.run, reason)))
    ensures ErrorAtMost(PutSynthetic(sub, ErrorFrame(sub.run, reason)).synthetic)
  {
    var f := ErrorFrame(sub.run, reason);
    PutKeepsAll(sub, f);
    assert sub.synthetic + [f] == [f];
  }

  lemma PutDoneKeeps(sub: Sub)
    requires SubInv(sub) && !sub.closed && !sub.durable && ErrorAtMost(sub.synthetic)
    ensures SubInv(PutSynthetic(sub, DoneFrame(sub.run)))
  {
    var f := DoneFrame(sub.run);
    PutKeepsAll(sub, f);
  }

  lemma PutKeepsAll(sub: Sub, f: Frame)
    requires NothingLost(sub)
    ensures NothingLost(PutSynthetic(sub, f))
  {
    if |sub.buffer| < Capacity(sub.durable) {
      assert sub.taken + (sub.buffer + [f]) == (sub.taken + sub.buffer) + [f];
      assert sub.delivered + (sub.synthetic + [f]) == Entered(sub) + [f];
    }
  }

  lemma ShutKeeps(sub: Sub, err: Option<Failure>)
    requires SubInv(sub) && err != Some(SubscriberOverflow) && (sub.synthetic == [] || err == Some(SessionClosed))
    ensures SubInv(Shut(sub, err)) && Shut(sub, err).closed
  {
  }
}
