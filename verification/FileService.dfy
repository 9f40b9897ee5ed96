/** The bounded file service: one native operation at a time, and an owner that stops when an outcome is unknown. */
module FileService {
  import opened Basics

  /** What happened for one connection, known by its number. */
  datatype Event = Started(op: nat) | Settled(op: nat) | Responded(op: nat) | Declined(op: nat)

  /** How reading the request line ended. */
  datatype Header = TimedOut | Broken | Refused | Query | Upload

  /** How the wait for the native operation ended. */
  datatype Native = Deadline | Unsettled | Rejected | Value

  /** Everything outside the service's control during one turn of its loop, with the cancellations each select sees. */
  datatype Turn = Turn(
    stopAtAccept: bool, acceptFails: bool, credentialFails: bool, foreignUser: bool,
    stopAtHeader: bool, header: Header, stopAtBody: bool, bodyComplete: bool,
    native: Native, encodeFails: bool, stopAtResponse: bool, delivered: bool)

  datatype ConnectionResult = Error | Outcome(settled: bool)

  /** Pending: the turns ran out while the service was still waiting. */
  datatype ServiceResult = Ok | Failed | Pending

  // ----- the log -----

  predicate SettledIn(log: seq<Event>, op: nat) {
    Settled(op) in log
  }

  /** An operation starts only when every earlier one has settled, and answers follow settlement. */
  predicate Orderly(log: seq<Event>) {
    && (forall k :: 0 <= k < |log| && log[k].Started? ==>
          forall j :: 0 <= j < k && log[j].Started? ==> log[j].op < log[k].op && SettledIn(log[..k], log[j].op))
    && (forall k :: 0 <= k < |log| && log[k].Responded? ==> SettledIn(log[..k], log[k].op))
  }

  predicate AllSettled(log: seq<Event>) {
    forall k :: 0 <= k < |log| && log[k].Started? ==> SettledIn(log, log[k].op)
  }

  /** The last thing that happened is that an operation started, and it never settled. */
  predicate Abandoned(log: seq<Event>) {
    log != [] && log[|log| - 1].Started? && !SettledIn(log, log[|log| - 1].op)
  }

  predicate Below(log: seq<Event>, next: nat) {
    forall k :: 0 <= k < |log| ==> log[k].op < next
  }

  lemma StartKeeps(log: seq<Event>, op: nat)
    requires Orderly(log) && AllSettled(log) && Below(log, op)
    ensures Orderly(log + [Started(op)]) && Below(log + [Started(op)], op + 1) && Abandoned(log + [Started(op)])
  {
    var log' := log + [Started(op)];
    assert log'[..|log|] == log;
    forall k | 0 <= k < |log| ensures log'[..k] == log[..k] {
    }
    assert Settled(op) !in log' by {
      forall k | 0 <= k < |log'| ensures log'[k] != Settled(op) {
        assert k < |log| ==> log[k].op < op;
      }
    }
  }

  lemma SettleKeeps(log: seq<Event>, op: nat)
    requires Orderly(log) && AllSettled(log)
    ensures Orderly(log + [Started(op)]) ==>
      Orderly(log + [Started(op), Settled(op)]) && AllSettled(log + [Started(op), Settled(op)])
  {
    var log', log'' := log + [Started(op)], log + [Started(op), Settled(op)];
    assert log'' == log' + [Settled(op)] && log''[|log| + 1] == Settled(op);
    forall k | 0 <= k <= |log'| ensures log''[..k] == log'[..k] {
    }
    forall k | 0 <= k < |log''| && log''[k].Started? ensures SettledIn(log'', log''[k].op) {
      if k < |log| {
        assert log''[k] == log[k] && SettledIn(log, log[k].op);
        assert forall e :: e in log ==> e in log'';
      }
    }
  }

  lemma RespondKeeps(log: seq<Event>, op: nat)
    requires Orderly(log) && AllSettled(log) && SettledIn(log, op)
    ensures Orderly(log + [Responded(op)]) && AllSettled(log + [Responded(op)])
  {
    var log' := log + [Responded(op)];
    forall k | 0 <= k <= |log| ensures log'[..k] == log[..k] {
    }
    forall k | 0 <= k < |log'| && log'[k].Started? ensures SettledIn(log', log'[k].op) {
      assert log'[k] == log[k] && SettledIn(log, log[k].op);
      assert forall e :: e in log ==> e in log';
    }
  }

  /** Declining a request is an answer without an operation. */
  lemma DeclineKeeps(log: seq<Event>, op: nat)
    requires Orderly(log) && AllSettled(log) && Below(log, op)
    ensures
      var declined := log + [Declined(op)];
      Orderly(declined) && AllSettled(declined) && Below(declined, op + 1)
  {
    var declined := log + [Declined(op)];
    forall k | 0 <= k <= |log| ensures declined[..k] == log[..k] {
    }
    forall k | 0 <= k < |declined| && declined[k].Started? ensures SettledIn(declined, declined[k].op) {
      assert declined[k] == log[k] && SettledIn(log, log[k].op);
      assert forall e :: e in log ==> e in declined;
    }
  }

  /** The three shapes one operation can leave the log in. */
  lemma OperationKeeps(log: seq<Event>, op: nat)
    requires Orderly(log) && AllSettled(log) && Below(log, op)
    ensures
      var started, settled := log + [Started(op)], log + [Started(op), Settled(op)];
      var responded := log + [Started(op), Settled(op), Responded(op)];
      && Orderly(started) && Abandoned(started) && Below(started, op + 1)
      && Orderly(settled) && AllSettled(settled) && Below(settled, op + 1)
      && Orderly(responded) && AllSettled(responded) && Below(responded, op + 1)
  {
    StartKeeps(log, op);
    SettleKeeps(log, op);
    var settled := log + [Started(op), Settled(op)];
    assert settled[|log| + 1] == Settled(op);
    RespondKeeps(settled, op);
    assert settled + [Responded(op)] == log + [Started(op), Settled(op), Responded(op)];
  }

  /** Whether this turn got as far as a native operation. */
  predicate Admitted(t: Turn) {
    !t.stopAtHeader && (t.header.Query? || (t.header.Upload? && !t.stopAtBody && t.bodyComplete))
  }

  /** The native operation's outcome became known. */
  predicate Known(t: Turn) {
    t.native.Rejected? || t.native.Value?
  }

  predicate Answers(t: Turn) {
    !t.encodeFails && !t.stopAtResponse && t.delivered
  }

  /** What one connection leaves in the log. */
  function Entry(t: Turn, op: nat): seq<Event> {
    if Admitted(t) then
      if !Known(t) then [Started(op)]
      else if Answers(t) then [Started(op), Settled(op), Responded(op)]
      else [Started(op), Settled(op)]
    else if !t.stopAtHeader && t.header.Refused? && Answers(t) then [Declined(op)]
    else []
  }

  // ----- whole services -----

  predicate Accepted(t: Turn) {
    !t.stopAtAccept && !t.acceptFails && !t.credentialFails
  }

  /** What one turn of the loop leaves: nothing for other users. */
  function Left(t: Turn, op: nat): seq<Event> {
    if Accepted(t) && !t.foreignUser then Entry(t, op) else []
  }

  /** The loop goes on after this turn. */
  predicate Passes(t: Turn) {
    Accepted(t) && (t.foreignUser || !Admitted(t) || Known(t))
  }

  predicate Reached(turns: seq<Turn>, i: nat) {
    i <= |turns| && forall j :: 0 <= j < i ==> Passes(turns[j])
  }

  /** The turn was reached, its connection accepted, and it comes from the service's own user. */
  predicate Served(turns: seq<Turn>, i: nat) {
    i < |turns| && Reached(turns, i) && Accepted(turns[i]) && !turns[i].foreignUser
  }

  /** The log with everything the turns leave in it, in order. */
  function Trace(log: seq<Event>, turns: seq<Turn>, first: nat): seq<Event> {
    if turns == [] then log
    else
      var last := |turns| - 1;
      Trace(log, turns[..last], first) + if Reached(turns, last) then Left(turns[last], first + last) else []
  }

  /** The event is what its turn leaves, and the turn is served. */
  predicate HeldBy(turns: seq<Turn>, first: nat, e: Event) {
    first <= e.op && Served(turns, e.op - first) && e in Entry(turns[e.op - first], e.op)
  }

  lemma HeldOneMore(turns: seq<Turn>, first: nat, e: Event)
    requires turns != []
    ensures
      var last := |turns| - 1;
      HeldBy(turns, first, e) <==>
        HeldBy(turns[..last], first, e) || (Reached(turns, last) && e in Left(turns[last], first + last))
  {
  }

  /** The log holds of each turn exactly what that turn leaves if it is served. */
  lemma {:induction false} TraceHolds(log: seq<Event>, turns: seq<Turn>, first: nat, e: Event)
    ensures e in Trace(log, turns, first) <==> e in log || HeldBy(turns, first, e)
  {
    if turns != [] {
      TraceHolds(log, turns[..|turns| - 1], first, e);
      HeldOneMore(turns, first, e);
    }
  }

  /** Once a turn ends the loop, later ones leave nothing. */
  lemma {:induction false} TraceStops(log: seq<Event>, turns: seq<Turn>, first: nat, k: nat)
    requires 0 < k <= |turns| && !Passes(turns[k - 1])
    ensures Trace(log, turns, first) == Trace(log, turns[..k], first)
  {
    if k < |turns| {
      var last := |turns| - 1;
      assert turns[..last][..k] == turns[..k];
      TraceStops(log, turns[..last], first, k);
      assert !Reached(turns, last);
      assert Trace(log, turns[..last], first) + [] == Trace(log, turns[..last], first);
    } else {
      assert turns[..k] == turns;
    }
  }

  lemma TraceOneMore(log: seq<Event>, turns: seq<Turn>, first: nat, i: nat)
    requires i < |turns| && Reached(turns, i)
    ensures Trace(log, turns[..i + 1], first) == Trace(log, turns[..i], first) + Left(turns[i], first + i)
    ensures !Passes(turns[i]) ==> Trace(log, turns, first) == Trace(log, turns[..i + 1], first)
  {
    assert turns[..i + 1][..i] == turns[..i];
    if !Passes(turns[i]) {
      TraceStops(log, turns, first, i + 1);
    }
  }

  /** How the accept loop ends: told to stop at a turn it reached, failed there, or still waiting. */
  function Ending(turns: seq<Turn>): ServiceResult {
    if exists i :: 0 <= i < |turns| && Reached(turns, i) && turns[i].stopAtAccept then Ok
    else if Reached(turns, |turns|) then Pending
    else Failed
  }

  lemma EndsHere(turns: seq<Turn>, i: nat)
    requires i < |turns| && Reached(turns, i) && !Passes(turns[i])
    ensures Ending(turns) == if turns[i].stopAtAccept then Ok else Failed
  {
    assert forall k :: 0 <= k < |turns| && Reached(turns, k) ==> k <= i;
  }

  class Service {
    var log: seq<Event>
    var next: nat

    constructor ()
      ensures Valid() && AllSettled(log) && log == [] && next == 0
    {
      log, next := [], 0;
    }

    predicate Valid()
      reads this
    {
      Orderly(log) && Below(log, next)
    }

    /** One connection: an unknown outcome is reported as such and answers nobody; an error hides no operation. */
    method Exchange(t: Turn) returns (result: ConnectionResult)
      requires Valid() && AllSettled(log)
      modifies this
      ensures Valid() && next == old(next) + 1 && log == old(log) + Entry(t, old(next))
      ensures result == Outcome(false) <==> Admitted(t) && !Known(t)
      ensures result == Outcome(false) ==> Abandoned(log)
      ensures result != Outcome(false) ==> AllSettled(log)
    {
      var op := next;
      next := next + 1;
      assert log + [] == log;
      if t.stopAtHeader {
        return Outcome(true);
      }
      if t.header.TimedOut? {
        return Outcome(true);
      }
      if t.header.Broken? {
        return Error;
      }
      if t.header.Refused? {
        result := Decline(t, op);
        return;
      }
      if t.header.Upload? && (t.stopAtBody || !t.bodyComplete) {
        return Outcome(true);
      }
      result := Operate(t, op);
    }

    /** The answer to a refused request concerns no operation. */
    method Decline(t: Turn, op: nat) returns (result: ConnectionResult)
      requires Orderly(log) && AllSettled(log) && Below(log, op)
      modifies this`log
      ensures Orderly(log) && AllSettled(log) && Below(log, op + 1) && result != Outcome(false)
      ensures log == old(log) + if Answers(t) then [Declined(op)] else []
    {
      assert log + [] == log;
      if t.encodeFails {
        return Error;
      }
      if !t.stopAtResponse && t.delivered {
        DeclineKeeps(log, op);
        log := log + [Declined(op)];
      }
      return Outcome(true);
    }

    /** From admission on only this owner holds the operation; nothing cancels its wait. */
    method Operate(t: Turn, op: nat) returns (result: ConnectionResult)
      requires Orderly(log) && AllSettled(log) && Below(log, op) && Admitted(t)
      modifies this`log
      ensures Orderly(log) && Below(log, op + 1) && log == old(log) + Entry(t, op)
      ensures result == Outcome(false) <==> !Known(t)
      ensures result == Outcome(false) ==> Abandoned(log)
      ensures result != Outcome(false) ==> AllSettled(log)
    {
      ghost var before := log;
      OperationKeeps(before, op);
      log := log + [Started(op)];
      if t.native.Deadline? || t.native.Unsettled? {
        return Outcome(false);
      }
      log := log + [Settled(op)];
      assert log == before + [Started(op), Settled(op)];
      if t.encodeFails {
        return Error;
      }
      if !t.stopAtResponse && t.delivered {
        log := log + [Responded(op)];
        assert log == before + [Started(op), Settled(op), Responded(op)];
      }
      return Outcome(true);
    }

    /**
     * The accept loop: an operation is started exactly for the admitted requests of the service's own user on the
     * turns it reaches, in order, and each whose outcome becomes known is answered if it can be. Connection errors are
     * ignored, an unsettled operation ends the loop with an error and nothing after it, and it ends well only when
     * told to stop with nothing outstanding.
     */
    method Serve(stopAtPublish: bool, published: bool, turns: seq<Turn>) returns (result: ServiceResult)
      requires Valid() && AllSettled(log)
      modifies this
      ensures Valid()
      ensures AllSettled(log) || (Abandoned(log) && result == Failed)
      ensures result == if stopAtPublish then Ok else if !published then Failed else Ending(turns)
      ensures log == if stopAtPublish || !published then old(log) else Trace(old(log), turns, old(next))
    {
      if stopAtPublish {
        return Ok;
      }
      if !published {
        return Failed;
      }
      result := AcceptAll(turns);
    }

    method AcceptAll(turns: seq<Turn>) returns (result: ServiceResult)
      requires Valid() && AllSettled(log)
      modifies this
      ensures Valid() && result == Ending(turns) && log == Trace(old(log), turns, old(next))
      ensures AllSettled(log) || (Abandoned(log) && result == Failed)
    {
      ghost var before, first := log, next;
      assert turns[..0] == [];
      for i := 0 to |turns|
        invariant Valid() && AllSettled(log) && Reached(turns, i) && next == first + i
        invariant log == Trace(before, turns[..i], first)
      {
        TraceOneMore(before, turns, first, i);
        var ending := TakeTurn(turns[i], Trace(before, turns[..i + 1], first));
        if ending.Some? {
          EndsHere(turns, i);
          return ending.value;
        }
      }
      assert turns[..|turns|] == turns;
      return Pending;
    }

    /** One turn of the loop: other users' connections are dropped, and an unsettled operation ends the service. */
    method TakeTurn(t: Turn, ghost after: seq<Event>) returns (ending: Option<ServiceResult>)
      requires Valid() && AllSettled(log) && after == log + Left(t, next)
      modifies this
      ensures Valid() && log == after
      ensures ending.None? <==> Passes(t)
      ensures ending.None? ==> AllSettled(log) && next == old(next) + 1
      ensures ending.Some? ==> ending.value == if t.stopAtAccept then Ok else Failed
      ensures ending.Some? ==> AllSettled(log) || (Abandoned(log) && ending.value == Failed)
    {
      assert log + [] == log;
      if t.stopAtAccept {
        return Some(Ok);
      }
      if t.acceptFails || t.credentialFails {
        return Some(Failed);
      }
      if t.foreignUser {
        next := next + 1;
        return None;
      }
      var outcome := Exchange(t);
      return if outcome.Outcome? && !outcome.settled then Some(Failed) else None;
    }
  }

  /** An operation is started exactly for the served and admitted turns, and answered exactly if it can be. */
  lemma OperationsAreThoseServed(log: seq<Event>, turns: seq<Turn>, first: nat, i: nat)
    requires Below(log, first)
    ensures
      var trace := Trace(log, turns, first);
      && (Started(first + i) in trace <==> Served(turns, i) && Admitted(turns[i]))
      && (Settled(first + i) in trace <==> Served(turns, i) && Admitted(turns[i]) && Known(turns[i]))
      && (Responded(first + i) in trace <==>
            Served(turns, i) && Admitted(turns[i]) && Known(turns[i]) && Answers(turns[i]))
  {
    NewHolds(log, turns, first, Started(first + i));
    NewHolds(log, turns, first, Settled(first + i));
    NewHolds(log, turns, first, Responded(first + i));
    if i < |turns| {
      EntryHolds(turns[i], first + i);
    }
  }

  lemma NewHolds(log: seq<Event>, turns: seq<Turn>, first: nat, e: Event)
    requires Below(log, first) && first <= e.op
    ensures e in Trace(log, turns, first) <==> HeldBy(turns, first, e)
  {
    TraceHolds(log, turns, first, e);
  }

  lemma EntryHolds(t: Turn, op: nat)
    ensures Started(op) in Entry(t, op) <==> Admitted(t)
    ensures Settled(op) in Entry(t, op) <==> Admitted(t) && Known(t)
    ensures Responded(op) in Entry(t, op) <==> Admitted(t) && Known(t) && Answers(t)
  {
  }

  /** Whatever other users send, nothing happens for them. */
  lemma {:induction false} ForeignersLeaveNothing(log: seq<Event>, turns: seq<Turn>, first: nat)
    requires forall i :: 0 <= i < |turns| ==> turns[i].foreignUser
    ensures Trace(log, turns, first) == log
  {
    if turns != [] {
      ForeignersLeaveNothing(log, turns[..|turns| - 1], first);
      assert log + [] == log;
    }
  }

  /** Before anyone cancels the token no select sees a cancellation. */
  function Uncancelled(turns: seq<Turn>): seq<Turn> {
    seq(|turns|, i requires 0 <= i < |turns| =>
      turns[i].(stopAtAccept := false, stopAtHeader := false, stopAtBody := false, stopAtResponse := false))
  }

  datatype First = RunnerFirst(runnerOk: bool) | FilesFirst

  /**
   * The owner: cancels the service when the runner ends and waits for it. It succeeds only if the runner did
   * and no native operation is left unsettled; the service ending first is never a success.
   */
  method Supervise(service: Service, first: First, stopAtPublish: bool, published: bool, turns: seq<Turn>)
    returns (result: ServiceResult)
    requires service.Valid() && AllSettled(service.log)
    modifies service
    ensures service.Valid()
    ensures result == Ok ==> first == RunnerFirst(true) && AllSettled(service.log)
    ensures first.RunnerFirst? ==>
      var files := if stopAtPublish then Ok else if !published then Failed else Ending(turns);
      result == if files == Ok && !first.runnerOk then Failed else files
    ensures !AllSettled(service.log) ==> result == Failed && Abandoned(service.log)
  {
    if first.FilesFirst? {
      result := service.Serve(false, published, Uncancelled(turns));
      return;
    }
    var files := service.Serve(stopAtPublish, published, turns);
    if files != Ok {
      return files;
    }
    return if first.runnerOk then Ok else Failed;
  }
}
