/** Owner leases across pods: who may act for a device when several sessions believe they own it. */
module Fencing {
  import opened Basics

  /** The store's row for one device. */
  datatype Row = Row(pod: string, generation: nat)

  /** A session's lease; `order` numbers the claims, so the highest is the newest. */
  datatype Lease = Lease(pod: string, generation: nat, order: nat)

  /** Where a session's read loop stands; the claims counted when it read and when it renewed ride along. */
  datatype Loop = Reading | Read(frame: nat, readAt: nat) | Renewed(frame: nat, readAt: nat, renewedAt: nat) | Ended

  /** Closing runs beside the read loop and does not stop a frame already read. */
  datatype Shutdown = Open | Closed | Released

  datatype Session = Session(lease: Lease, loop: Loop, shutdown: Shutdown)

  datatype Dispatched = Dispatched(session: nat, order: nat, frame: nat, readAt: nat, renewedAt: nat)

  /**
   * Generations either come from a counter that outlives the row, as the lease's contract says, or from the
   * row itself, as the store's own statements compute them: deleting the row then starts over at 1.
   */
  datatype Policy = Counter | FromRow

  datatype State = State(
    policy: Policy, row: Option<Row>, claims: nat, sessions: map<nat, Session>, dispatched: seq<Dispatched>)

  function Start(policy: Policy): State {
    State(policy, None, 0, map[], [])
  }

  datatype Action =
    | Claim(id: nat, pod: string)
    | ReadFrame(id: nat, frame: nat)
    | Renew(id: nat, reachable: bool)
    | Dispatch(id: nat)
    | Close(id: nat)
    | Release(id: nat, reachable: bool)

  function NextGeneration(s: State): nat {
    if s.policy.Counter? then s.claims + 1
    else if s.row.None? then 1
    else s.row.value.generation + 1
  }

  predicate Holds(s: State, lease: Lease) {
    s.row == Some(Row(lease.pod, lease.generation))
  }

  function Put(s: State, id: nat, session: Session): State {
    s.(sessions := s.sessions[id := session])
  }

  function Step(s: State, a: Action): State {
    if a.Claim? then
      if a.id in s.sessions then s
      else
        var lease := Lease(a.pod, NextGeneration(s), s.claims + 1);
        Put(s, a.id, Session(lease, Reading, Open)).(row := Some(Row(a.pod, lease.generation)), claims := s.claims + 1)
    else if a.id !in s.sessions then s
    else
      var x := s.sessions[a.id];
      match a
      case ReadFrame(id, frame) =>
        if x.loop.Reading? && x.shutdown.Open? then Put(s, id, x.(loop := Read(frame, s.claims))) else s
      case Renew(id, reachable) =>
        if !x.loop.Read? then s
        else if !reachable || !Holds(s, x.lease)
        then Put(s, id, x.(loop := Ended, shutdown := if x.shutdown.Open? then Closed else x.shutdown))
        else Put(s, id, x.(loop := Renewed(x.loop.frame, x.loop.readAt, s.claims)))
      case Dispatch(id) =>
        if !x.loop.Renewed? then s
        else
          var record := Dispatched(id, x.lease.order, x.loop.frame, x.loop.readAt, x.loop.renewedAt);
          Put(s, id, x.(loop := Reading)).(dispatched := s.dispatched + [record])
      case Close(id) => if x.shutdown.Open? then Put(s, id, x.(shutdown := Closed)) else s
      case Release(id, reachable) =>
        if !x.shutdown.Closed? then s
        else Put(s, id, x.(shutdown := Released)).(row := if reachable && Holds(s, x.lease) then None else s.row)
      case Claim(_, _) => s
  }

  function Run(s: State, actions: seq<Action>): State
    decreases |actions|
  {
    if actions == [] then s else Run(Step(s, actions[0]), actions[1..])
  }

  // ----- what holds under either policy -----

  predicate LeaseOk(s: State, id: nat)
    requires id in s.sessions
  {
    var session := s.sessions[id];
    && 1 <= session.lease.order <= s.claims
    && (s.policy.Counter? ==> session.lease.generation == session.lease.order)
    && (session.loop.Read? ==> session.loop.readAt <= s.claims)
    && (session.loop.Renewed? ==> session.loop.readAt <= session.loop.renewedAt <= s.claims)
  }

  /** The row, while there is one, is the newest claim's. */
  predicate Inv(s: State) {
    && (forall id :: id in s.sessions ==> LeaseOk(s, id))
    && (s.row.Some? && s.policy.Counter? ==> s.row.value.generation == s.claims)
    && (s.row.Some? ==> s.claims > 0)
  }

  lemma StepKeeps(s: State, a: Action)
    requires Inv(s)
    ensures Inv(Step(s, a))
  {
    var s' := Step(s, a);
    forall id | id in s'.sessions ensures LeaseOk(s', id) {
      assert id in s.sessions ==> LeaseOk(s, id);
    }
  }

  lemma {:induction false} RunKeeps(s: State, actions: seq<Action>)
    requires Inv(s)
    ensures Inv(Run(s, actions)) && Run(s, actions).policy == s.policy
    decreases |actions|
  {
    if actions != [] {
      StepKeeps(s, actions[0]);
      RunKeeps(Step(s, actions[0]), actions[1..]);
    }
  }

  // ----- fencing -----

  /** A session that may still renew or release. */
  predicate Live(session: Session) {
    !session.shutdown.Released? || session.loop.Read?
  }

  predicate Stale(s: State, id: nat)
    requires id in s.sessions
  {
    s.sessions[id].lease.order < s.claims
  }

  /** No live session but the newest one matches the row. */
  predicate Fenced(s: State) {
    forall id :: id in s.sessions && Live(s.sessions[id]) && Stale(s, id) ==> !Holds(s, s.sessions[id].lease)
  }

  /** The frame was dispatched by the session whose claim was the newest when it renewed, after reading it. */
  predicate Proper(d: Dispatched) {
    d.readAt <= d.renewedAt == d.order
  }

  predicate AllProper(s: State) {
    && (forall i :: 0 <= i < |s.dispatched| ==> Proper(s.dispatched[i]))
    && (forall id :: id in s.sessions && s.sessions[id].loop.Renewed? ==>
          s.sessions[id].loop.renewedAt == s.sessions[id].lease.order)
  }

  /** With a counter the fence always stands. */
  lemma CounterFences(s: State)
    requires Inv(s) && s.policy.Counter?
    ensures Fenced(s)
  {
    forall id | id in s.sessions && Live(s.sessions[id]) && Stale(s, id) ensures !Holds(s, s.sessions[id].lease) {
      assert LeaseOk(s, id);
    }
  }

  lemma StepProper(s: State, a: Action)
    requires Inv(s) && Fenced(s) && AllProper(s)
    ensures AllProper(Step(s, a))
  {
    if a.Renew? && a.id in s.sessions {
      assert LeaseOk(s, a.id);
    }
    if a.Dispatch? && a.id in s.sessions {
      assert LeaseOk(s, a.id);
    }
  }

  /** Only the newest owner's release frees a fenced row. */
  lemma ReleaseSparesTheNewest(s: State, id: nat, reachable: bool)
    requires Inv(s) && Fenced(s) && id in s.sessions && s.sessions[id].shutdown.Closed?
    ensures Step(s, Release(id, reachable)).row != s.row ==> !Stale(s, id)
  {
  }

  lemma {:induction false} RunProper(s: State, actions: seq<Action>)
    requires Inv(s) && s.policy.Counter? && AllProper(s)
    ensures AllProper(Run(s, actions))
    decreases |actions|
  {
    if actions != [] {
      CounterFences(s);
      StepProper(s, actions[0]);
      StepKeeps(s, actions[0]);
      RunProper(Step(s, actions[0]), actions[1..]);
    }
  }

  /**
   * Under the contract, in every run: every dispatched frame followed a renewal, made after reading it, at the
   * then newest claim, so no frame read after a newer claim is dispatched by an older session; and a stale
   * session's release never removes the newer owner.
   */
  lemma ContractFences(actions: seq<Action>)
    ensures
      var s := Run(Start(Counter), actions);
      && (forall i :: 0 <= i < |s.dispatched| ==> Proper(s.dispatched[i]))
      && (forall id, reachable :: id in s.sessions && s.sessions[id].shutdown.Closed? && Stale(s, id) ==>
            Step(s, Release(id, reachable)).row == s.row)
  {
    var s := Run(Start(Counter), actions);
    RunProper(Start(Counter), actions);
    RunKeeps(Start(Counter), actions);
    CounterFences(s);
    forall id, reachable | id in s.sessions && s.sessions[id].shutdown.Closed? && Stale(s, id)
      ensures Step(s, Release(id, reachable)).row == s.row
    {
      ReleaseSparesTheNewest(s, id, reachable);
    }
  }

  /** The newest claim holds the row until its own session releases it. */
  predicate NewestHolds(s: State) {
    forall id :: id in s.sessions && !Stale(s, id) && !s.sessions[id].shutdown.Released? ==>
      Holds(s, s.sessions[id].lease)
  }

  /** Claims are numbered apart. */
  predicate OrdersApart(s: State) {
    forall a, b :: a in s.sessions && b in s.sessions && a != b ==>
      s.sessions[a].lease.order != s.sessions[b].lease.order
  }

  lemma StepNewestHolds(s: State, a: Action)
    requires Inv(s) && Fenced(s) && NewestHolds(s) && OrdersApart(s)
    ensures NewestHolds(Step(s, a)) && OrdersApart(Step(s, a))
  {
    if a.Claim? {
      ClaimIsNewest(s, a.id, a.pod);
    } else if a.id in s.sessions && a.Release? {
      ReleaseKeepsNewest(s, a.id, a.reachable);
    }
  }

  lemma ClaimIsNewest(s: State, id: nat, pod: string)
    requires Inv(s) && NewestHolds(s) && OrdersApart(s)
    ensures NewestHolds(Step(s, Claim(id, pod))) && OrdersApart(Step(s, Claim(id, pod)))
  {
    assert forall x :: x in s.sessions ==> LeaseOk(s, x);
  }

  lemma ReleaseKeepsNewest(s: State, id: nat, reachable: bool)
    requires Inv(s) && Fenced(s) && NewestHolds(s) && OrdersApart(s) && id in s.sessions
    ensures NewestHolds(Step(s, Release(id, reachable)))
  {
    var s' := Step(s, Release(id, reachable));
    if s'.row != s.row {
      ReleaseSparesTheNewest(s, id, reachable);
      assert forall x :: x in s'.sessions ==> LeaseOk(s, x);
      assert forall x :: x in s'.sessions && x != id ==> Stale(s', x);
    }
  }

  lemma {:induction false} RunNewestHolds(s: State, actions: seq<Action>)
    requires Inv(s) && s.policy.Counter? && NewestHolds(s) && OrdersApart(s)
    ensures NewestHolds(Run(s, actions)) && OrdersApart(Run(s, actions))
    decreases |actions|
  {
    if actions != [] {
      CounterFences(s);
      StepNewestHolds(s, actions[0]);
      StepKeeps(s, actions[0]);
      RunNewestHolds(Step(s, actions[0]), actions[1..]);
    }
  }

  /**
   * Under the contract the fence stops nobody it should not: in every run the newest session, until it releases its
   * lease, holds the row, and whatever frame it has read it renews for and dispatches.
   */
  lemma NewestSessionGetsThrough(actions: seq<Action>, id: nat)
    requires id in Run(Start(Counter), actions).sessions && !Stale(Run(Start(Counter), actions), id)
    requires !Run(Start(Counter), actions).sessions[id].shutdown.Released?
    ensures
      var s := Run(Start(Counter), actions);
      var x := s.sessions[id];
      && Holds(s, x.lease)
      && (x.loop.Read? ==>
            var s' := Step(Step(s, Renew(id, true)), Dispatch(id));
            s'.dispatched == s.dispatched + [Dispatched(id, s.claims, x.loop.frame, x.loop.readAt, s.claims)])
      && (x.loop.Reading? && x.shutdown.Open? ==> forall frame ::
            Step(s, ReadFrame(id, frame)).sessions[id].loop == Read(frame, s.claims))
  {
    var s := Run(Start(Counter), actions);
    RunNewestHolds(Start(Counter), actions);
    RunKeeps(Start(Counter), actions);
    assert LeaseOk(s, id);
  }

  // ----- generations taken from the row -----

  /** What a pod could check before claiming: nobody still live holds the lease the claim is about to hand out. */
  predicate ClaimIsSafe(s: State, pod: string) {
    forall id :: id in s.sessions && Live(s.sessions[id]) ==>
      !(s.sessions[id].lease.pod == pod && s.sessions[id].lease.generation == NextGeneration(s))
  }

  /** Exactly the safe claims leave the fence standing. */
  lemma FencedExactlyAfterSafeClaims(s: State, id: nat, pod: string)
    requires Inv(s) && id !in s.sessions
    ensures Fenced(Step(s, Claim(id, pod))) <==> ClaimIsSafe(s, pod)
  {
    var s' := Step(s, Claim(id, pod));
    if !ClaimIsSafe(s, pod) {
      var x :| x in s.sessions && Live(s.sessions[x])
        && s.sessions[x].lease.pod == pod && s.sessions[x].lease.generation == NextGeneration(s);
      assert LeaseOk(s, x) && s'.sessions[x] == s.sessions[x];
      assert Stale(s', x) && Holds(s', s'.sessions[x].lease);
    }
    if ClaimIsSafe(s, pod) {
      forall x | x in s'.sessions && Live(s'.sessions[x]) && Stale(s', x) ensures !Holds(s', s'.sessions[x].lease) {
        assert x != id;
      }
    }
  }

  /** Nothing but a claim can break the fence. */
  lemma OtherStepsKeepTheFence(s: State, a: Action)
    requires Inv(s) && Fenced(s) && !a.Claim?
    ensures Fenced(Step(s, a))
  {
  }

  predicate AllClaimsSafe(s: State, actions: seq<Action>)
    decreases |actions|
  {
    actions == [] ||
    ((actions[0].Claim? && actions[0].id !in s.sessions ==> ClaimIsSafe(s, actions[0].pod))
     && AllClaimsSafe(Step(s, actions[0]), actions[1..]))
  }

  /** Under either policy, a run whose every claim was safe dispatches properly to the end. */
  lemma {:induction false} SafeClaimsFence(s: State, actions: seq<Action>)
    requires Inv(s) && Fenced(s) && AllProper(s) && AllClaimsSafe(s, actions)
    ensures Fenced(Run(s, actions)) && AllProper(Run(s, actions))
    decreases |actions|
  {
    if actions != [] {
      StepKeeps(s, actions[0]);
      StepProper(s, actions[0]);
      if actions[0].Claim? {
        if actions[0].id !in s.sessions {
          FencedExactlyAfterSafeClaims(s, actions[0].id, actions[0].pod);
        }
      } else {
        OtherStepsKeepTheFence(s, actions[0]);
      }
      SafeClaimsFence(Step(s, actions[0]), actions[1..]);
    }
  }

  /** From here the session can free the row, or have a frame it already read pass its renewal. */
  predicate CanIntrude(s: State, id: nat) {
    id in s.sessions &&
    (Run(s, [Close(id), Release(id, true)]).row.None?
     || (s.sessions[id].loop.Read? && Step(s, Renew(id, true)).sessions[id].loop.Renewed?))
  }

  /** A claim is unsafe exactly when it leaves some stale session able to intrude on the new owner. */
  lemma UnsafeClaimsLetStaleSessionsIntrude(s: State, id: nat, pod: string)
    requires Inv(s) && id !in s.sessions
    ensures !ClaimIsSafe(s, pod) <==>
      var s' := Step(s, Claim(id, pod));
      exists x :: x in s'.sessions && Stale(s', x) && CanIntrude(s', x)
  {
    var s' := Step(s, Claim(id, pod));
    forall x | x in s.sessions
      ensures Stale(s', x)
      ensures CanIntrude(s', x) <==>
        Live(s.sessions[x]) && s.sessions[x].lease.pod == pod && s.sessions[x].lease.generation == NextGeneration(s)
    {
      assert LeaseOk(s, x);
      TwoSteps(s', Close(x), Release(x, true));
    }
  }

  lemma TwoSteps(s: State, a: Action, b: Action)
    ensures Run(s, [a, b]) == Step(Step(s, a), b)
  {
    assert [a, b][1..] == [b] && [b][1..] == [];
    assert Run(Step(s, a), [b]) == Run(Step(Step(s, a), b), [b][1..]);
  }

  /**
   * The store's own statements do let an unsafe claim happen: a first session on one pod is superseded from
   * another, that one leaves and deletes the row, and the device returns to the first pod under generation 1
   * again. The first session's release then removes the third session's row.
   */
  lemma DeletedRowsForgetGenerations()
    ensures
      var s := Run(Start(FromRow), [Claim(1, "a"), Claim(2, "b"), Close(2), Release(2, true)]);
      var s' := Step(s, Claim(3, "a"));
      && !ClaimIsSafe(s, "a")
      && Holds(s', s'.sessions[3].lease) && Stale(s', 1)
      && Run(s', [Close(1), Release(1, true)]).row.None?
  {
    var s1 := Step(Start(FromRow), Claim(1, "a"));
    var s2 := Step(s1, Claim(2, "b"));
    TwoSteps(Start(FromRow), Claim(1, "a"), Claim(2, "b"));
    TwoSteps(s2, Close(2), Release(2, true));
    var actions := [Claim(1, "a"), Claim(2, "b"), Close(2), Release(2, true)];
    assert actions[1..] == [Claim(2, "b"), Close(2), Release(2, true)];
    assert actions[1..][1..] == [Close(2), Release(2, true)];
    var s := Run(Start(FromRow), actions);
    assert s == Run(s1, actions[1..]) == Run(s2, actions[1..][1..]);
    var s' := Step(s, Claim(3, "a"));
    assert s.row.None? && s.sessions[1].lease == Lease("a", 1, 1);
    TwoSteps(s', Close(1), Release(1, true));
  }
}
