/** On a host that cooperates the calls do succeed: nothing is refused that the source would pass. */
module PlacementProgress {
  import opened Basics
  import opened Placement
  import opened PlacementController

  /** From the one operation up to the other all succeed, in a world that does not change. */
  predicate Calm(w: World, replies: seq<Reply>, from: nat, until: nat) {
    until <= |replies| && forall i :: from <= i < until ==> replies[i].ok && replies[i].world == w
  }

  /** One operation that succeeds in the world it finds. */
  lemma Proceed(s: State, next: State, replies: seq<Reply>, k: nat)
    requires k < |replies| && replies[k].ok && !s.pc.Idle? && next == Step(s, Advance(true, replies[k].answer))
    requires replies[k].world == s.world || !Evolves(s.world, replies[k].world)
    ensures Drive(s, replies[k..]) == Drive(next, replies[k + 1..])
  {
    assert replies[k..][1..] == replies[k + 1..];
  }

  /** What a completed save leaves behind. */
  function Saved(s: State): State
    requires s.pc.Saving?
  {
    var r := s.pc.r;
    var synced := s.(disk := Disk(Kept(Entry(r, true)), []));
    match s.pc.purpose
    case ForEnroll => synced.(pc := Idle, log := s.log + [EnrollReturned(r)])
    case ForStop(running) => synced.(pc := if running then Stop(r) else Reinspect(r))
    case ForRetire => synced.(pc := Idle, log := s.log + [RetireReturned(r.target)])
  }

  lemma SaveSucceeds(s: State, w: World, replies: seq<Reply>, k: nat)
    requires s.pc.Saving? && s.pc.stage == Write && Calm(w, replies, k, k + 4)
    requires w == s.world || !Evolves(s.world, w)
    ensures Drive(s, replies[k..]) == Drive(Saved(s), replies[k + 4..])
  {
    var s1 := s.(pc := s.pc.(stage := Flush));
    var s2 := s.(pc := s.pc.(stage := Rename, flushed := true));
    var s3 := s.(disk := s.disk.(renamed := s.disk.renamed + [Entry(s.pc.r, true)]),
                 pc := s.pc.(stage := Sync, flushed := true));
    Proceed(s, s1, replies, k);
    Proceed(s1, s2, replies, k + 1);
    Proceed(s2, s3, replies, k + 2);
    Proceed(s3, Saved(s), replies, k + 3);
  }

  /** Nothing the record names is alive and its group is empty. */
  predicate Cleared(w: World, r: Receipt) {
    r.target.cgroup !in w.populated && forall p :: p in Named(r) ==> (w.boot, p) !in w.live
  }

  predicate StoppedUnit(w: World, t: Target) {
    w.present && !w.unit.running && w.unit.pid == 0 && w.unit.started == t.started && w.unit.restarts == t.restarts
  }

  lemma {:induction false} ChecksSucceed(s: State, r: Receipt, at: nat, replies: seq<Reply>, k: nat, end: nat)
    requires s.pc == ProcessEvidence(r, at) && at < |Named(r)| && Cleared(s.world, r)
    requires end == k + |Named(r)| - at && Calm(s.world, replies, k, end)
    ensures Drive(s, replies[k..]) == Drive(s.(pc := Remove(r)), replies[end..])
    decreases end - k
  {
    if at + 1 < |Named(r)| {
      var next := s.(pc := ProcessEvidence(r, at + 1));
      CheckSucceeds(s, next, replies, k);
      ChecksSucceed(next, r, at + 1, replies, k + 1, end);
      assert next.(pc := Remove(r)) == s.(pc := Remove(r));
    } else {
      CheckSucceeds(s, s.(pc := Remove(r)), replies, k);
    }
  }

  lemma CheckSucceeds(s: State, next: State, replies: seq<Reply>, k: nat)
    requires s.pc.ProcessEvidence? && s.pc.k < |Named(s.pc.r)| && Cleared(s.world, s.pc.r)
    requires Calm(s.world, replies, k, k + 1)
    requires
      var r, at := s.pc.r, s.pc.k + 1;
      next == s.(pc := if at < |Named(r)| then ProcessEvidence(r, at) else Remove(r))
    ensures Drive(s, replies[k..]) == Drive(next, replies[k + 1..])
  {
    CheckPasses(s, replies[k].answer);
    Proceed(s, next, replies, k);
  }

  lemma CheckPasses(s: State, answer: Answer)
    requires s.pc.ProcessEvidence? && s.pc.k < |Named(s.pc.r)| && Cleared(s.world, s.pc.r)
    ensures
      var r, at := s.pc.r, s.pc.k + 1;
      Step(s, Advance(true, answer)) == s.(pc := if at < |Named(r)| then ProcessEvidence(r, at) else Remove(r))
  {
    assert Named(s.pc.r)[s.pc.k] in Named(s.pc.r);
  }

  function RetiredAt(r: Receipt, time: int): Receipt {
    r.(state := Retired, retiredAt := Some(time))
  }

  lemma ReinspectSucceeds(s: State, replies: seq<Reply>, k: nat)
    requires s.pc.Reinspect? && StoppedUnit(s.world, s.pc.r.target) && Calm(s.world, replies, k, k + 1)
    ensures
      var next := s.(pc := GroupEvidence(s.pc.r), log := s.log + [Reinspected(Look(s.world))]);
      Drive(s, replies[k..]) == Drive(next, replies[k + 1..])
  {
    var next := s.(pc := GroupEvidence(s.pc.r), log := s.log + [Reinspected(Look(s.world))]);
    Proceed(s, next, replies, k);
  }

  lemma GroupSucceeds(s: State, replies: seq<Reply>, k: nat)
    requires s.pc.GroupEvidence? && s.pc.r.target.cgroup !in s.world.populated && Calm(s.world, replies, k, k + 1)
    ensures
      var next := s.(pc := ProcessEvidence(s.pc.r, 0), log := s.log + [SawGroup(s.pc.r.target.cgroup, false)]);
      Drive(s, replies[k..]) == Drive(next, replies[k + 1..])
  {
    var next := s.(pc := ProcessEvidence(s.pc.r, 0), log := s.log + [SawGroup(s.pc.r.target.cgroup, false)]);
    Proceed(s, next, replies, k);
  }

  lemma RemovalSucceeds(s: State, replies: seq<Reply>, k: nat)
    requires s.pc.Remove? && s.world.present && !s.world.unit.running
    requires Calm(s.world, replies, k, k + 5) && replies[k].answer.Now?
    ensures
      var r, end := s.pc.r, Drive(s, replies[k..]);
      && end.pc == Idle && Durable(end, RetiredAt(r, replies[k].answer.time))
      && end.log == s.log + [Removed(s.id, Look(s.world)), RetireReturned(r.target)]
  {
    var r := RetiredAt(s.pc.r, replies[k].answer.time);
    var s1 := s.(world := s.world.(present := false), log := s.log + [Removed(s.id, Look(s.world))],
                 pc := Saving(r, Write, false, ForRetire));
    Proceed(s, s1, replies, k);
    SaveSucceeds(s1, s.world, replies, k + 1);
    assert Saved(s1).log == s.log + [Removed(s.id, Look(s.world)), RetireReturned(r.target)];
  }

  /** The call ended with this record synced and its retirement reported. */
  predicate EndsRetired(s: State, end: State, r: Receipt) {
    end.pc == Idle && Durable(end, r) && |s.log| < |end.log| && end.log[|end.log| - 1] == RetireReturned(r.target)
  }

  lemma EvidenceSucceeds(s: State, r: Receipt, replies: seq<Reply>, k: nat, end: nat) returns (s': State)
    requires s.pc == Reinspect(r) && StoppedUnit(s.world, r.target) && Cleared(s.world, r)
    requires end == k + 2 + |Named(r)| && Calm(s.world, replies, k, end)
    ensures s'.pc == Remove(r) && s'.world == s.world && |s.log| <= |s'.log|
    ensures Drive(s, replies[k..]) == Drive(s', replies[end..])
  {
    var s1 := s.(pc := GroupEvidence(r), log := s.log + [Reinspected(Look(s.world))]);
    var s2 := s1.(pc := ProcessEvidence(r, 0), log := s1.log + [SawGroup(r.target.cgroup, false)]);
    ReinspectSucceeds(s, replies, k);
    GroupSucceeds(s1, replies, k + 1);
    ChecksSucceed(s2, r, 0, replies, k + 2, end);
    s' := s2.(pc := Remove(r));
  }

  /** From a stopped container with nothing of it left alive, the retirement is recorded and reported. */
  lemma FinishSucceeds(s: State, replies: seq<Reply>, k: nat)
    requires s.pc.Reinspect? && StoppedUnit(s.world, s.pc.r.target) && Cleared(s.world, s.pc.r)
    requires Calm(s.world, replies, k, k + 7 + |Named(s.pc.r)|)
    requires replies[k + 2 + |Named(s.pc.r)|].answer.Now?
    ensures
      var time := replies[k + 2 + |Named(s.pc.r)|].answer.time;
      EndsRetired(s, Drive(s, replies[k..]), RetiredAt(s.pc.r, time))
  {
    var r, end := s.pc.r, k + 2 + |Named(s.pc.r)|;
    var s' := EvidenceSucceeds(s, r, replies, k, end);
    RemovalSucceeds(s', replies, end);
  }

  /** The record loads, is not yet retired, and describes this host and the container on it. */
  predicate Recognized(s: State, scope: string, r: Receipt) {
    && s.pc.Idle? && FullId(s.id) && Load(s.id, s.disk) == Some(r) && r.environment == scope && r.state != Retired
    && s.world.boot == r.target.boot && s.world.supervisor == r.target.supervisor
    && s.world.present && SameIncarnation(s.world.unit, r.target)
  }

  /** What has been seen of a container once it was recognized. */
  function Recognition(s: State): seq<Event> {
    s.log + [SawHost(Look(s.world)), Inspected(Look(s.world), Profile(true))]
  }

  lemma RecognitionSucceeds(s: State, scope: string, replies: seq<Reply>, r: Receipt)
    requires Recognized(s, scope, r) && Calm(s.world, replies, 0, 2) && replies[1].answer == Profile(true)
    ensures
      var pc := if s.world.unit.running then CheckInit(r, s.world.unit.pid)
                else Saving(r.(state := Stopping), Write, false, ForStop(false));
      Drive(Step(s, BeginRetire(scope)), replies) == Drive(s.(pc := pc, log := Recognition(s)), replies[2..])
  {
    var s0 := s.(pc := CheckHost(r));
    var s1 := s.(pc := Inspect(r), log := s.log + [SawHost(Look(s.world))]);
    var pc := if s.world.unit.running then CheckInit(r, s.world.unit.pid)
              else Saving(r.(state := Stopping), Write, false, ForStop(false));
    assert replies[0..] == replies;
    Proceed(s0, s1, replies, 0);
    assert s1.log + [Inspected(Look(s.world), Profile(true))] == Recognition(s);
    Proceed(s1, s.(pc := pc, log := Recognition(s)), replies, 1);
  }

  /** A container found stopped is retired, its record unchanged but for the state and the time. */
  lemma StoppedContainersRetire(s: State, scope: string, replies: seq<Reply>, r: Receipt)
    requires Recognized(s, scope, r) && StoppedUnit(s.world, r.target) && Cleared(s.world, r)
    requires Calm(s.world, replies, 0, 13 + |Named(r)|)
    requires replies[1].answer == Profile(true) && replies[8 + |Named(r)|].answer.Now?
    ensures
      var end := Drive(Step(s, BeginRetire(scope)), replies);
      EndsRetired(s, end, RetiredAt(r, replies[8 + |Named(r)|].answer.time))
  {
    var stopping := r.(state := Stopping);
    var s2 := s.(log := Recognition(s), pc := Saving(stopping, Write, false, ForStop(false)));
    RecognitionSucceeds(s, scope, replies, r);
    SaveSucceeds(s2, s.world, replies, 2);
    assert Named(stopping) == Named(r);
    FinishSucceeds(Saved(s2), replies, 6);
    var time := replies[8 + |Named(r)|].answer.time;
    assert RetiredAt(stopping, time) == RetiredAt(r, time);
  }

  /** The answers a running container gives until its stopping record is written. */
  predicate Identified(s: State, r: Receipt, replies: seq<Reply>) {
    && 5 <= |replies| && replies[1].answer == Profile(true)
    && replies[2].answer == Seen([r.target.init]) && Observed(s.world, [r.target.init])
    && s.world.unit.running && 0 < s.world.unit.pid == r.target.init.pid
    && replies[3].answer == Group(r.target.cgroup)
    && replies[4].answer.Seen? && Observed(s.world, replies[4].answer.processes)
  }

  /** The record stopped on names what it named and what was just shown. */
  function StoppingOn(r: Receipt, replies: seq<Reply>): Receipt
    requires 5 <= |replies| && replies[4].answer.Seen?
  {
    r.(members := r.members + replies[4].answer.processes, state := Stopping)
  }

  lemma StopIsReached(s: State, scope: string, replies: seq<Reply>, r: Receipt) returns (s': State)
    requires Recognized(s, scope, r) && Identified(s, r, replies) && Calm(s.world, replies, 0, 10)
    ensures s'.pc == Reinspect(StoppingOn(r, replies)) && s'.world == s.world && |s.log| <= |s'.log|
    ensures Drive(Step(s, BeginRetire(scope)), replies) == Drive(s', replies[10..])
  {
    var s2 := s.(pc := CheckInit(r, s.world.unit.pid), log := Recognition(s));
    RecognitionSucceeds(s, scope, replies, r);
    IdentitySucceeds(s2, replies);
    s' := StopIsIssued(s2.(pc := AddMembers(r)), replies);
  }

  lemma IdentitySucceeds(s: State, replies: seq<Reply>)
    requires s.pc.CheckInit? && s.pc.pid == s.world.unit.pid && Identified(s, s.pc.r, replies)
    requires Calm(s.world, replies, 0, 4)
    ensures Drive(s, replies[2..]) == Drive(s.(pc := AddMembers(s.pc.r)), replies[4..])
  {
    var next := s.(pc := CheckGroup(s.pc.r));
    Proceed(s, next, replies, 2);
    Proceed(next, s.(pc := AddMembers(s.pc.r)), replies, 3);
  }

  lemma StopIsIssued(s: State, replies: seq<Reply>) returns (s': State)
    requires s.pc.AddMembers? && Calm(s.world, replies, 0, 10)
    requires replies[4].answer.Seen? && Observed(s.world, replies[4].answer.processes)
    ensures s'.pc == Reinspect(StoppingOn(s.pc.r, replies)) && s'.world == s.world && |s.log| <= |s'.log|
    ensures Drive(s, replies[4..]) == Drive(s', replies[10..])
  {
    var stopping := StoppingOn(s.pc.r, replies);
    var s5 := s.(pc := Saving(stopping, Write, false, ForStop(true)),
                 log := s.log + [SawMembers(replies[4].answer.processes)]);
    Proceed(s, s5, replies, 4);
    SaveSucceeds(s5, s.world, replies, 5);
    StopSucceeds(Saved(s5), replies, 9);
    s' := Saved(s5).(pc := Reinspect(stopping), log := Saved(s5).log + [StopIssued(stopping)]);
  }

  lemma StopSucceeds(s: State, replies: seq<Reply>, k: nat)
    requires s.pc.Stop? && Calm(s.world, replies, k, k + 1)
    ensures
      var next := s.(pc := Reinspect(s.pc.r), log := s.log + [StopIssued(s.pc.r)]);
      Drive(s, replies[k..]) == Drive(next, replies[k + 1..])
  {
    var next := s.(pc := Reinspect(s.pc.r), log := s.log + [StopIssued(s.pc.r)]);
    Proceed(s, next, replies, k);
  }

  /** A running container is stopped and, once nothing of it is left alive, retired with all it was seen to hold. */
  lemma RunningContainersRetire(s: State, scope: string, replies: seq<Reply>, r: Receipt, w': World)
    requires Recognized(s, scope, r) && Identified(s, r, replies) && Calm(s.world, replies, 0, 10)
    requires Evolves(s.world, w') && w'.boot == s.world.boot
    requires
      var stopping := StoppingOn(r, replies);
      && StoppedUnit(w', r.target) && Cleared(w', stopping)
      && Calm(w', replies, 10, 17 + |Named(stopping)|)
      && replies[12 + |Named(stopping)|].answer.Now?
    ensures
      var stopping := StoppingOn(r, replies);
      var end := Drive(Step(s, BeginRetire(scope)), replies);
      EndsRetired(s, end, RetiredAt(stopping, replies[12 + |Named(stopping)|].answer.time))
  {
    var stopping := StoppingOn(r, replies);
    var s' := StopIsReached(s, scope, replies, r);
    WorldMoves(s', w', replies, 10);
    FinishSucceeds(s'.(world := w'), replies, 10);
  }

  /** An operation answered in a changed world is the same operation begun in that world. */
  lemma WorldMoves(s: State, w': World, replies: seq<Reply>, k: nat)
    requires k < |replies| && replies[k].world == w' && !s.pc.Idle?
    requires Evolves(s.world, w') && w'.boot == s.world.boot
    ensures Drive(s, replies[k..]) == Drive(s.(world := w'), replies[k..])
  {
    assert Step(s, Outside(w')) == s.(world := w');
    assert Step(s.(world := w'), Outside(w')) == s.(world := w');
  }

  /** What enrolling a running container within the profile records of it. */
  function EnrolledAs(s: State, owner: string, workspace: string, environment: string, init: Process, cgroup: string,
                      members: seq<Process>): Receipt {
    var u := s.world.unit;
    Receipt(if environment == "" then 1 else 2, environment, Enrolled, owner,
            Target(s.world.boot, s.world.supervisor, s.id, u.created, u.started, u.restarts, u.image, workspace,
                   cgroup, init),
            members, None)
  }

  /** The unit and the host, as the first two answers of an enrolment show them. */
  function Seeing(r: Receipt, w: World): Receipt {
    var u := w.unit;
    r.(target := r.target.(created := u.created, started := u.started, restarts := u.restarts, image := u.image,
                           boot := w.boot, supervisor := w.supervisor))
  }

  lemma UnitIsEnrolled(s: State, replies: seq<Reply>)
    requires s.pc.EnrollInspect? && s.world.present && s.world.unit.running
    requires Calm(s.world, replies, 0, 2) && replies[0].answer == Profile(true)
    ensures
      var next := s.(pc := EnrollInit(Seeing(s.pc.r, s.world), s.world.unit.pid),
                     log := s.log + [Inspected(Look(s.world), Profile(true))]);
      Drive(s, replies[0..]) == Drive(next, replies[2..])
  {
    var r, u := s.pc.r, s.world.unit;
    var t := r.target.(created := u.created, started := u.started, restarts := u.restarts, image := u.image);
    var seen := s.(log := s.log + [Inspected(Look(s.world), Profile(true))]);
    var next := seen.(pc := EnrollHost(r.(target := t), u.pid));
    Proceed(s, next, replies, 0);
    Proceed(next, seen.(pc := EnrollInit(Seeing(r, s.world), u.pid)), replies, 1);
  }

  lemma GroupIsEnrolled(s: State, replies: seq<Reply>, init: Process, cgroup: string)
    requires s.pc.EnrollInit? && Calm(s.world, replies, 0, 4)
    requires replies[2].answer == Seen([init]) && 0 < s.pc.pid == init.pid && Observed(s.world, [init])
    requires replies[3].answer == Group(cgroup)
    ensures
      var next := s.(pc := EnrollMembers(s.pc.r.(target := s.pc.r.target.(init := init, cgroup := cgroup))));
      Drive(s, replies[2..]) == Drive(next, replies[4..])
  {
    var r, t := s.pc.r, s.pc.r.target.(init := init);
    var next := s.(pc := EnrollGroup(r.(target := t)));
    Proceed(s, next, replies, 2);
    Proceed(next, s.(pc := EnrollMembers(r.(target := t.(cgroup := cgroup)))), replies, 3);
  }

  lemma MembersAreEnrolled(s: State, replies: seq<Reply>, members: seq<Process>)
    requires s.pc.EnrollMembers? && Calm(s.world, replies, 0, 9)
    requires replies[4].answer == Seen(members) && members != [] && Observed(s.world, members)
    ensures
      var r, end := s.pc.r.(members := members), Drive(s, replies[4..]);
      end.pc == Idle && Durable(end, r) && |s.log| < |end.log| && end.log[|end.log| - 1] == EnrollReturned(r)
  {
    var r := s.pc.r.(members := members);
    var s5 := s.(pc := Saving(r, Write, false, ForEnroll), log := s.log + [SawMembers(members)]);
    Proceed(s, s5, replies, 4);
    SaveSucceeds(s5, s.world, replies, 5);
  }

  /** A running container without a record is enrolled, with exactly what was seen of it. */
  lemma RunningContainersEnroll(s: State, owner: string, workspace: string, environment: string, replies: seq<Reply>,
                                init: Process, cgroup: string, members: seq<Process>)
    requires s.pc.Idle? && FullId(s.id) && OwnerId(owner) && (environment == "" || CanonicalUuid(environment))
    requires Visible(s.disk).Absent? && s.world.present && s.world.unit.running
    requires Calm(s.world, replies, 0, 9) && replies[0].answer == Profile(true)
    requires replies[2].answer == Seen([init]) && 0 < s.world.unit.pid == init.pid && Observed(s.world, [init])
    requires replies[3].answer == Group(cgroup)
    requires replies[4].answer == Seen(members) && members != [] && Observed(s.world, members)
    ensures
      var end := Drive(Step(s, BeginEnroll(owner, workspace, environment)), replies);
      var r := EnrolledAs(s, owner, workspace, environment, init, cgroup, members);
      end.pc == Idle && Durable(end, r) && |s.log| < |end.log| && end.log[|end.log| - 1] == EnrollReturned(r)
  {
    var draft := Draft(s.id, owner, workspace, environment);
    var seen := Seeing(draft, s.world);
    var s0 := s.(pc := EnrollInspect(draft));
    var s2 := s.(pc := EnrollInit(seen, s.world.unit.pid), log := s.log + [Inspected(Look(s.world), Profile(true))]);
    var s4 := s2.(pc := EnrollMembers(seen.(target := seen.target.(init := init, cgroup := cgroup))));
    assert replies[0..] == replies;
    UnitIsEnrolled(s0, replies);
    GroupIsEnrolled(s2, replies, init, cgroup);
    MembersAreEnrolled(s4, replies, members);
  }
}
