/** The controller's own code, effect by effect, proved to be runs of the retirement protocol. */
module PlacementController {
  import opened Basics
  import opened Placement

  /** What the outside does before one operation, and how that operation is answered. */
  datatype Reply = Reply(world: World, ok: bool, answer: Answer)

  lemma {:induction false} RunSnoc(s: State, actions: seq<Action>, a: Action)
    ensures Run(s, actions + [a]) == Step(Run(s, actions), a)
    decreases |actions|
  {
    if actions == [] {
      assert [a][1..] == [];
    } else {
      assert (actions + [a])[1..] == actions[1..] + [a];
      RunSnoc(Step(s, actions[0]), actions[1..], a);
    }
  }

  predicate IsReport(e: Event) {
    e.EnrollReturned? || e.RetireReturned?
  }

  /** The log only grew, and by no report. */
  predicate Quiet(before: seq<Event>, after: seq<Event>) {
    before <= after && forall i :: |before| <= i < |after| ==> !IsReport(after[i])
  }

  /** A record of the same container for the same owner. */
  predicate SameSubject(r: Receipt, r': Receipt) {
    && r'.version == r.version && r'.environment == r.environment && r'.state == r.state && r'.owner == r.owner
    && r'.retiredAt == r.retiredAt
    && r'.target.container == r.target.container && r'.target.workspace == r.target.workspace
  }

  /** The same incarnation of it. */
  predicate SameMoment(t: Target, t': Target) {
    t'.created == t.created && t'.image == t.image && t'.started == t.started && t'.restarts == t.restarts
  }

  /** The protocol driven by the replies until the call is over; without a reply left the operation fails. */
  function Drive(s: State, replies: seq<Reply>): State
    decreases |replies|
  {
    if s.pc.Idle? then s
    else if replies == [] then Step(s, Advance(false, Nothing))
    else
      var moved := Step(s, Outside(replies[0].world));
      Drive(Step(moved, Advance(replies[0].ok, replies[0].answer)), replies[1..])
  }

  class Controller {
    var s: State
    var replies: seq<Reply>
    ghost const first: World
    ghost var trace: seq<Action>

    /** The state is one the protocol reaches from a fresh disk. */
    ghost predicate Valid()
      reads this
    {
      Plausible(first) && s == Run(Start(s.id, first), trace)
    }

    /** Where the call in progress is bound to end. */
    ghost function End(): State
      reads this
    {
      Drive(s, replies)
    }

    constructor (id: string, world: World, replies: seq<Reply>)
      requires Plausible(world)
      ensures Valid() && s == Start(id, world) && this.replies == replies && trace == [] && first == world
    {
      s, this.replies, first, trace := Start(id, world), replies, world, [];
    }

    method Take(a: Action)
      requires Valid()
      modifies this
      ensures Valid() && s == Step(old(s), a) && replies == old(replies) && trace == old(trace) + [a]
    {
      RunSnoc(Start(s.id, first), trace, a);
      s, trace := Step(s, a), trace + [a];
    }

    /** One external operation; without a reply left the context is cancelled and it fails. */
    method Ask() returns (ok: bool, answer: Answer, w: World)
      requires Valid() && s.pc != Idle
      modifies this
      ensures Valid() && End() == old(End())
      ensures s == Step(old(s).(world := w), Advance(ok, answer))
      ensures old(replies) == [] ==> !ok && replies == []
      ensures old(replies) != [] ==>
                && replies == old(replies)[1..] && ok == old(replies)[0].ok && answer == old(replies)[0].answer
    {
      if replies == [] {
        ok, answer, w := false, Nothing, s.world;
      } else {
        var reply := replies[0];
        replies := replies[1..];
        Take(Outside(reply.world));
        ok, answer, w := reply.ok, reply.answer, s.world;
      }
      Take(Advance(ok, answer));
    }

    /** Returns true only with the record synced under its name; otherwise the call is over. */
    method Save(r: Receipt, purpose: Purpose) returns (ok: bool)
      requires Valid() && s.pc == Saving(r, Write, false, purpose)
      modifies this
      ensures Valid() && End() == old(End())
      ensures !ok ==> s.pc == Idle && s.log == old(s.log)
      ensures ok && !purpose.ForStop? ==> s.pc == Idle && s.disk == Disk(Kept(Entry(r, true)), [])
      ensures ok && purpose.ForStop? ==>
        s.pc == (if purpose.running then Stop(r) else Reinspect(r)) && s.log == old(s.log) && Durable(s, r)
      ensures ok && purpose.ForEnroll? ==> s.log == old(s.log) + [EnrollReturned(r)]
      ensures ok && purpose.ForRetire? ==> s.log == old(s.log) + [RetireReturned(r.target)]
    {
      var answer, w;
      ok := WriteFlushed(r, purpose);
      if !ok { return; }
      ok, answer, w := Ask(); // rename it
      if !ok { return; }
      ok, answer, w := Ask(); // sync the directory
    }

    method WriteFlushed(r: Receipt, purpose: Purpose) returns (ok: bool)
      requires Valid() && s.pc == Saving(r, Write, false, purpose)
      modifies this
      ensures Valid() && End() == old(End()) && s.log == old(s.log)
      ensures s.pc == if ok then Saving(r, Rename, true, purpose) else Idle
    {
      var answer, w;
      ok, answer, w := Ask(); // write the temporary file
      if !ok { return; }
      ok, answer, w := Ask(); // flush it
    }

    /** Passes only with the group seen unpopulated and every recorded process dead. */
    method ObserveRetired(r: Receipt) returns (ok: bool)
      requires Valid() && s.pc == GroupEvidence(r)
      modifies this
      ensures Valid() && End() == old(End())
      ensures s.pc == if ok then Remove(r) else Idle
      ensures ok ==> s.log == old(s.log) + [SawGroup(r.target.cgroup, false)] && AllDead(s.world, r)
      ensures !ok ==> Quiet(old(s.log), s.log)
    {
      var answer, w;
      ok, answer, w := Ask(); // the group's own events
      if !ok || r.target.cgroup in w.populated { return false; }
      ok := CheckProcesses(r);
      if ok {
        AllDeadAtRemoval(s, first, trace);
      }
    }

    method CheckProcesses(r: Receipt) returns (ok: bool)
      requires Valid() && s.pc == ProcessEvidence(r, 0)
      modifies this
      ensures Valid() && End() == old(End()) && s.log == old(s.log)
      ensures s.pc == if ok then Remove(r) else Idle
    {
      var named := Named(r);
      var k := 0;
      while k < |named|
        invariant 0 <= k <= |named| && Valid() && named == Named(r) && s.log == old(s.log) && End() == old(End())
        invariant s.pc == if k < |named| then ProcessEvidence(r, k) else Remove(r)
      {
        var answer, w;
        ok, answer, w := Ask(); // the process behind one recorded identity
        if !ok || (w.boot, named[k]) in w.live {
          return false;
        }
        k := k + 1;
      }
      return true;
    }

    /**
     * Succeeds only with a synced "enrolled" record of the incarnation just seen running within the profile, and
     * never over an existing record.
     */
    method Enroll(owner: string, workspace: string, environment: string) returns (result: Option<Receipt>)
      requires Valid() && s.pc == Idle
      modifies this
      ensures Valid() && s.pc == Idle
      ensures s == Drive(Step(old(s), BeginEnroll(owner, workspace, environment)), old(replies))
      ensures result.Some? ==> Visible(old(s).disk).Absent? && Durable(s, result.value)
      ensures result.Some? ==>
        var r := result.value;
        && r.state == Enrolled && r.members != [] && r.owner == owner && r.environment == environment
        && r.target.container == old(s).id && r.target.workspace == workspace
        && |s.log| == |old(s.log)| + 3
        && s.log == old(s.log) + [s.log[|old(s.log)|], SawMembers(r.members), EnrollReturned(r)]
        && ShowsIncarnation(s.log[|old(s.log)|], r.target) && s.log[|old(s.log)|].sight.unit.running
      ensures result.None? ==> Quiet(old(s.log), s.log)
    {
      var ok, r := OpenEnrolment(owner, workspace, environment);
      if !ok { return None; }
      ok, r := Assess(r);
      if !ok { return None; }
      ok := Save(r, ForEnroll);
      return if ok then Some(r) else None;
    }

    /** Refuses malformed identifiers and an existing record. */
    method OpenEnrolment(owner: string, workspace: string, environment: string) returns (ok: bool, draft: Receipt)
      requires Valid() && s.pc == Idle
      modifies this
      ensures Valid() && s.log == old(s.log) && draft == Draft(old(s).id, owner, workspace, environment)
      ensures s == Step(old(s), BeginEnroll(owner, workspace, environment)) && replies == old(replies)
      ensures s.pc == if ok then EnrollInspect(draft) else Idle
      ensures ok ==> Visible(old(s).disk).Absent?
    {
      draft := Draft(s.id, owner, workspace, environment);
      ok := FullId(s.id) && OwnerId(owner) && (environment == "" || CanonicalUuid(environment))
            && Visible(s.disk).Absent?;
      if ok {
        Take(BeginEnroll(owner, workspace, environment));
      }
    }

    /** Everything seen of a container before its "enrolled" record is written. */
    method Assess(draft: Receipt) returns (ok: bool, r: Receipt)
      requires Valid() && s.pc == EnrollInspect(draft)
      modifies this
      ensures Valid() && End() == old(End()) && s.pc == if ok then Saving(r, Write, false, ForEnroll) else Idle
      ensures ok ==>
        && |s.log| == |old(s.log)| + 2 && s.log == old(s.log) + [s.log[|old(s.log)|], SawMembers(r.members)]
        && ShowsIncarnation(s.log[|old(s.log)|], r.target) && s.log[|old(s.log)|].sight.unit.running
        && SameSubject(draft, r) && r.members != []
      ensures !ok ==> Quiet(old(s.log), s.log)
    {
      var pid;
      ok, r, pid := InspectRunning(draft);
      if !ok { return; }
      ok, r := Survey(r, pid);
    }

    /** Fills in the incarnation of a container seen running within the profile. */
    method InspectRunning(draft: Receipt) returns (ok: bool, r: Receipt, pid: int)
      requires Valid() && s.pc == EnrollInspect(draft)
      modifies this
      ensures Valid() && End() == old(End()) && s.pc == if ok then EnrollHost(r, pid) else Idle
      ensures ok ==>
        && |s.log| == |old(s.log)| + 1 && old(s.log) <= s.log
        && ShowsIncarnation(s.log[|old(s.log)|], r.target) && s.log[|old(s.log)|].sight.unit.running
        && SameSubject(draft, r)
      ensures !ok ==> s.log == old(s.log)
    {
      r, pid := draft, 0;
      var answer, w;
      ok, answer, w := Ask(); // inspect the container
      if !ok || !w.present || !w.unit.running || answer != Profile(true) { return false, r, 0; }
      pid := w.unit.pid;
      r := r.(target := r.target.(created := w.unit.created, started := w.unit.started,
              restarts := w.unit.restarts, image := w.unit.image));
    }

    /** Fills in the host and the processes of an inspected container. */
    method Survey(draft: Receipt, pid: int) returns (ok: bool, r: Receipt)
      requires Valid() && s.pc == EnrollHost(draft, pid)
      modifies this
      ensures Valid() && End() == old(End())
      ensures s.pc == if ok then Saving(r, Write, false, ForEnroll) else Idle
      ensures s.log == old(s.log) + if ok then [SawMembers(r.members)] else []
      ensures ok ==> r.members != [] && SameSubject(draft, r) && SameMoment(draft.target, r.target)
    {
      ok, r := SurveyHost(draft, pid);
      if !ok { return; }
      ok, r := SurveyGroup(r);
    }

    method SurveyHost(draft: Receipt, pid: int) returns (ok: bool, r: Receipt)
      requires Valid() && s.pc == EnrollHost(draft, pid)
      modifies this
      ensures Valid() && End() == old(End()) && s.log == old(s.log)
      ensures s.pc == if ok then EnrollGroup(r) else Idle
      ensures ok ==> SameSubject(draft, r) && SameMoment(draft.target, r.target)
    {
      r := draft;
      var answer, w;
      ok, answer, w := Ask(); // the host's boot and supervisor
      if !ok { return; }
      r := r.(target := r.target.(boot := w.boot, supervisor := w.supervisor));
      ok, answer, w := Ask(); // its init process
      if !ok || !answer.Seen? || |answer.processes| != 1 || !Observed(w, answer.processes) { return false, r; }
      if pid <= 0 || answer.processes[0].pid != pid { return false, r; }
      r := r.(target := r.target.(init := answer.processes[0]));
    }

    method SurveyGroup(draft: Receipt) returns (ok: bool, r: Receipt)
      requires Valid() && s.pc == EnrollGroup(draft)
      modifies this
      ensures Valid() && End() == old(End())
      ensures s.pc == if ok then Saving(r, Write, false, ForEnroll) else Idle
      ensures s.log == old(s.log) + if ok then [SawMembers(r.members)] else []
      ensures ok ==> r.members != [] && SameSubject(draft, r) && SameMoment(draft.target, r.target)
    {
      r := draft;
      var answer, w;
      ok, answer, w := Ask(); // its group
      if !ok || !answer.Group? { return false, r; }
      r := r.(target := r.target.(cgroup := answer.path));
      ok, answer, w := Ask(); // the group's members
      if !ok || !answer.Seen? || answer.processes == [] || !Observed(w, answer.processes) { return false, r; }
      r := r.(members := answer.processes);
    }

    /** Everything checked before the "stopping" record is written. */
    method Admit(loaded: Receipt) returns (ok: bool, r: Receipt, running: bool)
      requires Valid() && s.pc == CheckHost(loaded)
      modifies this
      ensures Valid() && End() == old(End()) && Quiet(old(s.log), s.log)
      ensures s.pc == if ok then Saving(r, Write, false, ForStop(running)) else Idle
      ensures ok ==> r.target == loaded.target && r.state == Stopping
      ensures ok && !running ==> r.members == loaded.members
      ensures ok && running ==>
        && s.log != [] && s.log[|s.log| - 1].SawMembers?
        && r.members == loaded.members + s.log[|s.log| - 1].processes
    {
      r := loaded;
      var pid;
      ok, running, pid := Recognize(r);
      if !ok { return; }
      if running {
        var members;
        ok, members := CurrentMembers(r, pid);
        if !ok { return; }
        r := r.(members := r.members + members);
      }
      r := r.(state := Stopping);
    }

    /** The enrolled host and the enrolled incarnation, within the profile. */
    method Recognize(r: Receipt) returns (ok: bool, running: bool, pid: int)
      requires Valid() && s.pc == CheckHost(r)
      modifies this
      ensures Valid() && End() == old(End()) && Quiet(old(s.log), s.log)
      ensures s.pc ==
        if !ok then Idle
        else if running then CheckInit(r, pid)
        else Saving(r.(state := Stopping), Write, false, ForStop(false))
    {
      var answer, w;
      ok, answer, w := Ask(); // the host's boot and supervisor
      if !ok || w.boot != r.target.boot || w.supervisor != r.target.supervisor { return false, false, 0; }
      ok, answer, w := Ask(); // inspect the container
      if !ok || !w.present || answer != Profile(true) || !SameIncarnation(w.unit, r.target) { return false, false, 0; }
      running, pid := w.unit.running, w.unit.pid;
    }

    /** The processes of the running container, after its init process and group were recognized. */
    method CurrentMembers(r: Receipt, pid: int) returns (ok: bool, members: seq<Process>)
      requires Valid() && s.pc == CheckInit(r, pid)
      modifies this
      ensures Valid() && End() == old(End())
      ensures s.log == old(s.log) + if ok then [SawMembers(members)] else []
      ensures s.pc ==
        if ok then Saving(r.(members := r.members + members, state := Stopping), Write, false, ForStop(true)) else Idle
    {
      members := [];
      ok := CheckIdentity(r, pid);
      if !ok { return; }
      var answer, w;
      ok, answer, w := Ask(); // the group's members
      if !ok || !answer.Seen? || !Observed(w, answer.processes) { return false, []; }
      members := answer.processes;
    }

    method CheckIdentity(r: Receipt, pid: int) returns (ok: bool)
      requires Valid() && s.pc == CheckInit(r, pid)
      modifies this
      ensures Valid() && End() == old(End()) && s.log == old(s.log)
      ensures s.pc == if ok then AddMembers(r) else Idle
    {
      var answer, w;
      ok, answer, w := Ask(); // its init process
      if !ok || !answer.Seen? || |answer.processes| != 1 || !Observed(w, answer.processes) { return false; }
      if pid <= 0 || answer.processes[0].pid != pid || answer.processes[0] != r.target.init { return false; }
      ok, answer, w := Ask(); // its group
      if !ok || answer != Group(r.target.cgroup) { return false; }
    }

    /** Returns the record it saved last: the reported one on success. */
    method Retire(loaded: Receipt) returns (ok: bool, r: Receipt)
      requires Valid() && s.pc == CheckHost(loaded)
      modifies this
      ensures Valid() && End() == old(End()) && s.pc == Idle
      ensures ok ==> Reported(r) && r.target == loaded.target && r.state == Retired && loaded.members <= r.members
      ensures !ok ==> Quiet(old(s.log), s.log)
    {
      var running;
      ok, r, running := Admit(loaded);
      if !ok { return; }
      ok := Save(r, ForStop(running));
      if !ok { return; }
      if running {
        ok := IssueStop(r);
        if !ok { return; }
      }
      ok, r := Finish(r);
    }

    method IssueStop(r: Receipt) returns (ok: bool)
      requires Valid() && s.pc == Stop(r)
      modifies this
      ensures Valid() && End() == old(End()) && s.log == old(s.log) + [StopIssued(r)]
      ensures s.pc == if ok then Reinspect(r) else Idle
    {
      var answer, w;
      ok, answer, w := Ask(); // stop the container
    }

    /** The record is on disk, synced, and its retirement was the last thing reported. */
    ghost predicate Reported(r: Receipt)
      reads this
    {
      Durable(s, r) && s.log != [] && s.log[|s.log| - 1] == RetireReturned(r.target)
    }

    /** From the stopped container to the reported retirement. */
    method Finish(stopping: Receipt) returns (ok: bool, r: Receipt)
      requires Valid() && s.pc == Reinspect(stopping)
      modifies this
      ensures Valid() && End() == old(End()) && s.pc == Idle
      ensures ok ==> Reported(r) && r.target == stopping.target && r.state == Retired && r.members == stopping.members
      ensures !ok ==> Quiet(old(s.log), s.log)
    {
      r := stopping;
      ok := CheckStopped(r);
      if !ok { return; }
      ok := ObserveRetired(r);
      if !ok { return; }
      ok, r := RemoveAndRecord(r);
    }

    method CheckStopped(r: Receipt) returns (ok: bool)
      requires Valid() && s.pc == Reinspect(r)
      modifies this
      ensures Valid() && End() == old(End()) && Quiet(old(s.log), s.log)
      ensures s.pc == if ok then GroupEvidence(r) else Idle
    {
      var answer, w;
      ok, answer, w := Ask(); // inspect again
      if !ok || !w.present || w.unit.running || w.unit.pid != 0
         || w.unit.started != r.target.started || w.unit.restarts != r.target.restarts { return false; }
    }

    method RemoveAndRecord(stopping: Receipt) returns (ok: bool, r: Receipt)
      requires Valid() && s.pc == Remove(stopping)
      modifies this
      ensures Valid() && End() == old(End()) && s.pc == Idle
      ensures ok ==> Reported(r) && r.target == stopping.target && r.state == Retired && r.members == stopping.members
      ensures !ok ==> Quiet(old(s.log), s.log)
    {
      r := stopping;
      var answer, w;
      ok, answer, w := Ask(); // remove, and read the clock
      if !ok || !w.present || w.unit.running || !answer.Now? { return false, r; }
      r := r.(state := Retired, retiredAt := Some(answer.time));
      ok := Save(r, ForRetire);
    }

    /** Success returns the record every later load will find: retired, earned, and reported by this very call. */
    method RetirePlacement(scope: string) returns (result: Option<Receipt>)
      requires Valid() && s.pc == Idle
      modifies this
      ensures Valid() && s.pc == Idle && s == Drive(Step(old(s), BeginRetire(scope)), old(replies))
      ensures result.Some? ==> Load(s.id, s.disk) == result && result.value.state == Retired && Earned(s, result.value)
      ensures result.Some? ==> s.log != [] && s.log[|s.log| - 1] == RetireReturned(result.value.target)
      ensures result.None? ==> Quiet(old(s.log), s.log)
    {
      var loaded := OpenRetirement(scope);
      if loaded.None? {
        return None;
      }
      var ok, r := Resume(loaded.value);
      return if ok then Some(r) else None;
    }

    /** Finishes the barrier of a retired record, retires any other. */
    method Resume(loaded: Receipt) returns (ok: bool, r: Receipt)
      requires Valid() && s.pc == if loaded.state == Retired then Recover(loaded) else CheckHost(loaded)
      modifies this
      ensures Valid() && End() == old(End()) && s.pc == Idle
      ensures ok ==> Load(s.id, s.disk) == Some(r) && r.state == Retired && Earned(s, r) && loaded.members <= r.members
      ensures ok ==> s.log != [] && s.log[|s.log| - 1] == RetireReturned(r.target)
      ensures !ok ==> Quiet(old(s.log), s.log)
    {
      r := loaded;
      if r.state == Retired {
        ok := FinishSync(r);
      } else {
        ok, r := Retire(r);
      }
      if ok {
        ReportedIsLoaded(s, first, trace, r);
      }
    }

    /** Refuses a malformed identifier, a missing record and another environment's. */
    method OpenRetirement(scope: string) returns (loaded: Option<Receipt>)
      requires Valid() && s.pc == Idle
      modifies this
      ensures Valid() && s.log == old(s.log)
      ensures s == Step(old(s), BeginRetire(scope)) && replies == old(replies)
      ensures loaded.None? ==> s.pc == Idle
      ensures loaded.Some? ==>
        && loaded == Load(old(s).id, old(s).disk) && loaded.value.environment == scope
        && s.pc == if loaded.value.state == Retired then Recover(loaded.value) else CheckHost(loaded.value)
    {
      loaded := Load(s.id, s.disk);
      if !FullId(s.id) || loaded.None? || loaded.value.environment != scope {
        return None;
      }
      Take(BeginRetire(scope));
    }

    method FinishSync(r: Receipt) returns (ok: bool)
      requires Valid() && s.pc == Recover(r)
      modifies this
      ensures Valid() && End() == old(End()) && s.pc == Idle
      ensures ok ==> Reported(r)
      ensures !ok ==> s.log == old(s.log)
    {
      RecoveredIsVisible(s, first, trace);
      var answer, w;
      ok, answer, w := Ask(); // finish the directory sync an earlier call may have missed
    }
  }

  lemma RecoveredIsVisible(s: State, first: World, trace: seq<Action>)
    requires Plausible(first) && s == Run(Start(s.id, first), trace) && s.pc.Recover?
    ensures Visible(s.disk) == Kept(Entry(s.pc.r, true))
  {
    RunKeeps(Start(s.id, first), trace);
  }

  lemma AllDeadAtRemoval(s: State, first: World, trace: seq<Action>)
    requires Plausible(first) && s == Run(Start(s.id, first), trace) && s.pc.Remove?
    ensures AllDead(s.world, s.pc.r)
  {
    RunKeeps(Start(s.id, first), trace);
  }

  lemma ReportedIsLoaded(s: State, first: World, trace: seq<Action>, r: Receipt)
    requires Plausible(first) && s == Run(Start(s.id, first), trace)
    requires Durable(s, r) && s.log != [] && s.log[|s.log| - 1] == RetireReturned(r.target)
    ensures Load(s.id, s.disk) == Some(r) && r.state == Retired && Earned(s, r)
  {
    RunKeeps(Start(s.id, first), trace);
    assert Upheld(s, s.log[|s.log| - 1]);
    assert Entries(s.disk) == [Entry(r, true)];
  }
}
