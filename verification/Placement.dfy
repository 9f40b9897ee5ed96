/** Crash-safe retirement of one enrolled container: the record on disk, the host, and the protocol between them. */
module Placement {
  import opened Basics

  /** A PID with its start ticks, which tell a reused PID apart. */
  datatype Process = Process(pid: int, start: string)

  datatype Target = Target(
    boot: string, supervisor: string, container: string, created: string, started: string, restarts: int,
    image: string, workspace: string, cgroup: string, init: Process)

  datatype RecordState = Enrolled | Stopping | Retired

  datatype Receipt = Receipt(
    version: nat, environment: string, state: RecordState, owner: string, target: Target,
    members: seq<Process>, retiredAt: Option<int>)

  /** Every process a receipt names. */
  function Named(r: Receipt): seq<Process> {
    r.members + [r.target.init]
  }

  predicate FullId(id: string) {
    |id| == 64 && forall i :: 0 <= i < |id| ==> LowerHex(id[i])
  }

  predicate OwnerId(owner: string) {
    && 1 <= |owner| <= 128
    && Alphanumeric(owner[0])
    && forall i :: 0 <= i < |owner| ==> Alphanumeric(owner[i]) || owner[i] in "._-"
  }

  predicate Alphanumeric(c: char) {
    'a' <= c <= 'z' || 'A' <= c <= 'Z' || '0' <= c <= '9'
  }

  // ----- the host -----

  datatype Unit = Unit(created: string, image: string, started: string, restarts: int, running: bool, pid: int)

  /** A process together with the boot it lives in. */
  type Identity = (string, Process)

  /** The host: the container (while it exists), the populated groups, the live processes, and all there ever were. */
  datatype World = World(
    boot: string, supervisor: string, present: bool, unit: Unit, populated: set<string>,
    live: set<Identity>, ever: set<Identity>)

  predicate Plausible(w: World) {
    w.live <= w.ever && forall x :: x in w.live ==> x.0 == w.boot
  }

  /**
   * Anything may happen outside, but the dead stay dead, an immutable container ID never returns, and a container
   * keeps its creation time and image.
   */
  predicate Evolves(w: World, w': World) {
    && Plausible(w')
    && w.ever <= w'.ever
    && w'.live * w.ever <= w.live
    && (w'.present ==> w.present && w'.unit.created == w.unit.created && w'.unit.image == w.unit.image)
  }

  predicate Observed(w: World, ps: seq<Process>) {
    forall p :: p in ps ==> (w.boot, p) in w.ever
  }

  // ----- the disk -----

  /** A record file and whether its contents were flushed before it got its name. */
  datatype Entry = Entry(receipt: Receipt, flushed: bool)

  datatype Record = Absent | Kept(entry: Entry) | Torn

  /** What a crash is sure to find, and the renames published since the last directory sync. */
  datatype Disk = Disk(durable: Record, renamed: seq<Entry>)

  function Visible(d: Disk): Record {
    if d.renamed == [] then d.durable else Kept(d.renamed[|d.renamed| - 1])
  }

  function SyncDirectory(d: Disk): Disk {
    Disk(Visible(d), [])
  }

  /** A crash keeps the durable record or any later one; contents never flushed may be lost. */
  function Survivor(d: Disk, keep: nat, torn: bool): Record {
    var record := if 1 <= keep <= |d.renamed| then Kept(d.renamed[keep - 1]) else d.durable;
    if record.Kept? && !record.entry.flushed && torn then Torn else record
  }

  predicate Loadable(id: string, r: Receipt) {
    && ((r.version == 1 && r.environment == "") || (r.version == 2 && CanonicalUuid(r.environment)))
    && r.target.container == id
    && OwnerId(r.owner)
    && (r.state == Retired <==> r.retiredAt.Some?)
  }

  function Load(id: string, d: Disk): Option<Receipt> {
    var record := Visible(d);
    if record.Kept? && Loadable(id, record.entry.receipt) then Some(record.entry.receipt) else None
  }

  // ----- the protocol, one external operation per step -----

  datatype Purpose = ForEnroll | ForStop(running: bool) | ForRetire

  datatype Stage = Write | Flush | Rename | Sync

  /** Where the one controller holding the lock stands. */
  datatype Pc =
    | Idle
    | EnrollInspect(r: Receipt) | EnrollHost(r: Receipt, pid: int) | EnrollInit(r: Receipt, pid: int)
    | EnrollGroup(r: Receipt) | EnrollMembers(r: Receipt)
    | Recover(r: Receipt)
    | CheckHost(r: Receipt) | Inspect(r: Receipt) | CheckInit(r: Receipt, pid: int)
    | CheckGroup(r: Receipt) | AddMembers(r: Receipt)
    | Saving(r: Receipt, stage: Stage, flushed: bool, purpose: Purpose)
    | Stop(r: Receipt) | Reinspect(r: Receipt) | GroupEvidence(r: Receipt) | ProcessEvidence(r: Receipt, k: nat)
    | Remove(r: Receipt)

  /** What the supervisor shows of the host and the container at one moment. */
  datatype Sight = Sight(boot: string, supervisor: string, present: bool, unit: Unit)

  function Look(w: World): Sight {
    Sight(w.boot, w.supervisor, w.present, w.unit)
  }

  /** What happened, with what was seen at the time. */
  datatype Event =
    | SawHost(sight: Sight)
    | Inspected(sight: Sight, profile: Answer)
    | StopIssued(stopped: Receipt)
    | Reinspected(sight: Sight)
    | SawMembers(processes: seq<Process>)
    | SawGroup(cgroup: string, populated: bool)
    | Removed(container: string, sight: Sight)
    | EnrollReturned(enrolled: Receipt)
    | RetireReturned(retired: Target)

  datatype State = State(id: string, world: World, disk: Disk, pc: Pc, log: seq<Event>)

  datatype Answer =
    Nothing | Profile(valid: bool) | Seen(processes: seq<Process>) | Group(path: string) | Now(time: int)

  datatype Action =
    | Outside(world: World)
    | Crash(keep: nat, torn: bool, after: World)
    | BeginEnroll(owner: string, workspace: string, environment: string)
    | BeginRetire(scope: string)
    | Advance(ok: bool, answer: Answer)

  const UNKNOWN := Process(0, "")

  function Draft(id: string, owner: string, workspace: string, environment: string): Receipt {
    Receipt(if environment == "" then 1 else 2, environment, Enrolled, owner,
            Target("", "", id, "", "", 0, "", workspace, "", UNKNOWN), [], None)
  }

  function Start(id: string, world: World): State {
    State(id, world, Disk(Absent, []), Idle, [])
  }

  function Step(s: State, a: Action): State {
    match a
    case Outside(w') =>
      if Evolves(s.world, w') && w'.boot == s.world.boot then s.(world := w') else s
    case Crash(keep, torn, w') =>
      if Evolves(s.world, w') then s.(world := w', disk := Disk(Survivor(s.disk, keep, torn), []), pc := Idle) else s
    case BeginEnroll(owner, workspace, environment) =>
      if s.pc.Idle? && FullId(s.id) && OwnerId(owner) && (environment == "" || CanonicalUuid(environment))
         && Visible(s.disk).Absent?
      then s.(pc := EnrollInspect(Draft(s.id, owner, workspace, environment))) else s
    case BeginRetire(scope) =>
      var loaded := Load(s.id, s.disk);
      if s.pc.Idle? && FullId(s.id) && loaded.Some? && loaded.value.environment == scope
      then s.(pc := if loaded.value.state == Retired then Recover(loaded.value) else CheckHost(loaded.value)) else s
    case Advance(ok, answer) =>
      if !ok then Fail(s)
      else if s.pc.Saving? then SaveStep(s)
      else if Enrolling(s.pc) then EnrollStep(s, answer)
      else RetireStep(s, answer)
  }

  predicate Enrolling(pc: Pc) {
    pc.EnrollInspect? || pc.EnrollHost? || pc.EnrollInit? || pc.EnrollGroup? || pc.EnrollMembers?
  }

  /** The operation failed: the call returns an error and lets the lock go. A failed stop was still issued. */
  function Fail(s: State): State {
    var log := if s.pc.Stop? then s.log + [StopIssued(s.pc.r)] else s.log;
    s.(pc := Idle, log := log)
  }

  function EnrollStep(s: State, answer: Answer): State
    requires Enrolling(s.pc)
  {
    var w, t := s.world, s.pc.r.target;
    match s.pc
    case EnrollInspect(r) =>
      if !w.present || !w.unit.running || answer != Profile(true) then Fail(s)
      else
        var u := w.unit;
        var t' := t.(created := u.created, started := u.started, restarts := u.restarts, image := u.image);
        s.(pc := EnrollHost(r.(target := t'), w.unit.pid), log := s.log + [Inspected(Look(w), answer)])
    case EnrollHost(r, pid) =>
      s.(pc := EnrollInit(r.(target := t.(boot := w.boot, supervisor := w.supervisor)), pid))
    case EnrollInit(r, pid) =>
      if !(answer.Seen? && |answer.processes| == 1 && Observed(w, answer.processes)) then Fail(s)
      else if pid <= 0 || answer.processes[0].pid != pid then Fail(s)
      else s.(pc := EnrollGroup(r.(target := t.(init := answer.processes[0]))))
    case EnrollGroup(r) =>
      if !answer.Group? then Fail(s) else s.(pc := EnrollMembers(r.(target := t.(cgroup := answer.path))))
    case EnrollMembers(r) =>
      if !(answer.Seen? && answer.processes != [] && Observed(w, answer.processes)) then Fail(s)
      else s.(pc := Saving(r.(members := answer.processes), Write, false, ForEnroll),
              log := s.log + [SawMembers(answer.processes)])
  }

  /** Write a temporary file, flush it, rename it over the record, sync the directory. */
  function SaveStep(s: State): State
    requires s.pc.Saving?
  {
    var r := s.pc.r;
    match s.pc.stage
    case Write => s.(pc := s.pc.(stage := Flush))
    case Flush => s.(pc := s.pc.(stage := Rename, flushed := true))
    case Rename => s.(disk := s.disk.(renamed := s.disk.renamed + [Entry(r, s.pc.flushed)]), pc := s.pc.(stage := Sync))
    case Sync =>
      var synced := s.(disk := SyncDirectory(s.disk));
      match s.pc.purpose
      case ForEnroll => synced.(pc := Idle, log := s.log + [EnrollReturned(r)])
      case ForStop(running) => synced.(pc := if running then Stop(r) else Reinspect(r))
      case ForRetire => synced.(pc := Idle, log := s.log + [RetireReturned(r.target)])
  }

  predicate SameIncarnation(u: Unit, t: Target) {
    u.created == t.created && u.image == t.image && u.started == t.started && u.restarts == t.restarts
  }

  function RetireStep(s: State, answer: Answer): State
    requires !s.pc.Saving? && !Enrolling(s.pc)
  {
    var w := s.world;
    match s.pc
    case Idle => s
    case Recover(r) => s.(disk := SyncDirectory(s.disk), pc := Idle, log := s.log + [RetireReturned(r.target)])
    case CheckHost(r) =>
      if w.boot != r.target.boot || w.supervisor != r.target.supervisor then Fail(s)
      else s.(pc := Inspect(r), log := s.log + [SawHost(Look(w))])
    case Inspect(r) =>
      if !w.present || answer != Profile(true) || !SameIncarnation(w.unit, r.target) then Fail(s)
      else
        var seen := s.(log := s.log + [Inspected(Look(w), answer)]);
        if w.unit.running then seen.(pc := CheckInit(r, w.unit.pid))
        else seen.(pc := Saving(r.(state := Stopping), Write, false, ForStop(false)))
    case CheckInit(r, pid) =>
      if !(answer.Seen? && |answer.processes| == 1 && Observed(w, answer.processes)) then Fail(s)
      else if pid <= 0 || answer.processes[0].pid != pid || answer.processes[0] != r.target.init then Fail(s)
      else s.(pc := CheckGroup(r))
    case CheckGroup(r) =>
      if answer != Group(r.target.cgroup) then Fail(s) else s.(pc := AddMembers(r))
    case AddMembers(r) =>
      if !(answer.Seen? && Observed(w, answer.processes)) then Fail(s)
      else s.(pc := Saving(r.(members := r.members + answer.processes, state := Stopping), Write, false, ForStop(true)),
              log := s.log + [SawMembers(answer.processes)])
    case Stop(r) => s.(pc := Reinspect(r), log := s.log + [StopIssued(r)])
    case Reinspect(r) =>
      if !w.present || w.unit.running || w.unit.pid != 0
         || w.unit.started != r.target.started || w.unit.restarts != r.target.restarts then Fail(s)
      else s.(pc := GroupEvidence(r), log := s.log + [Reinspected(Look(w))])
    case GroupEvidence(r) =>
      if r.target.cgroup in w.populated then Fail(s)
      else s.(pc := ProcessEvidence(r, 0), log := s.log + [SawGroup(r.target.cgroup, r.target.cgroup in w.populated)])
    case ProcessEvidence(r, k) =>
      if k < |Named(r)| && (w.boot, Named(r)[k]) in w.live then Fail(s)
      else if k + 1 < |Named(r)| then s.(pc := ProcessEvidence(r, k + 1))
      else s.(pc := Remove(r))
    case Remove(r) =>
      // Removal is not forced, so it fails on a running container.
      if !w.present || w.unit.running || !answer.Now? then Fail(s)
      else s.(world := w.(present := false), log := s.log + [Removed(s.id, Look(w))],
              pc := Saving(r.(state := Retired, retiredAt := Some(answer.time)), Write, false, ForRetire))
  }

  /** A run: outside changes, crashes, calls and answers in any order. */
  function Run(s: State, actions: seq<Action>): State
    decreases |actions|
  {
    if actions == [] then s else Run(Step(s, actions[0]), actions[1..])
  }

  // ----- what every state keeps -----

  function Entries(d: Disk): seq<Entry> {
    (if d.durable.Kept? then [d.durable.entry] else []) + d.renamed
  }

  predicate Dead(w: World, t: Target, p: Process) {
    (t.boot, p) in w.ever && (t.boot, p) !in w.live
  }

  predicate AllKnown(w: World, r: Receipt) {
    forall p :: p in Named(r) ==> (r.target.boot, p) in w.ever
  }

  predicate AllDead(w: World, r: Receipt) {
    forall p :: p in Named(r) ==> Dead(w, r.target, p)
  }

  // ----- what the log attests, each sight after the one before it -----

  predicate ShowsHost(e: Event, t: Target) {
    e.SawHost? && e.sight.boot == t.boot && e.sight.supervisor == t.supervisor
  }

  /** The enrolled incarnation, within the qualified profile. */
  predicate ShowsIncarnation(e: Event, t: Target) {
    e.Inspected? && e.profile == Profile(true) && e.sight.present && SameIncarnation(e.sight.unit, t)
  }

  /** The enrolled incarnation on its own boot, neither running nor holding a process. */
  predicate ShowsStopped(e: Event, t: Target) {
    && e.Reinspected? && e.sight.boot == t.boot && e.sight.present && SameIncarnation(e.sight.unit, t)
    && !e.sight.unit.running && e.sight.unit.pid == 0
  }

  predicate ShowsEmptyGroup(e: Event, t: Target) {
    e == SawGroup(t.cgroup, false)
  }

  /** The container itself, not running, was taken away. */
  predicate ShowsRemoval(e: Event, t: Target) {
    e.Removed? && e.container == t.container && e.sight.present && !e.sight.unit.running
  }

  /** The enrolled incarnation was seen running within the profile. */
  predicate SeenRunning(log: seq<Event>, t: Target) {
    exists i :: 0 <= i < |log| && ShowsIncarnation(log[i], t) && log[i].sight.unit.running
  }

  predicate HostSeen(log: seq<Event>, t: Target) {
    exists i :: 0 <= i < |log| && ShowsHost(log[i], t)
  }

  predicate Admitted(log: seq<Event>, t: Target) {
    exists i :: 0 <= i < |log| && ShowsIncarnation(log[i], t) && HostSeen(log[..i], t)
  }

  predicate SeenStopped(log: seq<Event>, t: Target) {
    exists i :: 0 <= i < |log| && ShowsStopped(log[i], t) && Admitted(log[..i], t)
  }

  predicate SeenEmpty(log: seq<Event>, t: Target) {
    exists i :: 0 <= i < |log| && ShowsEmptyGroup(log[i], t) && SeenStopped(log[..i], t)
  }

  /**
   * In this order: the host and supervisor of the enrolment, the enrolled incarnation, that incarnation stopped,
   * its group empty, and the removal of the stopped container.
   */
  predicate Evidence(log: seq<Event>, t: Target) {
    exists i :: 0 <= i < |log| && ShowsRemoval(log[i], t) && SeenEmpty(log[..i], t)
  }

  predicate Earned(s: State, r: Receipt) {
    !s.world.present && AllDead(s.world, r) && Evidence(s.log, r.target)
  }

  predicate GoodRecord(s: State, r: Receipt) {
    Loadable(s.id, r) && AllKnown(s.world, r) && SeenRunning(s.log, r.target) && (r.state == Retired ==> Earned(s, r))
  }

  predicate DiskInv(s: State) {
    && !s.disk.durable.Torn?
    && (forall e :: e in Entries(s.disk) ==> e.flushed && GoodRecord(s, e.receipt))
    && (forall e, f :: e in Entries(s.disk) && f in Entries(s.disk) ==> e.receipt.target == f.receipt.target)
    && NeverUnretired(Entries(s.disk))
  }

  predicate NeverUnretired(entries: seq<Entry>) {
    forall i, j :: 0 <= i < j < |entries| && entries[i].receipt.state == Retired ==> entries[j].receipt.state == Retired
  }

  predicate Matches(s: State, t: Target) {
    forall e :: e in Entries(s.disk) ==> e.receipt.target == t
  }

  predicate NotRetired(s: State) {
    forall e :: e in Entries(s.disk) ==> e.receipt.state != Retired
  }

  predicate EnrollInv(s: State)
    requires Enrolling(s.pc)
  {
    var r := s.pc.r;
    && Entries(s.disk) == []
    && r.state == Enrolled && Loadable(s.id, r)
    && (!s.pc.EnrollInspect? ==> SeenRunning(s.log, r.target))
    && (s.pc.EnrollInit? || s.pc.EnrollGroup? || s.pc.EnrollMembers? ==> r.target.boot == s.world.boot)
    && (s.pc.EnrollGroup? || s.pc.EnrollMembers? ==> (r.target.boot, r.target.init) in s.world.ever)
  }

  /** The visible record is this synced one and no rename is outstanding. */
  predicate Durable(s: State, r: Receipt) {
    s.disk == Disk(Kept(Entry(r, true)), [])
  }

  predicate SaveInv(s: State)
    requires s.pc.Saving?
  {
    var r := s.pc.r;
    && GoodRecord(s, r)
    && (s.pc.stage == Rename || s.pc.stage == Sync ==> s.pc.flushed)
    && (s.pc.stage == Sync ==> s.disk.renamed != [] && s.disk.renamed[|s.disk.renamed| - 1] == Entry(r, true))
    && (s.pc.purpose.ForEnroll? ==>
      r.state == Enrolled && (s.pc.stage != Sync ==> Entries(s.disk) == [])
      && (s.pc.stage == Sync ==> s.disk.durable.Absent? && |s.disk.renamed| == 1))
    && (s.pc.purpose.ForStop? ==>
      && r.state == Stopping && Matches(s, r.target) && NotRetired(s) && Entries(s.disk) != []
      && r.target.boot == s.world.boot && Admitted(s.log, r.target) && SameContainer(s.world, r.target))
    && (s.pc.purpose.ForRetire? ==>
      r.state == Retired && Matches(s, r.target) && Entries(s.disk) != []
      && (s.pc.stage != Sync ==> NotRetired(s)))
  }

  predicate RetireInv(s: State)
    requires !s.pc.Idle? && !s.pc.Saving? && !Enrolling(s.pc)
  {
    var r := s.pc.r;
    && GoodRecord(s, r) && Matches(s, r.target) && Entries(s.disk) != []
    && (s.pc.Recover? <==> r.state == Retired)
    && (s.pc.Recover? ==> Visible(s.disk) == Kept(Entry(r, true)))
    && (!s.pc.Recover? ==> NotRetired(s))
    && (!s.pc.Recover? && !s.pc.CheckHost? ==> r.target.boot == s.world.boot)
    && (s.pc.Stop? || s.pc.Reinspect? || s.pc.GroupEvidence? || s.pc.ProcessEvidence? || s.pc.Remove? ==>
      r.state == Stopping && Durable(s, r))
    && Attested(s)
    && (s.pc.ProcessEvidence? ==>
          && s.pc.k < |Named(r)|
          && forall i :: 0 <= i < s.pc.k ==> Dead(s.world, r.target, Named(r)[i]))
    && (s.pc.Remove? ==> AllDead(s.world, r))
  }

  /** While it is there, it is the container that was inspected. */
  predicate SameContainer(w: World, t: Target) {
    w.present ==> w.unit.created == t.created && w.unit.image == t.image
  }

  /** What the log must hold by the time the call has got so far. */
  predicate Attested(s: State)
    requires !s.pc.Idle? && !s.pc.Saving? && !Enrolling(s.pc)
  {
    var t := s.pc.r.target;
    match s.pc
    case Recover(_) => true
    case CheckHost(_) => true
    case Inspect(_) => HostSeen(s.log, t)
    case GroupEvidence(_) => SeenStopped(s.log, t)
    case ProcessEvidence(_, _) => SeenEmpty(s.log, t)
    case Remove(_) => SeenEmpty(s.log, t)
    case _ => Admitted(s.log, t) && SameContainer(s.world, t)
  }

  predicate PcInv(s: State) {
    if s.pc.Idle? then true
    else if s.pc.Saving? then SaveInv(s)
    else if Enrolling(s.pc) then EnrollInv(s)
    else RetireInv(s)
  }

  /** A reported result is on disk for good: nothing later can read otherwise. */
  predicate ReportInv(s: State) {
    forall i :: 0 <= i < |s.log| ==> Upheld(s, s.log[i])
  }

  predicate Upheld(s: State, event: Event) {
    match event
    case EnrollReturned(r) => s.disk.durable.Kept? && Matches(s, r.target)
    case RetireReturned(t) => s.disk.durable.Kept? && Matches(s, t) && AllRetired(s)
    case _ => true
  }

  predicate AllRetired(s: State) {
    forall e :: e in Entries(s.disk) ==> e.receipt.state == Retired
  }

  predicate Inv(s: State) {
    Plausible(s.world) && DiskInv(s) && PcInv(s) && ReportInv(s)
  }

  // ----- preservation -----

  predicate Later(s: State, s': State) {
    s'.id == s.id && Evolves(s.world, s'.world) && s.log <= s'.log
  }

  /** What a log attests, a longer one attests too. */
  lemma AttestationLasts(log: seq<Event>, log': seq<Event>, t: Target)
    requires log <= log'
    ensures SeenRunning(log, t) ==> SeenRunning(log', t)
    ensures HostSeen(log, t) ==> HostSeen(log', t)
    ensures Admitted(log, t) ==> Admitted(log', t)
    ensures SeenStopped(log, t) ==> SeenStopped(log', t)
    ensures SeenEmpty(log, t) ==> SeenEmpty(log', t)
    ensures Evidence(log, t) ==> Evidence(log', t)
  {
    forall i | 0 <= i < |log| ensures log'[i] == log[i] && log'[..i] == log[..i] {
    }
  }

  /** One more sight completes the next stage of the evidence. */
  lemma AttestationGrows(log: seq<Event>, e: Event, t: Target)
    ensures ShowsIncarnation(e, t) && e.sight.unit.running ==> SeenRunning(log + [e], t)
    ensures ShowsHost(e, t) ==> HostSeen(log + [e], t)
    ensures ShowsIncarnation(e, t) && HostSeen(log, t) ==> Admitted(log + [e], t)
    ensures ShowsStopped(e, t) && Admitted(log, t) ==> SeenStopped(log + [e], t)
    ensures ShowsEmptyGroup(e, t) && SeenStopped(log, t) ==> SeenEmpty(log + [e], t)
    ensures ShowsRemoval(e, t) && SeenEmpty(log, t) ==> Evidence(log + [e], t)
  {
    var log' := log + [e];
    assert log'[|log|] == e && log'[..|log|] == log;
  }

  lemma GoodRecordLasts(s: State, s': State, r: Receipt)
    requires GoodRecord(s, r) && Later(s, s')
    ensures GoodRecord(s', r)
  {
    AttestationLasts(s.log, s'.log, r.target);
  }

  /** The disk invariant needs only the records themselves, and those last. */
  lemma DiskLasts(s: State, s': State)
    requires DiskInv(s) && Later(s, s') && s'.disk == s.disk
    ensures DiskInv(s')
  {
    forall e | e in Entries(s'.disk) ensures GoodRecord(s', e.receipt) {
      GoodRecordLasts(s, s', e.receipt);
    }
  }

  lemma RetireInvLasts(s: State, w': World)
    requires Inv(s) && Evolves(s.world, w') && w'.boot == s.world.boot
    requires !s.pc.Idle? && !s.pc.Saving? && !Enrolling(s.pc)
    ensures RetireInv(s.(world := w'))
  {
    var s' := s.(world := w');
    GoodRecordLasts(s, s', s.pc.r);
    if s.pc.ProcessEvidence? {
      forall i | 0 <= i < s.pc.k ensures Dead(w', s.pc.r.target, Named(s.pc.r)[i]) {
        assert Dead(s.world, s.pc.r.target, Named(s.pc.r)[i]);
      }
    }
  }

  lemma OutsideKeeps(s: State, w': World)
    requires Inv(s) && Evolves(s.world, w') && w'.boot == s.world.boot
    ensures Inv(s.(world := w'))
  {
    var s' := s.(world := w');
    DiskLasts(s, s');
    if s.pc.Saving? {
      GoodRecordLasts(s, s', s.pc.r);
    } else if !s.pc.Idle? && !Enrolling(s.pc) {
      RetireInvLasts(s, w');
    }
  }

  lemma SurvivorIsAnEntry(s: State, keep: nat, torn: bool)
    requires DiskInv(s)
    ensures
      var kept := Survivor(s.disk, keep, torn);
      && !kept.Torn?
      && (kept.Kept? ==> kept.entry in Entries(s.disk))
      && (s.disk.durable.Kept? ==> kept.Kept?)
  {
    if 1 <= keep <= |s.disk.renamed| {
      var e := s.disk.renamed[keep - 1];
      assert e in Entries(s.disk);
    } else if s.disk.durable.Kept? {
      assert Entries(s.disk)[0] == s.disk.durable.entry;
    }
  }

  lemma CrashKeeps(s: State, keep: nat, torn: bool, w': World)
    requires Inv(s) && Evolves(s.world, w')
    ensures Inv(Step(s, Crash(keep, torn, w')))
  {
    var s' := Step(s, Crash(keep, torn, w'));
    SurvivorIsAnEntry(s, keep, torn);
    if s'.disk.durable.Kept? {
      assert Entries(s'.disk) == [s'.disk.durable.entry];
      GoodRecordLasts(s, s', s'.disk.durable.entry.receipt);
    }
    assert ReportInv(s') by {
      forall i | 0 <= i < |s'.log| ensures Upheld(s', s'.log[i]) {
        assert Upheld(s, s.log[i]);
      }
    }
  }

  lemma BeginKeeps(s: State, a: Action)
    requires Inv(s) && (a.BeginEnroll? || a.BeginRetire?)
    ensures Inv(Step(s, a))
  {
    var s' := Step(s, a);
    if s' != s {
      DiskLasts(s, s');
      assert ReportInv(s') by { ReportLasts(s, s'); }
      if a.BeginRetire? {
        LoadedKeeps(s, s');
      } else {
        assert Entries(s.disk) == [];
      }
    }
  }

  lemma LoadedKeeps(s: State, s': State)
    requires Inv(s) && s.pc.Idle? && Load(s.id, s.disk).Some?
    requires
      var r := Load(s.id, s.disk).value;
      s' == s.(pc := if r.state == Retired then Recover(r) else CheckHost(r))
    ensures RetireInv(s')
  {
    var e, entries := Visible(s.disk).entry, Entries(s.disk);
    assert entries[|entries| - 1] == e;
    GoodRecordLasts(s, s', e.receipt);
  }

  lemma FailKeeps(s: State)
    requires Inv(s)
    ensures Inv(Fail(s))
  {
    var s' := Fail(s);
    DiskLasts(s, s');
    assert ReportInv(s') by { ReportLasts(s, s'); }
  }

  lemma EnrollKeeps(s: State, answer: Answer)
    requires Inv(s) && Enrolling(s.pc)
    ensures Inv(EnrollStep(s, answer))
  {
    var s' := EnrollStep(s, answer);
    if s' == Fail(s) {
      FailKeeps(s);
    } else {
      assert DiskInv(s') by { DiskLasts(s, s'); }
      assert ReportInv(s') by { ReportLasts(s, s'); }
      EnrollGrows(s, answer);
    }
  }

  lemma EnrollGrows(s: State, answer: Answer)
    requires Plausible(s.world) && Enrolling(s.pc) && EnrollInv(s) && EnrollStep(s, answer) != Fail(s)
    ensures PcInv(EnrollStep(s, answer))
  {
    var s' := EnrollStep(s, answer);
    AttestationLasts(s.log, s'.log, s.pc.r.target);
    if s.pc.EnrollInspect? {
      AttestationGrows(s.log, Inspected(Look(s.world), answer), s'.pc.r.target);
    } else if s.pc.EnrollHost? || s.pc.EnrollInit? || s.pc.EnrollGroup? {
      RunningIgnoresHost(s.log, s.pc.r.target, s'.pc.r.target);
    }
  }

  /** Being seen running concerns the incarnation alone. */
  lemma RunningIgnoresHost(log: seq<Event>, t: Target, t': Target)
    requires SeenRunning(log, t)
    requires t'.created == t.created && t'.image == t.image && t'.started == t.started && t'.restarts == t.restarts
    ensures SeenRunning(log, t')
  {
    var i :| 0 <= i < |log| && ShowsIncarnation(log[i], t) && log[i].sight.unit.running;
    assert ShowsIncarnation(log[i], t');
  }

  lemma SaveKeeps(s: State)
    requires Inv(s) && s.pc.Saving?
    ensures Inv(SaveStep(s))
  {
    var s' := SaveStep(s);
    match s.pc.stage
    case Write => SaveQuietly(s, s');
    case Flush => SaveQuietly(s, s');
    case Rename => RenameKeeps(s);
    case Sync => SyncKeeps(s);
  }

  lemma SaveQuietly(s: State, s': State)
    requires Inv(s) && s.pc.Saving? && s.pc.stage in {Write, Flush} && s' == SaveStep(s)
    ensures Inv(s')
  {
    DiskLasts(s, s');
    GoodRecordLasts(s, s', s.pc.r);
  }

  lemma RenameKeeps(s: State)
    requires Inv(s) && s.pc.Saving? && s.pc.stage == Rename
    ensures Inv(SaveStep(s))
  {
    var s', e := SaveStep(s), Entry(s.pc.r, true);
    assert Entries(s'.disk) == Entries(s.disk) + [e];
    assert DiskInv(s') by { RenameDisk(s); }
    assert ReportInv(s') by { RenameReports(s); }
    GoodRecordLasts(s, s', s.pc.r);
  }

  lemma RenameDisk(s: State)
    requires Plausible(s.world) && DiskInv(s) && s.pc.Saving? && s.pc.stage == Rename && SaveInv(s)
    ensures DiskInv(SaveStep(s))
  {
    var s', e := SaveStep(s), Entry(s.pc.r, true);
    assert Entries(s'.disk) == Entries(s.disk) + [e];
    assert forall f :: f in Entries(s'.disk) ==> f.flushed && GoodRecord(s', f.receipt) by {
      forall f | f in Entries(s'.disk) ensures f.flushed && GoodRecord(s', f.receipt) {
        GoodRecordLasts(s, s', f.receipt);
      }
    }
    assert Matches(s, s.pc.r.target) && (s.pc.r.state == Retired || NotRetired(s));
    OneMoreEntry(Entries(s.disk), e);
  }

  lemma OneMoreEntry(entries: seq<Entry>, e: Entry)
    requires NeverUnretired(entries) && forall f :: f in entries ==> f.receipt.target == e.receipt.target
    requires e.receipt.state == Retired || forall f :: f in entries ==> f.receipt.state != Retired
    ensures NeverUnretired(entries + [e])
    ensures forall f, g :: f in entries + [e] && g in entries + [e] ==> f.receipt.target == g.receipt.target
  {
  }

  lemma RenameReports(s: State)
    requires DiskInv(s) && ReportInv(s) && s.pc.Saving? && s.pc.stage == Rename && SaveInv(s)
    ensures ReportInv(SaveStep(s))
  {
    var s', e := SaveStep(s), Entry(s.pc.r, true);
    assert Entries(s'.disk) == Entries(s.disk) + [e];
    assert Entries(s.disk) != [] ==> Entries(s.disk)[0] in Entries(s.disk);
    assert s.disk.durable.Kept? ==> s.disk.durable.entry == Entries(s.disk)[0];
    forall i | 0 <= i < |s'.log| ensures Upheld(s', s'.log[i]) {
      assert Upheld(s, s.log[i]);
    }
  }

  /** Syncing leaves the last renamed record and nothing else. */
  lemma SyncSettles(s: State)
    requires Plausible(s.world) && DiskInv(s) && s.pc.Saving? && s.pc.stage == Sync && SaveInv(s)
    ensures Durable(SaveStep(s), s.pc.r) && Entries(SaveStep(s).disk) == [Entry(s.pc.r, true)]
    ensures Entry(s.pc.r, true) in Entries(s.disk) && GoodRecord(SaveStep(s), s.pc.r)
  {
    var s', e := SaveStep(s), Entry(s.pc.r, true);
    assert Entries(s'.disk) == [e];
    GoodRecordLasts(s, s', e.receipt);
  }

  lemma SyncKeeps(s: State)
    requires Inv(s) && s.pc.Saving? && s.pc.stage == Sync
    ensures Inv(SaveStep(s))
    ensures Durable(SaveStep(s), s.pc.r) && Entries(SaveStep(s).disk) == [Entry(s.pc.r, true)]
  {
    SyncSettles(s);
    SyncContinues(s);
    SyncReports(s);
  }

  lemma SyncContinues(s: State)
    requires Plausible(s.world) && DiskInv(s) && s.pc.Saving? && s.pc.stage == Sync && SaveInv(s)
    ensures PcInv(SaveStep(s))
  {
    SyncSettles(s);
    AttestationLasts(s.log, SaveStep(s).log, s.pc.r.target);
  }

  lemma SyncReports(s: State)
    requires ReportInv(s) && s.pc.Saving? && s.pc.stage == Sync && SaveInv(s) && Matches(s, s.pc.r.target)
    requires NeverUnretired(Entries(s.disk))
    ensures ReportInv(SaveStep(s))
  {
    var s', e, entries := SaveStep(s), Entry(s.pc.r, true), Entries(s.disk);
    assert e == entries[|entries| - 1];
    assert Entries(s'.disk) == [e];
    forall i | 0 <= i < |s'.log| ensures Upheld(s', s'.log[i]) {
      assert i < |s.log| ==> Upheld(s, s.log[i]);
    }
  }

  lemma RecoverKeeps(s: State, answer: Answer)
    requires Inv(s) && s.pc.Recover?
    ensures Inv(RetireStep(s, answer))
  {
    var s', e := RetireStep(s, answer), Visible(s.disk).entry;
    assert e in Entries(s.disk);
    assert Entries(s'.disk) == [e];
    GoodRecordLasts(s, s', e.receipt);
    forall i | 0 <= i < |s'.log| ensures Upheld(s', s'.log[i]) {
      assert i < |s.log| ==> Upheld(s, s.log[i]);
    }
  }

  /** At most one event more, and that no report. */
  predicate AddsNoReport(log: seq<Event>, log': seq<Event>) {
    && log <= log' && |log'| <= |log| + 1
    && (|log'| > |log| ==> !log'[|log|].EnrollReturned? && !log'[|log|].RetireReturned?)
  }

  lemma ReportLasts(s: State, s': State)
    requires ReportInv(s) && s'.disk == s.disk
    requires AddsNoReport(s.log, s'.log)
    ensures ReportInv(s')
  {
    forall i | 0 <= i < |s'.log| ensures Upheld(s', s'.log[i]) {
      assert i < |s.log| ==> Upheld(s, s.log[i]);
    }
  }

  /** With the disk untouched and no report made, disk and reports carry over. */
  lemma CarriesOver(s: State, s': State)
    requires Inv(s) && Later(s, s') && s'.disk == s.disk && PcInv(s')
    requires AddsNoReport(s.log, s'.log)
    ensures Inv(s')
  {
    assert DiskInv(s') by { DiskLasts(s, s'); }
    assert ReportInv(s') by { ReportLasts(s, s'); }
  }

  lemma RetireFrame(s: State, answer: Answer)
    requires Plausible(s.world) && !s.pc.Idle? && !s.pc.Saving? && !Enrolling(s.pc) && !s.pc.Recover?
    ensures
      var s' := RetireStep(s, answer);
      && Later(s, s') && s'.disk == s.disk
      && AddsNoReport(s.log, s'.log)
  {
  }

  lemma RetireKeeps(s: State, answer: Answer)
    requires Inv(s) && !s.pc.Idle? && !s.pc.Saving? && !Enrolling(s.pc) && !s.pc.Recover?
    ensures Inv(RetireStep(s, answer))
  {
    var s' := RetireStep(s, answer);
    if s' == Fail(s) {
      FailKeeps(s);
    } else {
      assert PcInv(s') by { RetireGrows(s, answer); }
      RetireFrame(s, answer);
      CarriesOver(s, s');
    }
  }

  lemma HostGrows(s: State, answer: Answer)
    requires Plausible(s.world) && s.pc.CheckHost? && RetireInv(s) && RetireStep(s, answer) != Fail(s)
    ensures PcInv(RetireStep(s, answer))
  {
    var s' := RetireStep(s, answer);
    GoodRecordLasts(s, s', s.pc.r);
    AttestationGrows(s.log, SawHost(Look(s.world)), s.pc.r.target);
  }

  lemma InspectGrows(s: State, answer: Answer)
    requires Plausible(s.world) && s.pc.Inspect? && RetireInv(s) && RetireStep(s, answer) != Fail(s)
    ensures PcInv(RetireStep(s, answer))
  {
    var s' := RetireStep(s, answer);
    GoodRecordLasts(s, s', s.pc.r);
    AttestationGrows(s.log, Inspected(Look(s.world), answer), s.pc.r.target);
  }

  lemma ChecksGrow(s: State, answer: Answer)
    requires Plausible(s.world) && (s.pc.CheckInit? || s.pc.CheckGroup?) && RetireInv(s)
    requires RetireStep(s, answer) != Fail(s)
    ensures PcInv(RetireStep(s, answer))
  {
    GoodRecordLasts(s, RetireStep(s, answer), s.pc.r);
  }

  lemma MembersGrow(s: State, answer: Answer)
    requires Plausible(s.world) && s.pc.AddMembers? && RetireInv(s) && RetireStep(s, answer) != Fail(s)
    ensures PcInv(RetireStep(s, answer))
  {
    var s' := RetireStep(s, answer);
    AttestationLasts(s.log, s'.log, s.pc.r.target);
    assert AllKnown(s'.world, s'.pc.r);
  }

  lemma StopGrows(s: State, answer: Answer)
    requires Plausible(s.world) && s.pc.Stop? && RetireInv(s)
    ensures PcInv(RetireStep(s, answer))
  {
    var s' := RetireStep(s, answer);
    GoodRecordLasts(s, s', s.pc.r);
    AttestationLasts(s.log, s'.log, s.pc.r.target);
  }

  lemma ReinspectGrows(s: State, answer: Answer)
    requires Plausible(s.world) && s.pc.Reinspect? && RetireInv(s) && RetireStep(s, answer) != Fail(s)
    ensures PcInv(RetireStep(s, answer))
  {
    GoodRecordLasts(s, RetireStep(s, answer), s.pc.r);
    AttestationGrows(s.log, Reinspected(Look(s.world)), s.pc.r.target);
  }

  lemma GroupGrows(s: State, answer: Answer)
    requires Plausible(s.world) && s.pc.GroupEvidence? && RetireInv(s) && RetireStep(s, answer) != Fail(s)
    ensures PcInv(RetireStep(s, answer))
  {
    GoodRecordLasts(s, RetireStep(s, answer), s.pc.r);
    AttestationGrows(s.log, SawGroup(s.pc.r.target.cgroup, false), s.pc.r.target);
  }

  lemma ProcessGrows(s: State, answer: Answer)
    requires Plausible(s.world) && s.pc.ProcessEvidence? && RetireInv(s) && RetireStep(s, answer) != Fail(s)
    ensures PcInv(RetireStep(s, answer))
    ensures RetireStep(s, answer).pc.Remove? ==> AllDead(s.world, s.pc.r)
  {
    var s', r := RetireStep(s, answer), s.pc.r;
    GoodRecordLasts(s, s', r);
    OneMoreDead(s);
  }

  /** An identity that is known and not live is dead; after the last one all of them are. */
  lemma OneMoreDead(s: State)
    requires s.pc.ProcessEvidence? && RetireInv(s)
    ensures
      var w, r, k := s.world, s.pc.r, s.pc.k;
      (w.boot, Named(r)[k]) !in w.live ==>
        && (forall i :: 0 <= i <= k ==> Dead(w, r.target, Named(r)[i]))
        && (k + 1 == |Named(r)| ==> AllDead(w, r))
  {
    var w, r, k := s.world, s.pc.r, s.pc.k;
    assert AllKnown(w, r) && Named(r)[k] in Named(r);
    assert (w.boot, Named(r)[k]) !in w.live ==> Dead(w, r.target, Named(r)[k]);
  }

  lemma RemovalGrows(s: State, answer: Answer)
    requires Plausible(s.world) && s.pc.Remove? && RetireInv(s) && RetireStep(s, answer) != Fail(s)
    ensures PcInv(RetireStep(s, answer))
  {
    var s', r := RetireStep(s, answer), s.pc.r;
    AttestationLasts(s.log, s'.log, r.target);
    AttestationGrows(s.log, Removed(s.id, Look(s.world)), r.target);
    assert Named(s'.pc.r) == Named(r);
  }

  lemma RetireGrows(s: State, answer: Answer)
    requires Plausible(s.world) && !s.pc.Idle? && !s.pc.Saving? && !Enrolling(s.pc) && !s.pc.Recover? && RetireInv(s)
    requires RetireStep(s, answer) != Fail(s)
    ensures PcInv(RetireStep(s, answer))
  {
    match s.pc {
      case CheckHost(_) => HostGrows(s, answer);
      case Inspect(_) => InspectGrows(s, answer);
      case AddMembers(_) => MembersGrow(s, answer);
      case Stop(_) => StopGrows(s, answer);
      case Reinspect(_) => ReinspectGrows(s, answer);
      case GroupEvidence(_) => GroupGrows(s, answer);
      case ProcessEvidence(_, _) => ProcessGrows(s, answer);
      case Remove(_) => RemovalGrows(s, answer);
      case _ => ChecksGrow(s, answer);
    }
  }

  lemma StepKeeps(s: State, a: Action)
    requires Inv(s)
    ensures Inv(Step(s, a))
  {
    match a
    case Outside(w') => if Evolves(s.world, w') && w'.boot == s.world.boot { OutsideKeeps(s, w'); }
    case Crash(keep, torn, w') => if Evolves(s.world, w') { CrashKeeps(s, keep, torn, w'); }
    case BeginEnroll(_, _, _) => BeginKeeps(s, a);
    case BeginRetire(_) => BeginKeeps(s, a);
    case Advance(ok, answer) =>
      if !ok { FailKeeps(s); }
      else if s.pc.Saving? { SaveKeeps(s); }
      else if Enrolling(s.pc) { EnrollKeeps(s, answer); }
      else if s.pc.Recover? { RecoverKeeps(s, answer); }
      else if !s.pc.Idle? { RetireKeeps(s, answer); }
  }

  lemma {:induction false} RunKeeps(s: State, actions: seq<Action>)
    requires Inv(s)
    ensures Inv(Run(s, actions))
    decreases |actions|
  {
    if actions != [] {
      StepKeeps(s, actions[0]);
      RunKeeps(Step(s, actions[0]), actions[1..]);
    }
  }

  lemma StepLog(s: State, a: Action)
    ensures s.log <= Step(s, a).log && Step(s, a).id == s.id
  {
  }

  lemma {:induction false} LogGrows(s: State, actions: seq<Action>)
    ensures s.log <= Run(s, actions).log && Run(s, actions).id == s.id
    decreases |actions|
  {
    if actions != [] {
      StepLog(s, actions[0]);
      LogGrows(Step(s, actions[0]), actions[1..]);
    }
  }

  // ----- the promises, over every run from a fresh disk -----

  /**
   * Whatever crashes and retries happened, a record reading "retired" means the container is gone and every
   * process it names is dead; and that a container not running was removed after its group was seen unpopulated,
   * after it was seen in its enrolled incarnation and boot not running and without a process, after that
   * incarnation passed the profile, after the enrolled host and supervisor were seen. No record is ever torn, the
   * one that is there always loads, and its incarnation was once seen running.
   */
  lemma RetiredIsEarned(id: string, world: World, actions: seq<Action>)
    requires Plausible(world)
    ensures
      var s := Run(Start(id, world), actions);
      && !Visible(s.disk).Torn?
      && (Visible(s.disk).Kept? ==> Load(id, s.disk).Some?)
      && (Load(id, s.disk).Some? ==> SeenRunning(s.log, Load(id, s.disk).value.target))
      && (Load(id, s.disk).Some? && Load(id, s.disk).value.state == Retired ==> Earned(s, Load(id, s.disk).value))
  {
    RunKeeps(Start(id, world), actions);
    LogGrows(Start(id, world), actions);
    var s := Run(Start(id, world), actions);
    assert Visible(s.disk).Kept? ==> Visible(s.disk).entry in Entries(s.disk);
  }

  /** A stop is issued only while the synced record, with no rename outstanding, is the "stopping" one acted on. */
  lemma StopFollowsSyncedRecord(id: string, world: World, actions: seq<Action>, a: Action)
    requires Plausible(world)
    ensures
      var s := Run(Start(id, world), actions);
      var s' := Step(s, a);
      forall r :: |s'.log| > |s.log| && s'.log[|s.log|] == StopIssued(r) ==>
        r.state == Stopping && Durable(s, r) && s.world.boot == r.target.boot
  {
    RunKeeps(Start(id, world), actions);
    StopsComeFromStop(Run(Start(id, world), actions), a);
  }

  lemma StopsComeFromStop(s: State, a: Action)
    ensures
      var s' := Step(s, a);
      |s'.log| > |s.log| && s'.log[|s.log|].StopIssued? ==> s.pc.Stop? && s'.log[|s.log|] == StopIssued(s.pc.r)
  {
  }

  /** Once a retirement was reported, every later load, after any crashes, reads "retired" with the same target. */
  lemma ReportedRetirementLasts(id: string, world: World, before: seq<Action>, after: seq<Action>, t: Target)
    requires Plausible(world)
    requires RetireReturned(t) in Run(Start(id, world), before).log
    ensures
      var s := Run(Run(Start(id, world), before), after);
      var loaded := Load(id, s.disk);
      loaded.Some? && loaded.value.state == Retired && loaded.value.target == t
  {
    ReportedLasts(id, world, before, after, RetireReturned(t));
  }

  /** Once an enrolment was reported, every later load finds that target. */
  lemma ReportedEnrolmentLasts(id: string, world: World, before: seq<Action>, after: seq<Action>, r: Receipt)
    requires Plausible(world)
    requires EnrollReturned(r) in Run(Start(id, world), before).log
    ensures
      var loaded := Load(id, Run(Run(Start(id, world), before), after).disk);
      loaded.Some? && loaded.value.target == r.target
  {
    ReportedLasts(id, world, before, after, EnrollReturned(r));
  }

  lemma ReportedLasts(id: string, world: World, before: seq<Action>, after: seq<Action>, event: Event)
    requires Plausible(world)
    requires event in Run(Start(id, world), before).log
    ensures
      var s := Run(Run(Start(id, world), before), after);
      && Upheld(s, event)
      && (Visible(s.disk).Kept? ==> Visible(s.disk).entry in Entries(s.disk) && Load(id, s.disk).Some?)
  {
    var middle := Run(Start(id, world), before);
    var s := Run(middle, after);
    RunKeeps(Start(id, world), before);
    RunKeeps(middle, after);
    LogGrows(Start(id, world), before);
    LogGrows(middle, after);
    var i :| 0 <= i < |middle.log| && middle.log[i] == event;
    assert s.log[i] == event;
    assert Upheld(s, s.log[i]);
  }
}
