/** Which processes the records name: everything shown at enrolment and before a stop, kept until they are all dead. */
module PlacementMembers {
  import opened Basics
  import opened Placement

  /** What the latest membership answer showed. */
  function LastMembers(log: seq<Event>): Option<seq<Process>> {
    if log == [] then None
    else if log[|log| - 1].SawMembers? then Some(log[|log| - 1].processes)
    else LastMembers(log[..|log| - 1])
  }

  lemma LastMembersSnoc(log: seq<Event>, e: Event)
    ensures LastMembers(log + [e]) == if e.SawMembers? then Some(e.processes) else LastMembers(log)
  {
    assert (log + [e])[..|log|] == log;
  }

  /** The record names every process the latest answer showed. */
  predicate NamesShown(log: seq<Event>, r: Receipt) {
    LastMembers(log).Some? && forall p :: p in LastMembers(log).value ==> p in r.members
  }

  // ----- what every state keeps -----

  /** Later records name at least what earlier ones did. */
  predicate Growing(entries: seq<Entry>) {
    forall i, j :: 0 <= i <= j < |entries| ==> entries[i].receipt.members <= entries[j].receipt.members
  }

  /** The record at hand names at least what every record on disk does. */
  predicate Covers(s: State) {
    !s.pc.Idle? && !Enrolling(s.pc) ==>
      forall e :: e in Entries(s.disk) ==> e.receipt.members <= s.pc.r.members
  }

  /** A record about to be enrolled names exactly what was shown; one about to be stopped on names all of it. */
  predicate Shown(s: State) {
    && (s.pc.Saving? && s.pc.purpose.ForEnroll? ==> LastMembers(s.log) == Some(s.pc.r.members))
    && (s.pc.Saving? && s.pc.purpose == ForStop(true) ==> NamesShown(s.log, s.pc.r))
    && (s.pc.Stop? ==> NamesShown(s.log, s.pc.r))
  }

  predicate EventOk(log: seq<Event>, i: nat)
    requires i < |log|
  {
    match log[i]
    case EnrollReturned(r) => LastMembers(log[..i]) == Some(r.members)
    case StopIssued(r) => NamesShown(log[..i], r)
    case _ => true
  }

  predicate LogOk(log: seq<Event>) {
    forall i :: 0 <= i < |log| ==> EventOk(log, i)
  }

  /** The durable record is of this target and names at least these processes. */
  predicate Carries(d: Disk, t: Target, members: seq<Process>) {
    d.durable.Kept? && d.durable.entry.receipt.target == t && members <= d.durable.entry.receipt.members
  }

  predicate Carried(d: Disk, e: Event) {
    match e
    case EnrollReturned(r) => Carries(d, r.target, r.members)
    case StopIssued(r) => Carries(d, r.target, r.members)
    case _ => true
  }

  predicate AllCarried(d: Disk, log: seq<Event>) {
    forall i :: 0 <= i < |log| ==> Carried(d, log[i])
  }

  predicate MemberInv(s: State) {
    Growing(Entries(s.disk)) && Covers(s) && Shown(s) && LogOk(s.log) && AllCarried(s.disk, s.log)
  }

  // ----- every step -----

  lemma LogOkSnoc(log: seq<Event>, e: Event)
    requires LogOk(log)
    requires e.EnrollReturned? ==> LastMembers(log) == Some(e.enrolled.members)
    requires e.StopIssued? ==> NamesShown(log, e.stopped)
    ensures LogOk(log + [e])
  {
    var log' := log + [e];
    forall i | 0 <= i < |log'| ensures EventOk(log', i) {
      if i < |log| {
        assert log'[..i] == log[..i] && log'[i] == log[i] && EventOk(log, i);
      } else {
        assert log'[..i] == log;
      }
    }
  }

  /** A durable record gives way only to one of the same target that names at least as much. */
  predicate Succeeds(d: Disk, d': Disk) {
    d.durable.Kept? ==> Carries(d', d.durable.entry.receipt.target, d.durable.entry.receipt.members)
  }

  lemma CrashSucceeds(s: State, keep: nat, torn: bool)
    requires DiskInv(s) && Growing(Entries(s.disk))
    ensures Succeeds(s.disk, Disk(Survivor(s.disk, keep, torn), []))
  {
    var entries := Entries(s.disk);
    SurvivorIsAnEntry(s, keep, torn);
    if s.disk.durable.Kept? {
      assert entries[0] == s.disk.durable.entry;
    }
  }

  lemma SyncSucceeds(s: State)
    requires DiskInv(s) && Growing(Entries(s.disk))
    ensures Succeeds(s.disk, SyncDirectory(s.disk))
  {
    if s.disk.durable.Kept? {
      DurableIsLoaded(s);
    }
  }

  /** The durable record changes only by a crash or a sync. */
  lemma StepDurable(s: State, a: Action)
    ensures
      var d := Step(s, a).disk;
      || d.durable == s.disk.durable || d == SyncDirectory(s.disk)
      || (a.Crash? && d == Disk(Survivor(s.disk, a.keep, a.torn), []))
  {
  }

  lemma StepSucceeds(s: State, a: Action)
    requires DiskInv(s) && Growing(Entries(s.disk))
    ensures Succeeds(s.disk, Step(s, a).disk)
  {
    StepDurable(s, a);
    SyncSucceeds(s);
    if a.Crash? {
      CrashSucceeds(s, a.keep, a.torn);
    }
  }

  lemma CarriedStays(s: State, s': State)
    requires AllCarried(s.disk, s.log) && Succeeds(s.disk, s'.disk)
    ensures AllCarried(s'.disk, s.log)
  {
    forall i | 0 <= i < |s.log| ensures Carried(s'.disk, s.log[i]) {
      assert Carried(s.disk, s.log[i]);
    }
  }

  lemma StepGrowing(s: State, a: Action)
    requires Growing(Entries(s.disk)) && Covers(s)
    ensures Growing(Entries(Step(s, a).disk))
  {
    var d, d' := s.disk, Step(s, a).disk;
    if d' == Disk(d'.durable, []) {
      assert |Entries(d')| <= 1;
    } else if d' != d {
      assert Entries(d') == Entries(d) + [Entry(s.pc.r, s.pc.flushed)];
    }
  }

  lemma StepCovers(s: State, a: Action)
    requires Inv(s) && MemberInv(s)
    ensures Covers(Step(s, a))
  {
    if a.Advance? && a.ok {
      if s.pc.Saving? {
        SaveCovers(s);
      } else if Enrolling(s.pc) {
        EnrollCovers(s, a.answer);
      } else {
        RetireCovers(s, a.answer);
      }
    } else {
      OtherCovers(s, a);
    }
  }

  lemma OtherCovers(s: State, a: Action)
    requires Growing(Entries(s.disk)) && Covers(s) && (a.Advance? ==> !a.ok)
    ensures Covers(Step(s, a))
  {
    if a.BeginRetire? && Step(s, a).pc != s.pc {
      var entries := Entries(s.disk);
      assert entries[|entries| - 1] == Visible(s.disk).entry;
    }
  }

  lemma EnrollCovers(s: State, answer: Answer)
    requires Enrolling(s.pc) && Entries(s.disk) == []
    ensures Covers(EnrollStep(s, answer))
  {
    assert EnrollStep(s, answer).disk == s.disk;
  }

  lemma RetireCovers(s: State, answer: Answer)
    requires !s.pc.Saving? && !Enrolling(s.pc) && Covers(s)
    ensures Covers(RetireStep(s, answer))
  {
    var s' := RetireStep(s, answer);
    assert s'.pc.Idle? || (s'.disk == s.disk && s.pc.r.members <= s'.pc.r.members);
  }

  lemma SaveCovers(s: State)
    requires Inv(s) && Covers(s) && s.pc.Saving?
    ensures Covers(SaveStep(s))
  {
    var s' := SaveStep(s);
    if s.pc.stage == Rename {
      assert Entries(s'.disk) == Entries(s.disk) + [Entry(s.pc.r, s.pc.flushed)];
    } else if s.pc.stage == Sync {
      SyncSettles(s);
    }
  }

  lemma StepShown(s: State, a: Action)
    requires Shown(s)
    ensures Shown(Step(s, a))
  {
    if a.Advance? && a.ok {
      if s.pc.Saving? {
        SaveShown(s);
      } else if Enrolling(s.pc) {
        EnrollShown(s, a.answer);
      } else {
        RetireShown(s, a.answer);
      }
    }
  }

  lemma SaveShown(s: State)
    requires Shown(s) && s.pc.Saving?
    ensures Shown(SaveStep(s))
  {
  }

  lemma EnrollShown(s: State, answer: Answer)
    requires Enrolling(s.pc)
    ensures Shown(EnrollStep(s, answer))
  {
    if s.pc.EnrollMembers? && answer.Seen? {
      LastMembersSnoc(s.log, SawMembers(answer.processes));
    }
  }

  lemma RetireShown(s: State, answer: Answer)
    requires !s.pc.Saving? && !Enrolling(s.pc)
    ensures Shown(RetireStep(s, answer))
  {
    if s.pc.AddMembers? && answer.Seen? {
      LastMembersSnoc(s.log, SawMembers(answer.processes));
    }
  }

  /** Each step adds at most one event. */
  lemma StepLogs(s: State, a: Action)
    ensures s.log <= Step(s, a).log && |Step(s, a).log| <= |s.log| + 1
  {
  }

  lemma StepLogOk(s: State, a: Action)
    requires Inv(s) && MemberInv(s)
    ensures LogOk(Step(s, a).log) && AllCarried(Step(s, a).disk, Step(s, a).log)
  {
    var s' := Step(s, a);
    StepSucceeds(s, a);
    CarriedStays(s, s');
    StepLogs(s, a);
    if s'.log != s.log {
      var e := s'.log[|s.log|];
      assert s'.log == s.log + [e];
      EventIsFounded(s, a, e);
      LogOkSnoc(s.log, e);
    }
  }

  lemma EventIsFounded(s: State, a: Action, e: Event)
    requires Inv(s) && MemberInv(s) && Step(s, a).log == s.log + [e]
    ensures e.EnrollReturned? ==> LastMembers(s.log) == Some(e.enrolled.members)
    ensures e.StopIssued? ==> NamesShown(s.log, e.stopped)
    ensures Carried(Step(s, a).disk, e)
  {
    assert Step(s, a).log[|s.log|] == e;
    if e.StopIssued? {
      StopsComeFromStop(s, a);
    } else if e.EnrollReturned? {
      EnrolmentsComeFromSync(s, a);
      SyncSettles(s);
    }
  }

  lemma EnrolmentsComeFromSync(s: State, a: Action)
    requires |Step(s, a).log| > |s.log| && Step(s, a).log[|s.log|].EnrollReturned?
    ensures s.pc.Saving? && s.pc.stage == Sync && s.pc.purpose.ForEnroll? && Step(s, a) == SaveStep(s)
    ensures Step(s, a).log[|s.log|] == EnrollReturned(s.pc.r)
  {
  }

  lemma {:induction false} RunNames(s: State, actions: seq<Action>)
    requires Inv(s) && MemberInv(s)
    ensures MemberInv(Run(s, actions)) && Succeeds(s.disk, Run(s, actions).disk)
    decreases |actions|
  {
    if actions != [] {
      var next := Step(s, actions[0]);
      StepKeeps(s, actions[0]);
      StepSucceeds(s, actions[0]);
      StepGrowing(s, actions[0]);
      StepCovers(s, actions[0]);
      StepShown(s, actions[0]);
      StepLogOk(s, actions[0]);
      RunNames(next, actions[1..]);
    }
  }

  // ----- over every run -----

  /** A membership event is the very answer given, and both membership questions are logged when they are passed. */
  lemma AnswersAreLogged(s: State, a: Action)
    ensures
      var s' := Step(s, a);
      && (|s'.log| > |s.log| && s'.log[|s.log|].SawMembers? ==> a == Advance(true, Seen(s'.log[|s.log|].processes)))
      && ((s.pc.EnrollMembers? || s.pc.AddMembers?) && a.Advance? && s'.pc.Saving? ==>
            s'.log == s.log + [SawMembers(a.answer.processes)])
  {
  }

  /**
   * In every run with crashes: an enrolled record names exactly the processes shown last, and the record of a stop
   * names every process shown last before it.
   */
  lemma RecordsNameWhatWasShown(id: string, world: World, actions: seq<Action>, i: nat)
    requires Plausible(world) && i < |Run(Start(id, world), actions).log|
    ensures
      var log := Run(Start(id, world), actions).log;
      && (log[i].EnrollReturned? ==> LastMembers(log[..i]) == Some(log[i].enrolled.members))
      && (log[i].StopIssued? ==> NamesShown(log[..i], log[i].stopped))
  {
    RunNames(Start(id, world), actions);
    assert EventOk(Run(Start(id, world), actions).log, i);
  }

  /** What an enrolled or stopped-on record names, every later record of the container names, after any crashes. */
  lemma NamesAreKept(id: string, world: World, actions: seq<Action>, i: nat)
    requires Plausible(world) && i < |Run(Start(id, world), actions).log|
    requires
      var e := Run(Start(id, world), actions).log[i];
      e.EnrollReturned? || e.StopIssued?
    ensures
      var s := Run(Start(id, world), actions);
      var r := if s.log[i].StopIssued? then s.log[i].stopped else s.log[i].enrolled;
      var loaded := Load(id, s.disk);
      loaded.Some? && loaded.value.target == r.target && r.members <= loaded.value.members
  {
    var s := Run(Start(id, world), actions);
    assert MemberInv(s) by {
      RunNames(Start(id, world), actions);
    }
    assert DiskInv(s) && s.id == id by {
      RunKeeps(Start(id, world), actions);
      LogGrows(Start(id, world), actions);
    }
    CarriedIsLoaded(s, i);
  }

  lemma CarriedIsLoaded(s: State, i: nat)
    requires DiskInv(s) && MemberInv(s) && i < |s.log| && (s.log[i].EnrollReturned? || s.log[i].StopIssued?)
    ensures
      var r := if s.log[i].StopIssued? then s.log[i].stopped else s.log[i].enrolled;
      var loaded := Load(s.id, s.disk);
      loaded.Some? && loaded.value.target == r.target && r.members <= loaded.value.members
  {
    assert Carried(s.disk, s.log[i]);
    DurableIsLoaded(s);
  }

  /** What is read at any moment names at least what a crash is sure to find. */
  lemma DurableIsLoaded(s: State)
    requires DiskInv(s) && Growing(Entries(s.disk)) && s.disk.durable.Kept?
    ensures
      var r := s.disk.durable.entry.receipt;
      var loaded := Load(s.id, s.disk);
      loaded.Some? && loaded.value.target == r.target && r.members <= loaded.value.members
  {
    var entries := Entries(s.disk);
    assert entries[0] == s.disk.durable.entry && entries[|entries| - 1] == Visible(s.disk).entry;
  }

  /** A synced record's names outlive every crash, whether or not the stop it was written for was issued. */
  lemma SyncedNamesAreKept(id: string, world: World, before: seq<Action>, after: seq<Action>)
    requires Plausible(world) && Run(Start(id, world), before).disk.durable.Kept?
    ensures
      var r := Run(Start(id, world), before).disk.durable.entry.receipt;
      var loaded := Load(id, Run(Run(Start(id, world), before), after).disk);
      loaded.Some? && loaded.value.target == r.target && r.members <= loaded.value.members
  {
    var middle := Run(Start(id, world), before);
    var s := Run(middle, after);
    RunNames(Start(id, world), before);
    RunKeeps(Start(id, world), before);
    RunNames(middle, after);
    RunKeeps(middle, after);
    LogGrows(Start(id, world), before);
    LogGrows(middle, after);
    DurableIsLoaded(s);
  }

  /** Once the record reads "retired", every process shown last before any stop is dead, wherever it went since. */
  lemma ProcessesSeenAtStopsAreDead(id: string, world: World, actions: seq<Action>, i: nat)
    requires Plausible(world) && i < |Run(Start(id, world), actions).log|
    requires
      var s := Run(Start(id, world), actions);
      s.log[i].StopIssued? && Load(id, s.disk).Some? && Load(id, s.disk).value.state == Retired
    ensures
      var s := Run(Start(id, world), actions);
      var seen := LastMembers(s.log[..i]);
      seen.Some? && forall p :: p in seen.value ==> Dead(s.world, s.log[i].stopped.target, p)
  {
    var s := Run(Start(id, world), actions);
    RecordsNameWhatWasShown(id, world, actions, i);
    NamesAreKept(id, world, actions, i);
    RetiredIsEarned(id, world, actions);
    var r, kept := s.log[i].stopped, Load(id, s.disk).value;
    forall p | p in LastMembers(s.log[..i]).value ensures Dead(s.world, r.target, p) {
      assert p in r.members && p in kept.members && p in Named(kept);
    }
  }
}
