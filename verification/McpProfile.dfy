/** The verified tool profile: the native inventory is checked once, and only what was verified may be called. */
module McpProfile {
  import opened Basics

  datatype Identity = Identity(server: string, name: string)

  /** A declared server; no list of allowed tools means all of them. */
  datatype Server = Server(name: string, allowed: Option<seq<string>>)

  datatype Status = Status(name: string, connected: bool, tools: seq<string>)

  const FUNCTIONS := "functions"
  const REMOTE_PREFIX := "claude.ai "

  // ----- native names -----

  predicate Plain(c: char) {
    'a' <= c <= 'z' || 'A' <= c <= 'Z' || '0' <= c <= '9' || c == '_' || c == '-'
  }

  function Plainly(text: string): string {
    seq(|text|, i requires 0 <= i < |text| => if Plain(text[i]) then text[i] else '_')
  }

  /** Runs of underscores become one. */
  function Collapse(text: string): string {
    if |text| < 2 then text
    else if text[0] == '_' && text[1] == '_' then Collapse(text[1..])
    else [text[0]] + Collapse(text[1..])
  }

  /** One underscore is taken off either end. */
  function Strip(text: string): string {
    var back := if text != [] && text[|text| - 1] == '_' then text[..|text| - 1] else text;
    if back != [] && back[0] == '_' then back[1..] else back
  }

  function NativeSuffix(tool: string): string {
    if REMOTE_PREFIX <= tool then Strip(Collapse(Plainly(tool))) else Plainly(tool)
  }

  function NativeToolName(id: Identity): string {
    "mcp__" + id.server + "__" + NativeSuffix(id.name)
  }

  predicate AllPlain(text: string) {
    forall i :: 0 <= i < |text| ==> Plain(text[i])
  }

  predicate SingleUnderscores(text: string) {
    forall i, j :: 0 <= i && j == i + 1 < |text| ==> text[i] != '_' || text[j] != '_'
  }

  lemma {:induction false} CollapseShape(text: string)
    requires AllPlain(text)
    ensures AllPlain(Collapse(text)) && SingleUnderscores(Collapse(text))
    ensures text != "" ==> Collapse(text) != "" && Collapse(text)[0] == text[0]
  {
    if |text| >= 2 {
      CollapseShape(text[1..]);
    }
  }

  /**
   * A native name is spelt in plain characters. A tool already spelt so keeps its spelling; one of a remote
   * connector loses doubled underscores and those at its ends.
   */
  lemma NativeNamesArePlain(tool: string)
    ensures AllPlain(NativeSuffix(tool))
    ensures AllPlain(tool) ==> NativeSuffix(tool) == tool
    ensures REMOTE_PREFIX <= tool ==>
      var suffix := NativeSuffix(tool);
      SingleUnderscores(suffix) && (suffix != "" ==> suffix[0] != '_' && suffix[|suffix| - 1] != '_')
  {
    if REMOTE_PREFIX <= tool {
      assert tool[9] == ' ' && !Plain(tool[9]);
      CollapseShape(Plainly(tool));
      StripShape(Collapse(Plainly(tool)));
    } else if AllPlain(tool) {
      assert Plainly(tool) == tool;
    }
  }

  lemma SliceShape(text: string, low: nat, high: nat)
    requires low <= high <= |text| && AllPlain(text) && SingleUnderscores(text)
    ensures AllPlain(text[low..high]) && SingleUnderscores(text[low..high])
  {
    var slice := text[low..high];
    forall i, j | 0 <= i && j == i + 1 < |slice| ensures slice[i] != '_' || slice[j] != '_' {
      assert slice[i] == text[low + i] && slice[j] == text[low + j];
    }
  }

  lemma StripShape(text: string)
    requires AllPlain(text) && SingleUnderscores(text)
    ensures AllPlain(Strip(text)) && SingleUnderscores(Strip(text))
    ensures Strip(text) != "" ==> Strip(text)[0] != '_' && Strip(text)[|Strip(text)| - 1] != '_'
  {
    if text != "" {
      var high := if text[|text| - 1] == '_' then |text| - 1 else |text|;
      var low := if high > 0 && text[0] == '_' then 1 else 0;
      assert Strip(text) == text[low..high];
      SliceShape(text, low, high);
      assert |text| > 1 ==> text[0] != '_' || text[1] != '_';
      assert |text| > 1 ==> text[|text| - 2] != '_' || text[|text| - 1] != '_';
    }
  }

  /** Within a server, plainly spelt tools never share a native name. */
  lemma PlainToolsAreTold(a: Identity, b: Identity)
    requires a.server == b.server && AllPlain(a.name) && AllPlain(b.name) && NativeToolName(a) == NativeToolName(b)
    ensures a == b
  {
    NativeNamesArePlain(a.name);
    NativeNamesArePlain(b.name);
    var n := |"mcp__" + a.server + "__"|;
    assert NativeToolName(a)[n..] == a.name && NativeToolName(b)[n..] == b.name;
  }

  // ----- what the statuses offer -----

  function Declared(servers: seq<Server>): map<string, Server> {
    if servers == [] then map[] else
      var last := servers[|servers| - 1];
      Declared(servers[..|servers| - 1])[last.name := last]
  }

  predicate IsFunctions(status: Status, functions: seq<string>) {
    status.name == FUNCTIONS && functions != []
  }

  /** The tools one status offers, the host's own functions aside. */
  function OffersOf(status: Status, functions: seq<string>): seq<Identity> {
    if IsFunctions(status, functions) then []
    else seq(|status.tools|, j requires 0 <= j < |status.tools| => Identity(status.name, status.tools[j]))
  }

  function Offers(statuses: seq<Status>, functions: seq<string>): seq<Identity> {
    if statuses == [] then []
    else Offers(statuses[..|statuses| - 1], functions) + OffersOf(statuses[|statuses| - 1], functions)
  }

  function Names(ids: seq<Identity>): seq<string> {
    seq(|ids|, i requires 0 <= i < |ids| => NativeToolName(ids[i]))
  }

  predicate Allowed(declared: map<string, Server>, id: Identity) {
    id.server in declared && (declared[id.server].allowed.Some? ==> id.name in declared[id.server].allowed.value)
  }

  function Expected(ids: seq<Identity>, declared: map<string, Server>): map<string, Identity> {
    if ids == [] then map[] else
      var last := ids[|ids| - 1];
      var before := Expected(ids[..|ids| - 1], declared);
      if Allowed(declared, last) then before[NativeToolName(last) := last] else before
  }

  /** With no ambiguous names, the expected map holds each allowed tool under its own name, and nothing else. */
  lemma {:induction false} ExpectedIsExact(ids: seq<Identity>, declared: map<string, Server>)
    requires Distinct(Names(ids))
    ensures forall id :: id in ids && Allowed(declared, id) ==>
      NativeToolName(id) in Expected(ids, declared) && Expected(ids, declared)[NativeToolName(id)] == id
    ensures forall name :: name in Expected(ids, declared) ==>
      var id := Expected(ids, declared)[name];
      id in ids && Allowed(declared, id) && NativeToolName(id) == name
  {
    if ids != [] {
      var front, last := ids[..|ids| - 1], ids[|ids| - 1];
      assert Names(front) == Names(ids)[..|front|];
      ExpectedIsExact(front, declared);
      forall id | id in front ensures NativeToolName(id) != NativeToolName(last) {
        var i :| 0 <= i < |front| && front[i] == id;
        assert Names(ids)[i] != Names(ids)[|front|];
      }
      assert ids == front + [last];
    }
  }

  // ----- when an inventory is verified -----

  function Labels(statuses: seq<Status>): seq<string> {
    seq(|statuses|, i requires 0 <= i < |statuses| => statuses[i].name)
  }

  function FunctionServer(functions: seq<string>): set<string> {
    if functions == [] then {} else {FUNCTIONS}
  }

  /** Each declared server, and the function server when there are functions, reports once, connected; no other does. */
  predicate Servers(statuses: seq<Status>, declared: map<string, Server>, functions: seq<string>) {
    && Distinct(Labels(statuses)) && AllConnected(statuses)
    && declared.Keys !! FunctionServer(functions)
    && Elements(Labels(statuses)) == declared.Keys + FunctionServer(functions)
  }

  /** No two offered tools share a native name, and none has a name already taken. */
  predicate Unambiguous(ids: seq<Identity>, taken: set<string>) {
    Free(Names(ids), taken)
  }

  predicate Free(names: seq<string>, taken: set<string>) {
    Distinct(names) && Elements(names) !! taken
  }

  predicate Verified(inventory: seq<string>, statuses: seq<Status>, servers: seq<Server>, functions: seq<string>) {
    var ids := Offers(statuses, functions);
    var expected := Expected(ids, Declared(servers)).Keys;
    && Servers(statuses, Declared(servers), functions)
    && Unambiguous(ids, Elements(functions))
    && Distinct(inventory) && Distinct(functions)
    && expected !! Elements(functions) && Elements(inventory) == expected + Elements(functions)
  }

  /** A list without repeats, inside the union of two sets and as long as the two together, is their disjoint union. */
  lemma Pigeonhole<T>(list: seq<T>, a: set<T>, b: set<T>, size: nat)
    requires |b| <= size
    ensures
      (Distinct(list) && Elements(list) <= a + b && |list| == |a| + size)
      <==> (Distinct(list) && Elements(list) == a + b && a !! b && |b| == size)
  {
    ElementsSize(list);
    UnionSize(a, b);
    if Distinct(list) && Elements(list) <= a + b && |list| == |a| + size {
      SubsetSize(Elements(list), a + b);
      FullSubset(Elements(list), a + b);
    }
  }

  lemma UnionSize<T>(a: set<T>, b: set<T>)
    ensures |a + b| == |a| + |b| - |a * b|
    ensures |a * b| == 0 <==> a !! b
  {
    assert a + b == a + (b - a) && a !! (b - a);
    assert b == (b - a) + (a * b) && (b - a) !! (a * b);
  }

  // ----- verifying status by status -----

  predicate Admissible(status: Status, before: seq<Status>, declared: map<string, Server>, functions: seq<string>) {
    && status.name !in Elements(Labels(before)) && status.connected
    && (IsFunctions(status, functions) || status.name in declared)
    && Unambiguous(OffersOf(status, functions), Elements(functions) + Elements(Names(Offers(before, functions))))
  }

  /** Each status is admissible after those before it. */
  predicate AllAdmissible(statuses: seq<Status>, declared: map<string, Server>, functions: seq<string>) {
    statuses == [] ||
    (var before := statuses[..|statuses| - 1];
     AllAdmissible(before, declared, functions) && Admissible(statuses[|statuses| - 1], before, declared, functions))
  }

  lemma {:induction false} AdmissiblePrefix(statuses: seq<Status>, k: nat, declared: map<string, Server>,
                                            functions: seq<string>)
    requires k <= |statuses| && AllAdmissible(statuses, declared, functions)
    ensures AllAdmissible(statuses[..k], declared, functions)
  {
    if k < |statuses| {
      AdmissiblePrefix(statuses[..|statuses| - 1], k, declared, functions);
      assert statuses[..|statuses| - 1][..k] == statuses[..k];
    } else {
      assert statuses[..k] == statuses;
    }
  }

  lemma NamesJoin(a: seq<Identity>, b: seq<Identity>)
    ensures Names(a + b) == Names(a) + Names(b)
  {
  }

  lemma ElementsJoin<T>(a: seq<T>, b: seq<T>)
    ensures Elements(a + b) == Elements(a) + Elements(b)
  {
  }

  lemma DistinctJoin<T>(a: seq<T>, b: seq<T>)
    ensures Distinct(a + b) <==> Distinct(a) && Distinct(b) && Elements(a) !! Elements(b)
  {
    ElementsSize(a);
    ElementsSize(b);
    ElementsSize(a + b);
    ElementsJoin(a, b);
    UnionSize(Elements(a), Elements(b));
  }

  lemma UnambiguousJoin(a: seq<Identity>, b: seq<Identity>, taken: set<string>)
    ensures Unambiguous(a + b, taken) <==> Unambiguous(a, taken) && Unambiguous(b, taken + Elements(Names(a)))
  {
    NamesJoin(a, b);
    DistinctJoin(Names(a), Names(b));
    ElementsJoin(Names(a), Names(b));
  }

  lemma {:induction false} ExpectedJoin(a: seq<Identity>, b: seq<Identity>, declared: map<string, Server>)
    ensures Expected(a + b, declared) == Expected(a, declared) + Expected(b, declared)
  {
    if b == [] {
      assert a + b == a;
    } else {
      ExpectedJoin(a, b[..|b| - 1], declared);
      assert (a + b)[..|a + b| - 1] == a + b[..|b| - 1];
    }
  }

  predicate AllConnected(statuses: seq<Status>) {
    forall i :: 0 <= i < |statuses| ==> statuses[i].connected
  }

  /** What all the statuses together must satisfy. */
  predicate Coherent(statuses: seq<Status>, declared: map<string, Server>, functions: seq<string>) {
    && Distinct(Labels(statuses)) && AllConnected(statuses)
    && Elements(Labels(statuses)) <= declared.Keys + FunctionServer(functions)
    && Unambiguous(Offers(statuses, functions), Elements(functions))
  }

  lemma OffersJoin(before: seq<Status>, last: Status, functions: seq<string>)
    ensures Offers(before + [last], functions) == Offers(before, functions) + OffersOf(last, functions)
  {
    assert (before + [last])[..|before|] == before;
  }

  lemma ConnectedJoin(before: seq<Status>, last: Status)
    ensures AllConnected(before + [last]) <==> AllConnected(before) && last.connected
  {
    var all := before + [last];
    assert all[|before|] == last;
    assert forall i :: 0 <= i < |before| ==> all[i] == before[i];
  }

  lemma CoherentJoin(before: seq<Status>, last: Status, declared: map<string, Server>, functions: seq<string>)
    ensures Coherent(before + [last], declared, functions) <==>
      Coherent(before, declared, functions) && Admissible(last, before, declared, functions)
  {
    LabelsJoin(before, last);
    ConnectedJoin(before, last);
    OffersJoin(before, last, functions);
    UnambiguousJoin(Offers(before, functions), OffersOf(last, functions), Elements(functions));
    assert last.name in FunctionServer(functions) <==> IsFunctions(last, functions);
  }

  /** Status by status comes to the same as all at once. */
  lemma {:induction false} AdmissibleMeans(statuses: seq<Status>, declared: map<string, Server>, functions: seq<string>)
    ensures AllAdmissible(statuses, declared, functions) <==> Coherent(statuses, declared, functions)
  {
    if statuses != [] {
      var before, last := statuses[..|statuses| - 1], statuses[|statuses| - 1];
      AdmissibleMeans(before, declared, functions);
      CoherentJoin(before, last, declared, functions);
      assert statuses == before + [last];
    }
  }

  lemma LabelsJoin(before: seq<Status>, last: Status)
    ensures Elements(Labels(before + [last])) == Elements(Labels(before)) + {last.name}
    ensures Distinct(Labels(before + [last])) <==> Distinct(Labels(before)) && last.name !in Elements(Labels(before))
  {
    assert Labels(before + [last]) == Labels(before) + [last.name];
    DistinctJoin(Labels(before), [last.name]);
    ElementsJoin(Labels(before), [last.name]);
  }

  // ----- the profile -----

  datatype Hook = Hook(event: bool, agent: bool, session: string, useId: string, tool: string)

  /** Where the abort signal struck: before the wait, during it, or after. */
  datatype Signal = Quiet | AbortedBefore | Interrupted | AbortedAfter

  datatype State = State(identities: map<string, Identity>, session: string, admitted: bool, ready: Option<bool>)

  const START := State(map[], "", false, None)

  /** A promise keeps the first value it is given. */
  function Release(ready: Option<bool>, value: bool): Option<bool> {
    if ready.None? then Some(value) else ready
  }

  function AfterVerify(s: State, inventory: seq<string>, statuses: seq<Status>, session: string,
                       servers: seq<Server>, functions: seq<string>): State {
    if Verified(inventory, statuses, servers, functions) then
      State(Expected(Offers(statuses, functions), Declared(servers)), session, true, Release(s.ready, true))
    else s.(admitted := false)
  }

  function AfterClose(s: State): State {
    s.(admitted := false, ready := Release(s.ready, false))
  }

  /** Whether a call whose wait ends in this state goes through. */
  predicate Permits(s: State, functions: seq<string>, hook: Hook, id: Option<string>, signal: Signal) {
    && signal.Quiet? && s.ready == Some(true) && s.admitted
    && hook.event && !hook.agent && hook.session == s.session
    && (id.Some? ==> id.value == hook.useId)
    && (hook.tool in s.identities || hook.tool in functions)
  }

  class Profile {
    const servers: seq<Server>
    const functions: seq<string>
    var identities: map<string, Identity>
    var session: string
    var admitted: bool
    var ready: Option<bool>

    constructor (servers: seq<Server>, functions: seq<string>)
      ensures this.servers == servers && this.functions == functions && Value() == START
    {
      this.servers, this.functions := servers, functions;
      identities, session, admitted, ready := map[], "", false, None;
    }

    function Value(): State
      reads this
    {
      State(identities, session, admitted, ready)
    }

    /** The inner loop: the tools of one connected, declared server. */
    method Gather(status: Status, declared: map<string, Server>, taken: set<string>, expected: map<string, Identity>)
      returns (ok: bool, taken': set<string>, expected': map<string, Identity>)
      requires status.name in declared && !IsFunctions(status, functions)
      ensures ok <==> Unambiguous(OffersOf(status, functions), taken)
      ensures ok ==> taken' == taken + Elements(Names(OffersOf(status, functions)))
      ensures ok ==> expected' == expected + Expected(OffersOf(status, functions), declared)
    {
      ghost var offers := OffersOf(status, functions);
      ghost var names := Names(offers);
      ok, taken', expected' := true, taken, expected;
      var j := 0;
      while j < |status.tools|
        invariant 0 <= j <= |status.tools|
        invariant Free(names[..j], taken) && taken' == taken + Elements(names[..j])
        invariant expected' == expected + Expected(offers[..j], declared)
      {
        var id := Identity(status.name, status.tools[j]);
        var native := NativeToolName(id);
        assert id == offers[j] && native == names[j];
        NextName(names, j, taken);
        if native in taken' {
          TakenFrom(names, j + 1, taken);
          return false, taken', expected';
        }
        ExpectedNext(offers, j, expected, declared);
        taken' := taken' + {native};
        var allowed := declared[status.name].allowed;
        if allowed.None? || id.name in allowed.value {
          expected' := expected'[native := id];
        }
        j := j + 1;
      }
      assert offers[..j] == offers && names[..j] == names;
    }

    /** The outer loop: every reported server. */
    method Survey(statuses: seq<Status>, declared: map<string, Server>)
      returns (ok: bool, seen: set<string>, expected: map<string, Identity>)
      ensures ok <==> AllAdmissible(statuses, declared, functions)
      ensures ok ==> seen == Elements(Labels(statuses))
      ensures ok ==> expected == Expected(Offers(statuses, functions), declared)
    {
      var taken := Elements(functions);
      ok, seen, expected := true, {}, map[];
      var k := 0;
      while k < |statuses|
        invariant 0 <= k <= |statuses|
        invariant Tracks(statuses[..k], declared, functions, seen, taken, expected)
      {
        var status := statuses[k];
        var known := status.name !in seen && status.connected
                     && (IsFunctions(status, functions) || status.name in declared);
        NextStatus(statuses, k, declared, functions, seen, taken, expected);
        NothingOffered(taken, expected, declared);
        if known && !IsFunctions(status, functions) {
          known, taken, expected := Gather(status, declared, taken, expected);
        }
        if !known {
          return false, seen, expected;
        }
        seen := seen + {status.name};
        k := k + 1;
      }
      assert statuses[..k] == statuses;
    }

    /** Verification succeeds exactly for a verified inventory; a failed one withdraws the admission and no more. */
    method Verify(inventory: seq<string>, statuses: seq<Status>, session: string) returns (ok: bool)
      modifies this
      ensures ok <==> Verified(inventory, statuses, servers, functions)
      ensures Value() == AfterVerify(old(Value()), inventory, statuses, session, servers, functions)
    {
      admitted := false;
      var declared := Declared(servers);
      var seen, expected;
      ok, seen, expected := Survey(statuses, declared);
      Complete(inventory, statuses, servers, functions);
      if !ok
        || |seen| != |declared| + (if functions == [] then 0 else 1)
        || |inventory| != |expected| + |functions| || |Elements(inventory)| != |inventory|
        || !(Elements(inventory) <= expected.Keys + Elements(functions))
      {
        return false;
      }
      identities, this.session, admitted, ready := expected, session, true, Release(ready, true);
    }

    method Close()
      modifies this
      ensures Value() == AfterClose(old(Value()))
    {
      admitted, ready := false, Release(ready, false);
    }

    /** Decides a call whose wait ends now. */
    method BeforeTool(hook: Hook, id: Option<string>, signal: Signal) returns (allowed: bool)
      ensures allowed <==> Permits(Value(), functions, hook, id, signal)
    {
      if signal.AbortedBefore? || signal.Interrupted? || ready != Some(true) || signal.AbortedAfter? || !admitted {
        return false;
      }
      return hook.event && !hook.agent && hook.session == session && (id.None? || id.value == hook.useId)
        && (hook.tool in identities || hook.tool in functions);
    }
  }

  /** What the outer loop knows after the statuses before. */
  ghost predicate Tracks(before: seq<Status>, declared: map<string, Server>, functions: seq<string>,
                         seen: set<string>, taken: set<string>, expected: map<string, Identity>) {
    var offers := Offers(before, functions);
    && AllAdmissible(before, declared, functions)
    && seen == Elements(Labels(before))
    && taken == Elements(functions) + Elements(Names(offers))
    && expected == Expected(offers, declared)
  }

  lemma NextStatus(statuses: seq<Status>, k: nat, declared: map<string, Server>, functions: seq<string>,
                   seen: set<string>, taken: set<string>, expected: map<string, Identity>)
    requires k < |statuses| && Tracks(statuses[..k], declared, functions, seen, taken, expected)
    ensures
      var status, offers := statuses[k], OffersOf(statuses[k], functions);
      && (Admissible(status, statuses[..k], declared, functions) ==>
            Tracks(statuses[..k + 1], declared, functions, seen + {status.name},
                   taken + Elements(Names(offers)), expected + Expected(offers, declared)))
      && (!Admissible(status, statuses[..k], declared, functions) ==> !AllAdmissible(statuses, declared, functions))
  {
    if Admissible(statuses[k], statuses[..k], declared, functions) {
      TracksJoin(statuses[..k], statuses[k], declared, functions, seen, taken, expected);
      assert statuses[..k + 1] == statuses[..k] + [statuses[k]];
    } else if AllAdmissible(statuses, declared, functions) {
      AdmissibleAt(statuses, k, declared, functions);
    }
  }

  lemma NothingOffered(taken: set<string>, expected: map<string, Identity>, declared: map<string, Server>)
    ensures taken + Elements(Names([])) == taken && expected + Expected([], declared) == expected
  {
  }

  lemma AdmissibleAt(statuses: seq<Status>, k: nat, declared: map<string, Server>, functions: seq<string>)
    requires k < |statuses| && AllAdmissible(statuses, declared, functions)
    ensures Admissible(statuses[k], statuses[..k], declared, functions)
  {
    AdmissiblePrefix(statuses, k + 1, declared, functions);
    assert statuses[..k + 1][..k] == statuses[..k];
  }

  lemma TracksJoin(before: seq<Status>, last: Status, declared: map<string, Server>, functions: seq<string>,
                   seen: set<string>, taken: set<string>, expected: map<string, Identity>)
    requires Tracks(before, declared, functions, seen, taken, expected)
    ensures Admissible(last, before, declared, functions) ==>
      Tracks(before + [last], declared, functions, seen + {last.name},
             taken + Elements(Names(OffersOf(last, functions))),
             expected + Expected(OffersOf(last, functions), declared))
  {
    assert (before + [last])[..|before|] == before;
    var offers, more := Offers(before, functions), OffersOf(last, functions);
    OffersJoin(before, last, functions);
    LabelsJoin(before, last);
    NamesJoin(offers, more);
    ElementsJoin(Names(offers), Names(more));
    ExpectedJoin(offers, more, declared);
  }

  /** The counting checks, on admissible statuses, amount to verification. */
  lemma Complete(inventory: seq<string>, statuses: seq<Status>, servers: seq<Server>, functions: seq<string>)
    ensures
      var declared := Declared(servers);
      var expected := Expected(Offers(statuses, functions), declared);
      Verified(inventory, statuses, servers, functions) <==>
        && AllAdmissible(statuses, declared, functions)
        && |Elements(Labels(statuses))| == |declared| + (if functions == [] then 0 else 1)
        && |inventory| == |expected| + |functions| && |Elements(inventory)| == |inventory|
        && Elements(inventory) <= expected.Keys + Elements(functions)
  {
    var declared := Declared(servers);
    var expected := Expected(Offers(statuses, functions), declared);
    AdmissibleMeans(statuses, declared, functions);
    ElementsSize(Labels(statuses));
    ElementsSize(inventory);
    ElementsSize(functions);
    Pigeonhole(Labels(statuses), declared.Keys, FunctionServer(functions), |FunctionServer(functions)|);
    Pigeonhole(inventory, expected.Keys, Elements(functions), |functions|);
  }

  // ----- every run -----

  datatype Action =
    | Verify(inventory: seq<string>, statuses: seq<Status>, session: string)
    | Close

  function Run(actions: seq<Action>, servers: seq<Server>, functions: seq<string>): State {
    if actions == [] then START
    else After(Run(actions[..|actions| - 1], servers, functions), actions[|actions| - 1], servers, functions)
  }

  function After(s: State, a: Action, servers: seq<Server>, functions: seq<string>): State {
    match a
    case Verify(inventory, statuses, session) => AfterVerify(s, inventory, statuses, session, servers, functions)
    case Close => AfterClose(s)
  }

  /** The last action is a verification of this session that succeeded. */
  predicate Admits(actions: seq<Action>, session: string, servers: seq<Server>, functions: seq<string>) {
    && actions != [] && actions[|actions| - 1].Verify? && actions[|actions| - 1].session == session
    && Verified(actions[|actions| - 1].inventory, actions[|actions| - 1].statuses, servers, functions)
  }

  predicate Succeeds(a: Action, servers: seq<Server>, functions: seq<string>) {
    a.Verify? && Verified(a.inventory, a.statuses, servers, functions)
  }

  predicate AnySuccess(actions: seq<Action>, servers: seq<Server>, functions: seq<string>) {
    exists k :: 0 <= k < |actions| && Succeeds(actions[k], servers, functions)
  }

  /** The profile was closed before any verification succeeded. */
  predicate ClosedEarly(actions: seq<Action>, servers: seq<Server>, functions: seq<string>) {
    exists k :: 0 <= k < |actions| && actions[k].Close? && !AnySuccess(actions[..k], servers, functions)
  }

  lemma SuccessSplits(actions: seq<Action>, servers: seq<Server>, functions: seq<string>)
    requires actions != []
    ensures AnySuccess(actions, servers, functions) <==>
      AnySuccess(actions[..|actions| - 1], servers, functions) || Succeeds(actions[|actions| - 1], servers, functions)
  {
    assert forall k :: 0 <= k < |actions| - 1 ==> actions[..|actions| - 1][k] == actions[k];
  }

  lemma EarlySplits(actions: seq<Action>, servers: seq<Server>, functions: seq<string>)
    requires actions != []
    ensures
      var front := actions[..|actions| - 1];
      ClosedEarly(actions, servers, functions) <==>
        || ClosedEarly(front, servers, functions)
        || (actions[|actions| - 1].Close? && !AnySuccess(front, servers, functions))
  {
    var front := actions[..|actions| - 1];
    assert forall k :: 0 <= k < |front| ==> front[k] == actions[k] && front[..k] == actions[..k];
  }

  /** The first success or close decides what every waiting call is told. */
  predicate Decided(ready: Option<bool>, any: bool, early: bool) {
    (ready.None? <==> !any && !early) && (ready.Some? ==> ready.value == !early)
  }

  lemma {:induction false} ReadyMeans(actions: seq<Action>, servers: seq<Server>, functions: seq<string>)
    ensures Decided(Run(actions, servers, functions).ready, AnySuccess(actions, servers, functions),
                    ClosedEarly(actions, servers, functions))
  {
    if actions != [] {
      var front, last := actions[..|actions| - 1], actions[|actions| - 1];
      ReadyMeans(front, servers, functions);
      SuccessSplits(actions, servers, functions);
      EarlySplits(actions, servers, functions);
      ReadyAfter(Run(front, servers, functions), last, servers, functions);
      assert Run(actions, servers, functions) == After(Run(front, servers, functions), last, servers, functions);
    }
  }

  lemma ReadyAfter(s: State, last: Action, servers: seq<Server>, functions: seq<string>)
    ensures After(s, last, servers, functions).ready ==
      if last.Close? then Release(s.ready, false)
      else if Succeeds(last, servers, functions) then Release(s.ready, true) else s.ready
  {
  }

  /** The call is the session's own use of this tool, not an agent's, and was not aborted at any point. */
  predicate Proper(hook: Hook, id: Option<string>, signal: Signal) {
    signal.Quiet? && hook.event && !hook.agent && (id.None? || id == Some(hook.useId))
  }

  /**
   * In every run a call goes through if and only if it is proper, the last action verified its session, the profile
   * was never closed before its first success, and the tool is in the verified inventory.
   */
  lemma CallsGoThroughExactlyWhenVerified(actions: seq<Action>, servers: seq<Server>, functions: seq<string>,
                                          hook: Hook, id: Option<string>, signal: Signal)
    ensures Permits(Run(actions, servers, functions), functions, hook, id, signal) <==>
      && Proper(hook, id, signal) && Admits(actions, hook.session, servers, functions)
      && !ClosedEarly(actions, servers, functions) && hook.tool in actions[|actions| - 1].inventory
  {
    ReadyMeans(actions, servers, functions);
    if Admits(actions, hook.session, servers, functions) {
      var last := actions[|actions| - 1];
      assert Succeeds(last, servers, functions);
      assert hook.tool in last.inventory <==> hook.tool in Elements(last.inventory);
    }
  }

  /**
   * In every run a call goes through only in the session whose inventory the last action verified, and only for a
   * tool of that inventory: a function, or an allowed tool of a declared, connected server under its only name.
   */
  lemma OnlyVerifiedToolsAreCalled(actions: seq<Action>, servers: seq<Server>, functions: seq<string>,
                                   hook: Hook, id: Option<string>, signal: Signal)
    requires Permits(Run(actions, servers, functions), functions, hook, id, signal)
    ensures Proper(hook, id, signal) && Admits(actions, hook.session, servers, functions)
    ensures hook.tool in actions[|actions| - 1].inventory
    ensures hook.tool !in functions ==>
      exists tool <- Offers(actions[|actions| - 1].statuses, functions) ::
        NativeToolName(tool) == hook.tool && Allowed(Declared(servers), tool)
  {
    var last := actions[|actions| - 1];
    var ids := Offers(last.statuses, functions);
    ExpectedIsExact(ids, Declared(servers));
    assert hook.tool in Elements(last.inventory);
  }

  /** Once closed before any success, nothing is ever called. */
  lemma {:induction false} EarlyCloseIsFinal(actions: seq<Action>, k: nat, servers: seq<Server>, functions: seq<string>)
    requires k < |actions| && actions[k].Close? && Run(actions[..k], servers, functions).ready != Some(true)
    ensures Run(actions, servers, functions).ready == Some(false)
    ensures forall hook, id, signal :: !Permits(Run(actions, servers, functions), functions, hook, id, signal)
  {
    if k == |actions| - 1 {
      var ready := Run(actions[..k], servers, functions).ready;
      assert ready.None? || !ready.value;
    } else {
      assert actions[..|actions| - 1][..k] == actions[..k];
      EarlyCloseIsFinal(actions[..|actions| - 1], k, servers, functions);
    }
  }

  lemma TakenFrom(names: seq<string>, j: nat, taken: set<string>)
    requires j <= |names| && !Free(names[..j], taken)
    ensures !Free(names, taken)
  {
    DistinctJoin(names[..j], names[j..]);
    ElementsJoin(names[..j], names[j..]);
    assert names[..j] + names[j..] == names;
  }

  lemma NextName(names: seq<string>, j: nat, taken: set<string>)
    requires j < |names|
    ensures Free(names[..j + 1], taken) <==> Free(names[..j], taken) && names[j] !in taken + Elements(names[..j])
    ensures Elements(names[..j + 1]) == Elements(names[..j]) + {names[j]}
  {
    assert names[..j + 1] == names[..j] + [names[j]];
    DistinctJoin(names[..j], [names[j]]);
    ElementsJoin(names[..j], [names[j]]);
  }

  lemma ExpectedNext(offers: seq<Identity>, j: nat, before: map<string, Identity>, declared: map<string, Server>)
    requires j < |offers|
    ensures
      var name, known := NativeToolName(offers[j]), before + Expected(offers[..j], declared);
      before + Expected(offers[..j + 1], declared) ==
        if Allowed(declared, offers[j]) then known[name := offers[j]] else known
  {
    assert offers[..j + 1][..j] == offers[..j];
  }
}
