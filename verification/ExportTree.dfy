/** No file is exported twice: distinct names in every directory give distinct paths in the archive. */
module ExportTree {
  import opened Basics
  import opened Export

  /** What every directory of a file system gives: different names, none with a slash in it. */
  predicate ProperListing(raw: seq<RawEntry>) {
    && (forall i :: 0 <= i < |raw| && raw[i].name.Some? ==> SLASH !in raw[i].name.value)
    && (forall i, j :: 0 <= i < j < |raw| && raw[i].name.Some? && raw[j].name.Some? ==> raw[i].name != raw[j].name)
  }

  ghost predicate ProperTree(tree: Tree) {
    forall path :: ProperListing(tree.list(path))
  }

  predicate ProperNames(names: seq<Entry>) {
    && (forall i :: 0 <= i < |names| ==> SLASH !in names[i].name)
    && (forall i, j :: 0 <= i < j < |names| ==> names[i].name != names[j].name)
  }

  function PathsOf(members: seq<Member>): seq<Path> {
    seq(|members|, i requires 0 <= i < |members| => members[i].path)
  }

  /** The path itself, or one below it. */
  predicate Within(top: Path, path: Path) {
    path == top || top + [SLASH] <= path
  }

  predicate AllWithin(top: Path, members: seq<Member>) {
    forall i :: 0 <= i < |members| ==> Within(top, members[i].path)
  }

  /** Within two children of which one is shorter, the longer one's name has a slash in it. */
  lemma LongerHasSlash(path: Path, a: Path, b: Path, p: Path)
    requires |a| < |b| && Within(Child(path, a), p) && Within(Child(path, b), p)
    ensures SLASH in b
  {
    var n := |path| + 1;
    assert p[n..n + |b|] == b;
    assert p[n + |a|] == SLASH;
    assert b[|a|] == SLASH;
  }

  /** Different children of a directory share no path. */
  lemma ChildrenAreApart(path: Path, a: Path, b: Path, p: Path)
    requires SLASH !in a && SLASH !in b && Within(Child(path, a), p) && Within(Child(path, b), p)
    ensures a == b
  {
    if |a| < |b| {
      LongerHasSlash(path, a, b, p);
    } else if |b| < |a| {
      LongerHasSlash(path, b, a, p);
    } else {
      var n := |path| + 1;
      assert p[n..n + |a|] == a && p[n..n + |b|] == b;
    }
  }

  /** Visible entries keep the listing's order, so they are proper too. */
  lemma {:induction false} VisibleProper(raw: seq<RawEntry>)
    requires ProperListing(raw)
    ensures ProperListing(Visible(raw))
    ensures forall e :: e in Visible(raw) ==> e in raw
  {
    if raw != [] {
      var front, last := raw[..|raw| - 1], raw[|raw| - 1];
      VisibleProper(front);
      assert raw == front + [last];
      var before, after := Visible(front), Visible(raw);
      if after != before {
        assert after == before + [last];
        forall i, j | 0 <= i < j < |after| && after[i].name.Some? && after[j].name.Some?
          ensures after[i].name != after[j].name
        {
          if j == |before| {
            assert after[i] in front;
            var k :| 0 <= k < |front| && front[k] == after[i];
            assert raw[k].name != raw[|front|].name;
          }
        }
      }
    }
  }

  lemma {:induction false} EntriesProper(raw: seq<RawEntry>)
    requires ProperListing(raw) && AllSound(raw)
    ensures ProperNames(ToEntries(raw))
  {
    var names := ToEntries(raw);
    forall i, j | 0 <= i < j < |names| ensures names[i].name != names[j].name {
      assert raw[i].name != raw[j].name;
    }
  }

  /** Sorting keeps names different. */
  lemma SortProper(names: seq<Entry>)
    requires ProperNames(names)
    ensures ProperNames(SortEntries(names))
  {
    var sorted := SortEntries(names);
    SortOrders(names);
    assert Elements(sorted) == Elements(names);
    ElementsSize(names);
    ElementsSize(sorted);
    forall i | 0 <= i < |sorted| ensures SLASH !in sorted[i].name {
      assert sorted[i] in names;
    }
    forall i, j | 0 <= i < j < |sorted| ensures sorted[i].name != sorted[j].name {
      assert sorted[i] in names && sorted[j] in names && sorted[i] != sorted[j];
    }
  }

  /** Every file found in a directory's entries is within one of their paths. */
  predicate Spread(path: Path, names: seq<Entry>, members: seq<Member>) {
    forall i :: 0 <= i < |members| ==>
      exists k :: 0 <= k < |names| && Within(Child(path, names[k].name), members[i].path)
  }

  lemma SpreadBelow(path: Path, names: seq<Entry>, members: seq<Member>)
    requires Spread(path, names, members)
    ensures AllWithin(path, members)
  {
    forall i | 0 <= i < |members| ensures Within(path, members[i].path) {
      var k :| 0 <= k < |names| && Within(Child(path, names[k].name), members[i].path);
      assert path + [SLASH] <= Child(path, names[k].name);
    }
  }

  lemma SpreadJoins(path: Path, front: seq<Entry>, last: Entry, a: seq<Member>, b: seq<Member>)
    requires ProperNames(front + [last]) && Spread(path, front, a) && AllWithin(Child(path, last.name), b)
    requires Distinct(PathsOf(a)) && Distinct(PathsOf(b))
    ensures Spread(path, front + [last], a + b) && Distinct(PathsOf(a + b))
  {
    var names, all := front + [last], a + b;
    assert forall k :: 0 <= k < |front| ==> names[k] == front[k];
    forall i | 0 <= i < |all| ensures exists k :: 0 <= k < |names| && Within(Child(path, names[k].name), all[i].path) {
      if i < |a| {
        var k :| 0 <= k < |front| && Within(Child(path, front[k].name), a[i].path);
        assert names[k] == front[k];
      } else {
        assert names[|front|] == last && all[i] == b[i - |a|];
      }
    }
    forall i, j | 0 <= i < j < |all| ensures PathsOf(all)[i] != PathsOf(all)[j] {
      if j < |a| {
        assert PathsOf(a)[i] != PathsOf(a)[j];
      } else if i >= |a| {
        assert PathsOf(b)[i - |a|] != PathsOf(b)[j - |a|];
      } else {
        Apart(path, front, last, a[i].path, b[j - |a|].path);
      }
    }
  }

  lemma Apart(path: Path, front: seq<Entry>, last: Entry, p: Path, q: Path)
    requires ProperNames(front + [last]) && Within(Child(path, last.name), q)
    requires exists k :: 0 <= k < |front| && Within(Child(path, front[k].name), p)
    ensures p != q
  {
    var k :| 0 <= k < |front| && Within(Child(path, front[k].name), p);
    var names := front + [last];
    assert names[k] == front[k] && names[|front|] == last;
    if p == q {
      ChildrenAreApart(path, front[k].name, last.name, p);
    }
  }

  lemma {:induction false} FilesInAreDistinct(tree: Tree, path: Path, depth: nat, names: seq<Entry>)
    requires ProperTree(tree) && depth <= MAX_DEPTH && ProperNames(names)
    ensures Spread(path, names, FilesIn(tree, path, depth, names))
    ensures Distinct(PathsOf(FilesIn(tree, path, depth, names)))
    decreases MAX_DEPTH + 1 - depth, 1, |names|
  {
    if names != [] {
      var front, last := names[..|names| - 1], names[|names| - 1];
      assert names == front + [last];
      FilesInAreDistinct(tree, path, depth, front);
      FilesAtAreDistinct(tree, path, depth, last);
      SpreadJoins(path, front, last, FilesIn(tree, path, depth, front), FilesAt(tree, path, depth, last));
    }
  }

  lemma {:induction false} FilesAtAreDistinct(tree: Tree, path: Path, depth: nat, entry: Entry)
    requires ProperTree(tree) && depth <= MAX_DEPTH
    ensures AllWithin(Child(path, entry.name), FilesAt(tree, path, depth, entry))
    ensures Distinct(PathsOf(FilesAt(tree, path, depth, entry)))
    decreases MAX_DEPTH + 1 - depth, 0, 0
  {
    if entry.kind.Directory? {
      FilesAreDistinct(tree, Child(path, entry.name), depth + 1);
    }
  }

  /** The files of a walk lie below the path, and no path occurs twice. */
  lemma {:induction false} FilesAreDistinct(tree: Tree, path: Path, depth: nat)
    requires ProperTree(tree)
    ensures AllWithin(path, Files(tree, path, depth))
    ensures Distinct(PathsOf(Files(tree, path, depth)))
    decreases if depth > MAX_DEPTH then 0 else MAX_DEPTH + 1 - depth, 2, 0
  {
    var visible := Visible(tree.list(path));
    if depth <= MAX_DEPTH && AllSound(visible) {
      assert ProperListing(tree.list(path));
      VisibleProper(tree.list(path));
      EntriesProper(visible);
      SortProper(ToEntries(visible));
      var names := Names(tree.list(path));
      FilesInAreDistinct(tree, path, depth, names);
      SpreadBelow(path, names, FilesIn(tree, path, depth, names));
    }
  }

  // ----- which files those are -----

  /** A directory lists this name as a thing of this kind. */
  predicate Lists(tree: Tree, path: Path, name: Path, kind: Kind) {
    var visible := Visible(tree.list(path));
    exists i :: 0 <= i < |visible| && IsListed(visible[i], name, kind)
  }

  predicate IsListed(e: RawEntry, name: Path, kind: Kind) {
    e.name == Some(name) && e.metadata.Some? && e.metadata.value.0 == kind
  }

  /** Directory after directory, each listed in the one before it, and a regular file in the last. */
  predicate Chain(tree: Tree, path: Path, steps: seq<Path>)
    decreases |steps|
  {
    steps != [] &&
    if |steps| == 1 then Lists(tree, path, steps[0], Regular)
    else Lists(tree, path, steps[0], Directory) && Chain(tree, Child(path, steps[0]), steps[1..])
  }

  function Down(path: Path, steps: seq<Path>): Path
    decreases |steps|
  {
    if steps == [] then path else Down(Child(path, steps[0]), steps[1..])
  }

  ghost predicate Leads(tree: Tree, path: Path, p: Path) {
    exists steps :: Chain(tree, path, steps) && Down(path, steps) == p
  }

  predicate Holds(members: seq<Member>, p: Path) {
    exists i :: 0 <= i < |members| && members[i].path == p
  }

  lemma HoldsJoins(a: seq<Member>, b: seq<Member>, p: Path)
    ensures Holds(a + b, p) <==> Holds(a, p) || Holds(b, p)
  {
    var all := a + b;
    assert forall i :: 0 <= i < |a| ==> all[i] == a[i];
    assert forall i :: 0 <= i < |b| ==> all[|a| + i] == b[i];
  }

  /** A file among a directory's entries is at one of them. */
  lemma {:induction false} HeldAtAnEntry(tree: Tree, path: Path, depth: nat, names: seq<Entry>, p: Path)
    requires depth <= MAX_DEPTH && Holds(FilesIn(tree, path, depth, names), p)
    ensures exists k :: 0 <= k < |names| && Holds(FilesAt(tree, path, depth, names[k]), p)
  {
    var front, last := names[..|names| - 1], names[|names| - 1];
    HoldsJoins(FilesIn(tree, path, depth, front), FilesAt(tree, path, depth, last), p);
    if Holds(FilesIn(tree, path, depth, front), p) {
      HeldAtAnEntry(tree, path, depth, front, p);
      var k :| 0 <= k < |front| && Holds(FilesAt(tree, path, depth, front[k]), p);
      assert names[k] == front[k];
    }
  }

  lemma {:induction false} EntryIsHeld(tree: Tree, path: Path, depth: nat, names: seq<Entry>, k: nat, p: Path)
    requires depth <= MAX_DEPTH && k < |names| && Holds(FilesAt(tree, path, depth, names[k]), p)
    ensures Holds(FilesIn(tree, path, depth, names), p)
  {
    var front, last := names[..|names| - 1], names[|names| - 1];
    HoldsJoins(FilesIn(tree, path, depth, front), FilesAt(tree, path, depth, last), p);
    if k < |front| {
      EntryIsHeld(tree, path, depth, front, k, p);
    }
  }

  lemma {:induction false} WholeEntry(tree: Tree, path: Path, depth: nat, names: seq<Entry>, k: nat)
    requires depth <= MAX_DEPTH && k < |names| && WholeIn(tree, path, depth, names)
    ensures WholeAt(tree, path, depth, names[k])
  {
    if k < |names| - 1 {
      WholeEntry(tree, path, depth, names[..|names| - 1], k);
    }
  }

  /** The sorted entries are the visible ones. */
  lemma NameIsListed(tree: Tree, path: Path, k: nat)
    requires AllSound(Visible(tree.list(path))) && k < |Names(tree.list(path))|
    ensures Lists(tree, path, Names(tree.list(path))[k].name, Names(tree.list(path))[k].kind)
  {
    var visible, names := Visible(tree.list(path)), Names(tree.list(path));
    SortOrders(ToEntries(visible));
    assert names[k] in ToEntries(visible);
    var i :| 0 <= i < |visible| && ToEntries(visible)[i] == names[k];
    assert IsListed(visible[i], names[k].name, names[k].kind);
  }

  lemma ListedIsNamed(tree: Tree, path: Path, name: Path, kind: Kind) returns (k: nat)
    requires AllSound(Visible(tree.list(path))) && Lists(tree, path, name, kind)
    ensures k < |Names(tree.list(path))|
    ensures Names(tree.list(path))[k].name == name && Names(tree.list(path))[k].kind == kind
  {
    var visible, names := Visible(tree.list(path)), Names(tree.list(path));
    var i :| 0 <= i < |visible| && IsListed(visible[i], name, kind);
    var e := ToEntries(visible)[i];
    SortOrders(ToEntries(visible));
    assert e in names;
    k :| 0 <= k < |names| && names[k] == e;
  }

  /** Every file collected is reached by a chain of listed directories. */
  lemma {:induction false} CollectedIsReached(tree: Tree, path: Path, depth: nat, p: Path)
    requires Whole(tree, path, depth) && Holds(Files(tree, path, depth), p)
    ensures Leads(tree, path, p)
    decreases MAX_DEPTH + 1 - depth
  {
    var names := Names(tree.list(path));
    HeldAtAnEntry(tree, path, depth, names, p);
    var k :| 0 <= k < |names| && Holds(FilesAt(tree, path, depth, names[k]), p);
    var e := names[k];
    NameIsListed(tree, path, k);
    WholeEntry(tree, path, depth, names, k);
    if e.kind.Directory? {
      CollectedIsReached(tree, Child(path, e.name), depth + 1, p);
      var rest :| Chain(tree, Child(path, e.name), rest) && Down(Child(path, e.name), rest) == p;
      var steps := [e.name] + rest;
      assert steps[1..] == rest && Chain(tree, path, steps) && Down(path, steps) == p;
    } else {
      var steps := [e.name];
      assert steps[1..] == [] && Chain(tree, path, steps) && Down(path, steps) == p;
    }
  }

  /** Every file such a chain leads to is collected. */
  lemma {:induction false} ReachedIsCollected(tree: Tree, path: Path, depth: nat, steps: seq<Path>)
    requires Whole(tree, path, depth) && Chain(tree, path, steps)
    ensures Holds(Files(tree, path, depth), Down(path, steps))
    decreases |steps|
  {
    var names, p := Names(tree.list(path)), Down(path, steps);
    var kind := if |steps| == 1 then Kind.Regular else Kind.Directory;
    var k := ListedIsNamed(tree, path, steps[0], kind);
    WholeEntry(tree, path, depth, names, k);
    var child := Child(path, steps[0]);
    if |steps| == 1 {
      assert steps[1..] == [] && Down(child, []) == child;
      assert FilesAt(tree, path, depth, names[k])[0].path == p;
    } else {
      ReachedIsCollected(tree, child, depth + 1, steps[1..]);
    }
    EntryIsHeld(tree, path, depth, names, k, p);
  }

  /** On a whole tree the files of the walk are exactly those a chain of listed directories leads to. */
  lemma FilesAreThoseReached(tree: Tree, path: Path, depth: nat, p: Path)
    requires Whole(tree, path, depth)
    ensures Holds(Files(tree, path, depth), p) <==> Leads(tree, path, p)
  {
    if Holds(Files(tree, path, depth), p) {
      CollectedIsReached(tree, path, depth, p);
    }
    if Leads(tree, path, p) {
      var steps :| Chain(tree, path, steps) && Down(path, steps) == p;
      ReachedIsCollected(tree, path, depth, steps);
    }
  }
}
