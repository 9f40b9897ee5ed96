/** The bounded export of a workspace's outputs, and why its archive always fits the gateway's limit. */
module Export {
  import opened Basics

  const MAX_FILE_BYTES: nat := 200 * 1024 * 1024
  const MAX_TOTAL_BYTES: nat := 500 * 1024 * 1024
  const MAX_ENTRIES: nat := 4096
  const MAX_DEPTH: nat := 64
  const MAX_PATH: nat := 4096

  /** What the gateway accepts of an export. */
  const EXPORT_LIMIT: nat := 528 * 1024 * 1024

  type Path = seq<byte>

  const SLASH: byte := 47

  // ----- one directory, observed with a bound -----

  datatype Kind = Regular | Directory | Special

  /** A directory entry as read: its name (none if it is not text), and its metadata (none if that failed). */
  datatype RawEntry = RawEntry(name: Option<Path>, metadata: Option<(Kind, int)>)

  datatype Entry = Entry(name: Path, kind: Kind, size: Option<nat>)

  datatype Observation = Observation(entries: seq<Entry>, truncated: bool, visited: nat)

  predicate Dots(name: Path) {
    name == [46] || name == [46, 46]
  }

  predicate BadName(name: Path) {
    |name| > 255 || 92 in name || 0 in name || 13 in name || 10 in name
  }

  /** The names that count: all but the directory itself and its parent. */
  function Visible(raw: seq<RawEntry>): seq<RawEntry> {
    if raw == [] then []
    else if raw[|raw| - 1].name.Some? && Dots(raw[|raw| - 1].name.value) then Visible(raw[..|raw| - 1])
    else Visible(raw[..|raw| - 1]) + [raw[|raw| - 1]]
  }

  predicate Sound(e: RawEntry) {
    && e.name.Some? && !BadName(e.name.value)
    && e.metadata.Some? && (e.metadata.value.0.Regular? ==> e.metadata.value.1 >= 0)
  }

  function ToEntry(e: RawEntry): Entry
    requires Sound(e)
  {
    Entry(e.name.value, e.metadata.value.0, if e.metadata.value.0.Regular? then Some(e.metadata.value.1) else None)
  }

  function ToEntries(raw: seq<RawEntry>): (entries: seq<Entry>)
    requires forall i :: 0 <= i < |raw| ==> Sound(raw[i])
    ensures |entries| == |raw|
  {
    seq(|raw|, i requires 0 <= i < |raw| => ToEntry(raw[i]))
  }

  /** Lists every visible entry, or the first `limit` of them and says so; never looks at more than one beyond. */
  method Observe(raw: seq<RawEntry>, limit: nat) returns (result: Option<Observation>)
    ensures result.Some? ==> 1 <= limit <= 4096
    ensures result.Some? ==>
      var o, visible := result.value, Visible(raw);
      && |o.entries| <= limit
      && o.visited == |o.entries| + (if o.truncated then 1 else 0)
      && (o.truncated ==> |o.entries| == limit < |visible|)
      && (!o.truncated ==> |visible| == |o.entries| && (forall i :: 0 <= i < |visible| ==> Sound(visible[i]))
                           && o.entries == ToEntries(visible))
      && (forall i :: 0 <= i < |o.entries| ==> |o.entries[i].name| <= 255)
    ensures 1 <= limit <= 4096 && |Visible(raw)| <= limit && AllSound(Visible(raw)) ==>
      result.Some?
  {
    if !(1 <= limit <= 4096) {
      return None;
    }
    var entries: seq<Entry> := [];
    var i := 0;
    while i < |raw|
      invariant 0 <= i <= |raw| && |entries| <= limit
      invariant |Visible(raw[..i])| == |entries|
      invariant forall k :: 0 <= k < |Visible(raw[..i])| ==> Sound(Visible(raw[..i])[k])
      invariant entries == ToEntries(Visible(raw[..i]))
      invariant forall k :: 0 <= k < |entries| ==> |entries[k].name| <= 255
    {
      assert raw[..i + 1][..i] == raw[..i];
      VisiblePrefix(raw, i + 1);
      var e := raw[i];
      assert !(e.name.Some? && Dots(e.name.value)) ==> Visible(raw[..i + 1])[|entries|] == e == Visible(raw)[|entries|];
      if e.name.None? {
        return None;
      }
      if !Dots(e.name.value) {
        if |entries| == limit {
          return Some(Observation(entries, true, |entries| + 1));
        }
        if BadName(e.name.value) || e.metadata.None? || (e.metadata.value.0.Regular? && e.metadata.value.1 < 0) {
          return None;
        }
        entries := entries + [ToEntry(e)];
      }
      i := i + 1;
    }
    assert raw[..i] == raw;
    return Some(Observation(entries, false, |entries|));
  }

  lemma {:induction false} VisiblePrefix(raw: seq<RawEntry>, k: nat)
    requires k <= |raw|
    ensures Visible(raw[..k]) <= Visible(raw)
    decreases |raw|
  {
    if k < |raw| {
      VisiblePrefix(raw[..|raw| - 1], k);
      assert raw[..|raw| - 1][..k] == raw[..k];
    } else {
      assert raw[..k] == raw;
    }
  }

  // ----- the order of a directory's entries -----

  /** Byte by byte, a shorter name before its extensions. */
  predicate NoLater(a: Path, b: Path) {
    a == [] || (b != [] && (a[0] < b[0] || (a[0] == b[0] && NoLater(a[1..], b[1..]))))
  }

  function InsertEntry(sorted: seq<Entry>, e: Entry): seq<Entry> {
    if sorted == [] || NoLater(sorted[|sorted| - 1].name, e.name) then sorted + [e]
    else InsertEntry(sorted[..|sorted| - 1], e) + [sorted[|sorted| - 1]]
  }

  function SortEntries(entries: seq<Entry>): seq<Entry> {
    if entries == [] then [] else InsertEntry(SortEntries(entries[..|entries| - 1]), entries[|entries| - 1])
  }

  predicate InOrder(entries: seq<Entry>) {
    forall i, j :: 0 <= i < j < |entries| ==> NoLater(entries[i].name, entries[j].name)
  }

  lemma {:induction false} NoLaterTotal(a: Path, b: Path)
    ensures NoLater(a, b) || NoLater(b, a)
  {
    if a != [] && b != [] && a[0] == b[0] {
      NoLaterTotal(a[1..], b[1..]);
    }
  }

  lemma {:induction false} NoLaterTransitive(a: Path, b: Path, c: Path)
    requires NoLater(a, b) && NoLater(b, c)
    ensures NoLater(a, c)
  {
    if a != [] && a[0] == b[0] == c[0] {
      NoLaterTransitive(a[1..], b[1..], c[1..]);
    }
  }

  lemma {:induction false} InsertKeeps(sorted: seq<Entry>, e: Entry)
    ensures |InsertEntry(sorted, e)| == |sorted| + 1
    ensures forall x :: x in InsertEntry(sorted, e) <==> x in sorted || x == e
  {
    if sorted != [] && !NoLater(sorted[|sorted| - 1].name, e.name) {
      var front, last := sorted[..|sorted| - 1], sorted[|sorted| - 1];
      InsertKeeps(front, e);
      assert sorted == front + [last];
    }
  }

  lemma {:induction false} InsertOrders(sorted: seq<Entry>, e: Entry)
    requires InOrder(sorted)
    ensures InOrder(InsertEntry(sorted, e))
  {
    var after := InsertEntry(sorted, e);
    if sorted != [] && NoLater(sorted[|sorted| - 1].name, e.name) {
      forall i | 0 <= i < |sorted| ensures NoLater(sorted[i].name, e.name) {
        if i < |sorted| - 1 {
          NoLaterTransitive(sorted[i].name, sorted[|sorted| - 1].name, e.name);
        }
      }
    } else if sorted != [] {
      var front, last := sorted[..|sorted| - 1], sorted[|sorted| - 1];
      InsertOrders(front, e);
      InsertKeeps(front, e);
      NoLaterTotal(last.name, e.name);
      forall i | 0 <= i < |sorted| ensures NoLater(after[i].name, last.name) {
        assert after[i] in InsertEntry(front, e);
        assert after[i] in front ==> after[i] in sorted[..|sorted| - 1];
      }
    }
  }

  /** Sorting orders the entries by name and neither adds nor loses any. */
  lemma {:induction false} SortOrders(entries: seq<Entry>)
    ensures InOrder(SortEntries(entries)) && |SortEntries(entries)| == |entries|
    ensures forall x :: x in SortEntries(entries) <==> x in entries
  {
    if entries != [] {
      var front, last := entries[..|entries| - 1], entries[|entries| - 1];
      SortOrders(front);
      InsertOrders(SortEntries(front), last);
      InsertKeeps(SortEntries(front), last);
      assert entries == front + [last];
    }
  }

  // ----- the walk -----

  /** A regular file as it was opened and read. */
  datatype FileFacts = FileFacts(
    openable: bool, regular: bool, sameDevice: bool, links: nat, size: int, fullyRead: bool, stable: bool)

  /** The file system as the walk meets it: each directory listed twice, each file opened once. */
  datatype Tree = Tree(
    openable: Path -> bool, sameDevice: Path -> bool, list: Path -> seq<RawEntry>, relist: Path -> seq<RawEntry>,
    steady: Path -> bool, file: Path -> FileFacts)

  datatype Member = Member(path: Path, size: nat)

  function TotalSize(members: seq<Member>): nat {
    if members == [] then 0 else TotalSize(members[..|members| - 1]) + members[|members| - 1].size
  }

  function RoundUp(n: nat): nat {
    (n + 511) / 512 * 512
  }

  /**
   * The blocks of one member: a header and the padded body, preceded for names beyond the header's 100 bytes
   * by a long-name header and the padded, NUL-terminated name.
   */
  function MemberSize(m: Member): nat {
    (if |m.path| > 100 then 512 + RoundUp(|m.path| + 1) else 0) + 512 + RoundUp(m.size)
  }

  function MembersSize(members: seq<Member>): nat {
    if members == [] then 0 else MembersSize(members[..|members| - 1]) + MemberSize(members[|members| - 1])
  }

  /** The members and the two zero blocks that end an archive. */
  function ArchiveSize(members: seq<Member>): nat {
    MembersSize(members) + 1024
  }

  predicate Bounded(members: seq<Member>) {
    forall i :: 0 <= i < |members| ==> |members[i].path| <= MAX_PATH && members[i].size <= MAX_FILE_BYTES
  }

  lemma {:induction false} MembersFit(members: seq<Member>)
    requires Bounded(members)
    ensures MembersSize(members) <= TotalSize(members) + |members| * 6143
  {
    if members != [] {
      var front, last := members[..|members| - 1], members[|members| - 1];
      assert Bounded(front) && |last.path| <= MAX_PATH;
      MembersFit(front);
    }
  }

  /** Whatever a walk within its budgets collected, the archive stays within what the gateway accepts. */
  lemma ArchiveFits(members: seq<Member>)
    requires Bounded(members) && |members| <= MAX_ENTRIES && TotalSize(members) <= MAX_TOTAL_BYTES
    ensures ArchiveSize(members) <= EXPORT_LIMIT
  {
    MembersFit(members);
    assert |members| * 6143 <= MAX_ENTRIES * 6143;
  }

  /** Observes a directory within the bound and sorts its entries; none if it cannot be listed whole. */
  method Listing(raw: seq<RawEntry>) returns (names: Option<seq<Entry>>, visited: nat)
    ensures names.Some? <==> Listable(raw)
    ensures names.Some? ==> names.value == Names(raw) && visited == |names.value| == |Visible(raw)|
  {
    var listing := Observe(raw, MAX_ENTRIES);
    if listing.None? {
      return None, 0;
    }
    if listing.value.truncated {
      return None, listing.value.visited;
    }
    SortOrders(listing.value.entries);
    return Some(SortEntries(listing.value.entries)), listing.value.visited;
  }

  class Walker {
    const tree: Tree
    var entries: nat
    var bytes: nat
    var members: seq<Member>

    constructor (tree: Tree)
      ensures Within() && this.tree == tree && members == [] && entries == 0 && bytes == 0
    {
      this.tree, entries, bytes, members := tree, 0, 0, [];
    }

    /** The budgets account for everything collected. */
    predicate Within()
      reads this
    {
      Collected() && |members| <= entries <= MAX_ENTRIES
    }

    predicate Collected()
      reads this
    {
      bytes == TotalSize(members) && bytes <= MAX_TOTAL_BYTES && Bounded(members)
    }

    /** Adds one file exactly when it is a good one within both budgets; the subtraction cannot underflow. */
    method Append(path: Path) returns (ok: bool)
      requires Collected() && |path| <= MAX_PATH
      modifies this`bytes, this`members
      ensures Collected() && |members| <= |old(members)| + 1
      ensures ok <==> GoodFile(tree.file(path)) && old(bytes) + FileSize(tree, path) <= MAX_TOTAL_BYTES
      ensures ok ==> members == old(members) + [Member(path, FileSize(tree, path))]
    {
      var facts := tree.file(path);
      if !facts.openable || !facts.regular || !facts.sameDevice || facts.links != 1 || facts.size < 0 {
        return false;
      }
      var size: nat := facts.size;
      if size > MAX_FILE_BYTES || size > MAX_TOTAL_BYTES - bytes {
        return false;
      }
      TotalSnoc(members, Member(path, size));
      bytes, members := bytes + size, members + [Member(path, size)];
      return facts.fullyRead && facts.stable;
    }

    /**
     * Every walk ends, whatever the file system answers. It succeeds exactly on a whole tree within both budgets, and
     * has then collected exactly the regular files below the path.
     */
    method Walk(path: Path, depth: nat) returns (ok: bool)
      requires Within() && depth <= MAX_DEPTH + 1
      modifies this`entries, this`bytes, this`members
      ensures ok <==>
        && Whole(tree, path, depth)
        && old(entries) + Visited(tree, path, depth) <= MAX_ENTRIES
        && old(bytes) + TotalSize(Files(tree, path, depth)) <= MAX_TOTAL_BYTES
      ensures ok ==> Within() && members == old(members) + Files(tree, path, depth)
      ensures ok ==> entries == old(entries) + Visited(tree, path, depth)
      ensures ok ==> entries - |members| >= old(entries) - |old(members)|
      decreases MAX_DEPTH + 1 - depth, 2
    {
      if depth > MAX_DEPTH || |path| > MAX_PATH || !tree.sameDevice(path) {
        return false;
      }
      var names, visited := Listing(tree.list(path));
      entries := entries + visited;
      if names.None? || entries > MAX_ENTRIES {
        return false;
      }
      ok := WalkEntries(path, depth, names.value);
      if !ok {
        return false;
      }
      var after, _ := Listing(tree.relist(path));
      return after == names && tree.steady(path);
    }

    method WalkEntries(path: Path, depth: nat, names: seq<Entry>) returns (ok: bool)
      requires depth <= MAX_DEPTH && |members| + |names| <= entries <= MAX_ENTRIES && Collected()
      modifies this`entries, this`bytes, this`members
      ensures ok <==>
        && WholeIn(tree, path, depth, names)
        && old(entries) + VisitedIn(tree, path, depth, names) <= MAX_ENTRIES
        && old(bytes) + TotalSize(FilesIn(tree, path, depth, names)) <= MAX_TOTAL_BYTES
      ensures ok ==> Within() && members == old(members) + FilesIn(tree, path, depth, names)
      ensures ok ==> entries == old(entries) + VisitedIn(tree, path, depth, names)
      ensures ok ==> entries - |members| >= old(entries) - |old(members)| - |names|
      decreases MAX_DEPTH + 1 - depth, 1
    {
      var k := 0;
      assert old(members) + [] == old(members);
      while k < |names|
        invariant 0 <= k <= |names| && Collected() && entries <= MAX_ENTRIES
        invariant WholeIn(tree, path, depth, names[..k])
        invariant members == old(members) + FilesIn(tree, path, depth, names[..k])
        invariant bytes == old(bytes) + TotalSize(FilesIn(tree, path, depth, names[..k]))
        invariant entries == old(entries) + VisitedIn(tree, path, depth, names[..k])
        invariant entries - |members| >= old(entries) - |old(members)| - k
      {
        NextEntry(tree, path, depth, names, k);
        ok := WalkEntry(path, depth, names[k]);
        if !ok {
          PrefixFits(tree, path, depth, names, k + 1);
          return false;
        }
        Gathered(old(members), FilesIn(tree, path, depth, names[..k]), FilesAt(tree, path, depth, names[k]));
        k := k + 1;
      }
      assert names[..k] == names;
      return true;
    }

    /** A directory is walked, a regular file added, and anything else refused. */
    method WalkEntry(path: Path, depth: nat, entry: Entry) returns (ok: bool)
      requires depth <= MAX_DEPTH && |members| + 1 <= entries <= MAX_ENTRIES && Collected()
      modifies this`entries, this`bytes, this`members
      ensures ok <==>
        && WholeAt(tree, path, depth, entry)
        && old(entries) + VisitedAt(tree, path, depth, entry) <= MAX_ENTRIES
        && old(bytes) + TotalSize(FilesAt(tree, path, depth, entry)) <= MAX_TOTAL_BYTES
      ensures ok ==> Collected() && members == old(members) + FilesAt(tree, path, depth, entry)
      ensures ok ==> bytes == old(bytes) + TotalSize(FilesAt(tree, path, depth, entry))
      ensures ok ==> entries == old(entries) + VisitedAt(tree, path, depth, entry)
      ensures ok ==> entries - |members| >= old(entries) - |old(members)| - 1
      decreases MAX_DEPTH + 1 - depth, 0
    {
      var child := Child(path, entry.name);
      if |child| > MAX_PATH {
        return false;
      }
      match entry.kind {
        case Directory =>
          if !tree.openable(child) {
            return false;
          }
          ok := Walk(child, depth + 1);
          if ok {
            TotalJoins(old(members), Files(tree, child, depth + 1));
          }
        case Regular =>
          TotalSnoc([], Member(child, FileSize(tree, child)));
          assert [] + [Member(child, FileSize(tree, child))] == [Member(child, FileSize(tree, child))];
          ok := Append(child);
          if ok {
            TotalSnoc(old(members), Member(child, FileSize(tree, child)));
          }
        case Special =>
          ok := false;
      }
    }
  }

  lemma Gathered(a: seq<Member>, b: seq<Member>, c: seq<Member>)
    ensures a + b + c == a + (b + c)
  {
  }

  lemma TotalSnoc(members: seq<Member>, m: Member)
    ensures TotalSize(members + [m]) == TotalSize(members) + m.size
  {
    assert (members + [m])[..|members|] == members;
  }

  lemma {:induction false} TotalJoins(a: seq<Member>, b: seq<Member>)
    ensures TotalSize(a + b) == TotalSize(a) + TotalSize(b)
  {
    if b == [] {
      assert a + b == a;
    } else {
      var front, last := b[..|b| - 1], b[|b| - 1];
      TotalJoins(a, front);
      TotalSnoc(a + front, last);
      assert a + b == (a + front) + [last];
    }
  }

  // ----- what a walk covers -----

  function Child(path: Path, name: Path): Path {
    path + [SLASH] + name
  }

  function FileSize(tree: Tree, path: Path): nat {
    if tree.file(path).size >= 0 then tree.file(path).size else 0
  }

  predicate AllSound(raw: seq<RawEntry>) {
    forall i :: 0 <= i < |raw| ==> Sound(raw[i])
  }

  /** Every visible entry is in order, and there are not too many. */
  predicate Listable(raw: seq<RawEntry>) {
    AllSound(Visible(raw)) && |Visible(raw)| <= MAX_ENTRIES
  }

  /** The visible entries in order of their names. */
  function Names(raw: seq<RawEntry>): seq<Entry>
    requires AllSound(Visible(raw))
  {
    SortEntries(ToEntries(Visible(raw)))
  }

  /** A regular file of one link on the same device, not too large, that was read to its end without changing. */
  predicate GoodFile(facts: FileFacts) {
    && facts.openable && facts.regular && facts.sameDevice && facts.links == 1 && 0 <= facts.size <= MAX_FILE_BYTES
    && facts.fullyRead && facts.stable
  }

  /** A directory within the bounds, listed twice alike, unchanged, with only whole directories and good files. */
  predicate Whole(tree: Tree, path: Path, depth: nat)
    decreases if depth > MAX_DEPTH then 0 else MAX_DEPTH + 1 - depth, 1
  {
    && depth <= MAX_DEPTH && |path| <= MAX_PATH && tree.sameDevice(path)
    && Listable(tree.list(path)) && WholeIn(tree, path, depth, Names(tree.list(path)))
    && Listable(tree.relist(path)) && Names(tree.relist(path)) == Names(tree.list(path)) && tree.steady(path)
  }

  predicate WholeIn(tree: Tree, path: Path, depth: nat, names: seq<Entry>)
    requires depth <= MAX_DEPTH
    decreases MAX_DEPTH + 1 - depth, 0, |names|, 1
  {
    names == [] ||
    (WholeIn(tree, path, depth, names[..|names| - 1]) && WholeAt(tree, path, depth, names[|names| - 1]))
  }

  predicate WholeAt(tree: Tree, path: Path, depth: nat, entry: Entry)
    requires depth <= MAX_DEPTH
    decreases MAX_DEPTH + 1 - depth, 0, 0, 0
  {
    var child := Child(path, entry.name);
    && |child| <= MAX_PATH
    && match entry.kind
       case Directory => tree.openable(child) && Whole(tree, child, depth + 1)
       case Regular => GoodFile(tree.file(child))
       case Special => false
  }

  /** The regular files below a directory, each directory's entries in order of their names, down to the depth bound. */
  function Files(tree: Tree, path: Path, depth: nat): seq<Member>
    decreases if depth > MAX_DEPTH then 0 else MAX_DEPTH + 1 - depth, 1
  {
    if depth > MAX_DEPTH || !AllSound(Visible(tree.list(path))) then []
    else FilesIn(tree, path, depth, Names(tree.list(path)))
  }

  function FilesIn(tree: Tree, path: Path, depth: nat, names: seq<Entry>): seq<Member>
    requires depth <= MAX_DEPTH
    decreases MAX_DEPTH + 1 - depth, 0, |names|, 1
  {
    if names == [] then []
    else FilesIn(tree, path, depth, names[..|names| - 1]) + FilesAt(tree, path, depth, names[|names| - 1])
  }

  function FilesAt(tree: Tree, path: Path, depth: nat, entry: Entry): seq<Member>
    requires depth <= MAX_DEPTH
    decreases MAX_DEPTH + 1 - depth, 0, 0, 0
  {
    var child := Child(path, entry.name);
    match entry.kind
    case Directory => Files(tree, child, depth + 1)
    case Regular => [Member(child, FileSize(tree, child))]
    case Special => []
  }

  /** The entries below a directory, its own included. */
  function Visited(tree: Tree, path: Path, depth: nat): nat
    decreases if depth > MAX_DEPTH then 0 else MAX_DEPTH + 1 - depth, 1
  {
    if depth > MAX_DEPTH || !AllSound(Visible(tree.list(path))) then 0
    else |Visible(tree.list(path))| + VisitedIn(tree, path, depth, Names(tree.list(path)))
  }

  function VisitedIn(tree: Tree, path: Path, depth: nat, names: seq<Entry>): nat
    requires depth <= MAX_DEPTH
    decreases MAX_DEPTH + 1 - depth, 0, |names|, 1
  {
    if names == [] then 0
    else VisitedIn(tree, path, depth, names[..|names| - 1]) + VisitedAt(tree, path, depth, names[|names| - 1])
  }

  function VisitedAt(tree: Tree, path: Path, depth: nat, entry: Entry): nat
    requires depth <= MAX_DEPTH
    decreases MAX_DEPTH + 1 - depth, 0, 0, 0
  {
    if entry.kind.Directory? then Visited(tree, Child(path, entry.name), depth + 1) else 0
  }

  lemma NextEntry(tree: Tree, path: Path, depth: nat, names: seq<Entry>, k: nat)
    requires depth <= MAX_DEPTH && k < |names|
    ensures WholeIn(tree, path, depth, names[..k + 1]) <==>
      WholeIn(tree, path, depth, names[..k]) && WholeAt(tree, path, depth, names[k])
    ensures FilesIn(tree, path, depth, names[..k + 1]) ==
      FilesIn(tree, path, depth, names[..k]) + FilesAt(tree, path, depth, names[k])
    ensures TotalSize(FilesIn(tree, path, depth, names[..k + 1])) ==
      TotalSize(FilesIn(tree, path, depth, names[..k])) + TotalSize(FilesAt(tree, path, depth, names[k]))
    ensures VisitedIn(tree, path, depth, names[..k + 1]) ==
      VisitedIn(tree, path, depth, names[..k]) + VisitedAt(tree, path, depth, names[k])
  {
    assert names[..k + 1][..k] == names[..k];
    TotalJoins(FilesIn(tree, path, depth, names[..k]), FilesAt(tree, path, depth, names[k]));
  }

  /** What the first entries need is no more than what all of them need. */
  lemma {:induction false} PrefixFits(tree: Tree, path: Path, depth: nat, names: seq<Entry>, k: nat)
    requires depth <= MAX_DEPTH && k <= |names|
    ensures WholeIn(tree, path, depth, names) ==> WholeIn(tree, path, depth, names[..k])
    ensures TotalSize(FilesIn(tree, path, depth, names[..k])) <= TotalSize(FilesIn(tree, path, depth, names))
    ensures VisitedIn(tree, path, depth, names[..k]) <= VisitedIn(tree, path, depth, names)
  {
    if k == |names| {
      assert names[..k] == names;
    } else {
      var front := names[..|names| - 1];
      assert front[..k] == names[..k];
      PrefixFits(tree, path, depth, front, k);
      TotalJoins(FilesIn(tree, path, depth, front), FilesAt(tree, path, depth, names[|names| - 1]));
    }
  }

  /** The outputs are whole and within both budgets. */
  predicate Exportable(tree: Tree) {
    && Whole(tree, OUTPUTS, 0)
    && Visited(tree, OUTPUTS, 0) <= MAX_ENTRIES
    && TotalSize(Files(tree, OUTPUTS, 0)) <= MAX_TOTAL_BYTES
  }

  const OUTPUTS: Path := [111, 117, 116, 112, 117, 116, 115]

  /**
   * The whole export: absent outputs give an empty archive, present ones finish exactly when they are whole and within
   * both budgets, and a finished archive always fits.
   */
  method Outputs(tree: Tree, present: bool, openable: bool) returns (members: Option<seq<Member>>)
    ensures !present ==> members.Some?
    ensures present ==> (members.Some? <==> openable && Exportable(tree))
    ensures members.Some? ==> members.value == (if present then Files(tree, OUTPUTS, 0) else [])
    ensures members.Some? ==> |members.value| <= MAX_ENTRIES && TotalSize(members.value) <= MAX_TOTAL_BYTES
    ensures members.Some? ==> ArchiveSize(members.value) <= EXPORT_LIMIT
  {
    if !present {
      return Some([]);
    }
    if !openable {
      return None;
    }
    var walker := new Walker(tree);
    var ok := walker.Walk(OUTPUTS, 0);
    if !ok {
      return None;
    }
    ArchiveFits(walker.members);
    assert walker.members == [] + Files(tree, OUTPUTS, 0);
    return Some(walker.members);
  }
}
