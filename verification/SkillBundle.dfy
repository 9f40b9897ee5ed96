/** Reading a Skill bundle: every accepted file list can be laid out as a tree, under one checked manifest. */
module SkillBundle {
  import opened Basics
  import opened Paths
  import opened CleanPaths

  const MAX_ARCHIVE_BYTES := 5 * 1024 * 1024
  const MAX_EXPANDED_BYTES := 20 * 1024 * 1024
  const MAX_FILES := 1000
  const MAX_NAME_BYTES := 4096
  const MANIFEST := "SKILL.md"

  datatype Kind = Directory | Regular | Special

  /** An archive entry; content is what reading it gives, if that succeeds. */
  datatype Entry = Entry(
    name: string, utf8: bool, encrypted: bool, kind: Kind, size: nat, content: Option<seq<byte>>, executable: bool)

  datatype File = File(path: string, data: seq<byte>, executable: bool)

  datatype Metadata = Metadata(kind: string, name: string, description: string, descriptionUtf8: bool)

  // ----- what is expected -----

  predicate LowerAlnum(c: char) {
    'a' <= c <= 'z' || '0' <= c <= '9'
  }

  predicate AlnumRun(text: string) {
    text != "" && forall i :: 0 <= i < |text| ==> LowerAlnum(text[i])
  }

  /** Runs of lower-case letters and digits, joined by single hyphens or underscores. */
  predicate SkillName(name: string)
    decreases |name|
  {
    || AlnumRun(name)
    || exists k ::
         && 0 < k < |name| && (name[k] == '-' || name[k] == '_')
         && AlnumRun(name[k + 1..]) && SkillName(name[..k])
  }

  predicate ValidMetadata(m: Metadata) {
    m.kind == "inline" && SkillName(m.name) && |m.name| <= 64 && m.description != "" && m.descriptionUtf8
  }

  // ----- entries -----

  function Trim(name: string): string {
    if name != "" && name[|name| - 1] == '/' then name[..|name| - 1] else name
  }

  predicate NameOk(name: string, utf8: bool) {
    && utf8 && Utf8Length(name) <= MAX_NAME_BYTES && !ForbiddenIn(name) && Clean(name) == name && !IsAbs(name)
    && Cut(name).0 !in {".", "..", ""}
  }

  /** An entry with its name taken apart: the root, what is under it, and whether the name is acceptable. */
  datatype Item = Item(name: string, root: string, rest: Option<string>, valid: bool, entry: Entry)

  function ItemOf(e: Entry): (item: Item)
    ensures WellCut(item)
  {
    var name := Trim(e.name);
    var (root, rest) := Cut(name);
    NamesAreProper(name, e.utf8);
    Item(name, root, rest, NameOk(name, e.utf8), e)
  }

  function Items(entries: seq<Entry>): (items: seq<Item>)
    ensures AllWellCut(items)
  {
    seq(|entries|, i requires 0 <= i < |entries| => ItemOf(entries[i]))
  }

  /** An acceptable name is its root and a proper path under it. */
  predicate WellCut(item: Item) {
    item.valid ==>
      && item.root != ""
      && (item.rest.Some? ==> item.name == item.root + "/" + item.rest.value && ProperPath(item.rest.value))
  }

  predicate ProperPath(path: string) {
    Proper(Split(path))
  }

  lemma NamesAreProper(name: string, utf8: bool)
    ensures
      var (root, rest) := Cut(name);
      NameOk(name, utf8) && rest.Some? ==> name == root + "/" + rest.value && ProperPath(rest.value)
  {
    CutSplit(name);
    CutJoins(name);
    CleanMeansProper(name);
    var rest := Cut(name).1;
    if rest.Some? {
      forall i | 0 <= i < |Split(rest.value)| ensures Split(rest.value)[i] == Split(name)[i + 1] {
      }
    }
  }

  // ----- which entries may follow which -----

  predicate IsFile(item: Item) {
    item.entry.kind.Regular? && item.rest.Some? && item.entry.content.Some?
  }

  function FileOf(item: Item): File
    requires IsFile(item)
  {
    File(item.rest.value, item.entry.content.value, item.entry.executable)
  }

  function FilesOf(items: seq<Item>): seq<File> {
    if items == [] then []
    else
      var last := items[|items| - 1];
      FilesOf(items[..|items| - 1]) + (if IsFile(last) then [FileOf(last)] else [])
  }

  function Total(files: seq<File>): nat {
    if files == [] then 0 else Total(files[..|files| - 1]) + |files[|files| - 1].data|
  }

  function Names(items: seq<Item>): set<string> {
    set item <- items :: item.name
  }

  predicate FileFits(item: Item, total: nat, manifest: seq<byte> -> bool) {
    && IsFile(item) && item.entry.size <= MAX_EXPANDED_BYTES && total + item.entry.size <= MAX_EXPANDED_BYTES
    && total + |item.entry.content.value| <= MAX_EXPANDED_BYTES
    && (item.rest.value == MANIFEST ==> manifest(item.entry.content.value))
  }

  predicate Admissible(item: Item, before: seq<Item>, manifest: seq<byte> -> bool) {
    && item.valid && (before != [] ==> item.root == before[0].root)
    && item.name !in Names(before) && !item.entry.encrypted
    && (item.entry.kind.Directory? || FileFits(item, Total(FilesOf(before)), manifest))
  }

  predicate AllAdmissible(items: seq<Item>, manifest: seq<byte> -> bool) {
    items == [] ||
    (var before := items[..|items| - 1];
     AllAdmissible(before, manifest) && Admissible(items[|items| - 1], before, manifest))
  }

  lemma {:induction false} AdmissiblePrefix(items: seq<Item>, k: nat, manifest: seq<byte> -> bool)
    requires k <= |items| && AllAdmissible(items, manifest)
    ensures AllAdmissible(items[..k], manifest)
  {
    if k < |items| {
      assert items[..|items| - 1][..k] == items[..k];
      AdmissiblePrefix(items[..|items| - 1], k, manifest);
    } else {
      assert items[..k] == items;
    }
  }

  // ----- what an accepted list is -----

  function PathsOf(files: seq<File>): seq<string> {
    seq(|files|, i requires 0 <= i < |files| => files[i].path)
  }

  /** One path lies above another. */
  predicate Above(a: string, path: string) {
    exists i :: 0 < i < |Split(path)| && a == Join(Split(path)[..i])
  }

  predicate NoneAbove(files: seq<File>) {
    forall i, j :: 0 <= i < |files| && 0 <= j < |files| ==> !Above(files[i].path, files[j].path)
  }

  predicate AllProper(files: seq<File>) {
    forall i :: 0 <= i < |files| ==> ProperPath(files[i].path)
  }

  predicate Manifests(files: seq<File>, manifest: seq<byte> -> bool) {
    forall i :: 0 <= i < |files| && files[i].path == MANIFEST ==> manifest(files[i].data)
  }

  /** Distinct proper paths within the budget, no file above another, and one checked manifest at the top. */
  predicate Sound(files: seq<File>, manifest: seq<byte> -> bool) {
    && AllProper(files) && Distinct(PathsOf(files)) && NoneAbove(files) && Total(files) <= MAX_EXPANDED_BYTES
    && MANIFEST in PathsOf(files) && Manifests(files, manifest)
  }

  predicate AllWellCut(items: seq<Item>) {
    forall i :: 0 <= i < |items| ==> WellCut(items[i])
  }

  lemma NamesSnoc(before: seq<Item>, last: Item)
    ensures Names(before + [last]) == Names(before) + {last.name}
  {
    assert forall x :: x in before + [last] <==> x in before || x == last;
  }

  lemma FilesSnoc(before: seq<Item>, last: Item)
    ensures FilesOf(before + [last]) == if IsFile(last) then FilesOf(before) + [FileOf(last)] else FilesOf(before)
  {
    assert (before + [last])[..|before|] == before;
  }

  lemma PathsSnoc(files: seq<File>, f: File)
    ensures PathsOf(files + [f]) == PathsOf(files) + [f.path]
  {
  }

  /** Every accepted file was listed under the one root. */
  lemma {:induction false} FilesAreListed(items: seq<Item>, manifest: seq<byte> -> bool, path: string)
    requires AllWellCut(items) && AllAdmissible(items, manifest) && path in PathsOf(FilesOf(items))
    ensures items != [] && items[0].root + "/" + path in Names(items)
  {
    var before, last := items[..|items| - 1], items[|items| - 1];
    assert items == before + [last];
    NamesSnoc(before, last);
    FilesSnoc(before, last);
    if path in PathsOf(FilesOf(before)) {
      FilesAreListed(before, manifest, path);
      assert before[0] == items[0];
    } else {
      PathsSnoc(FilesOf(before), FileOf(last));
      assert WellCut(items[|items| - 1]);
    }
  }

  lemma {:induction false} AdmissibleFiles(items: seq<Item>, manifest: seq<byte> -> bool)
    requires AllWellCut(items) && AllAdmissible(items, manifest)
    ensures
      var files := FilesOf(items);
      AllProper(files) && Distinct(PathsOf(files)) && Total(files) <= MAX_EXPANDED_BYTES && Manifests(files, manifest)
  {
    if items != [] {
      var before, last := items[..|items| - 1], items[|items| - 1];
      AdmissibleFiles(before, manifest);
      FilesSnoc(before, last);
      assert items == before + [last];
      if IsFile(last) {
        assert WellCut(last);
        NewPath(before, last, manifest);
        FilesGrow(FilesOf(before), FileOf(last), manifest);
      }
    }
  }

  /** A further file has a further path. */
  lemma NewPath(before: seq<Item>, last: Item, manifest: seq<byte> -> bool)
    requires AllWellCut(before) && WellCut(last)
    requires AllAdmissible(before, manifest) && Admissible(last, before, manifest) && IsFile(last)
    ensures FileOf(last).path !in PathsOf(FilesOf(before))
  {
    if FileOf(last).path in PathsOf(FilesOf(before)) {
      FilesAreListed(before, manifest, FileOf(last).path);
    }
  }

  lemma FilesGrow(files: seq<File>, f: File, manifest: seq<byte> -> bool)
    requires AllProper(files) && Distinct(PathsOf(files)) && Manifests(files, manifest)
    requires ProperPath(f.path) && f.path !in PathsOf(files) && (f.path == MANIFEST ==> manifest(f.data))
    ensures AllProper(files + [f]) && Distinct(PathsOf(files + [f])) && Manifests(files + [f], manifest)
    ensures Total(files + [f]) == Total(files) + |f.data|
  {
    assert (files + [f])[..|files|] == files;
    PathsSnoc(files, f);
  }

  // ----- the reader -----

  /** What the archive loop has gathered from the items before. */
  ghost predicate Gathered(before: seq<Item>, manifest: seq<byte> -> bool, root: string, seen: set<string>,
                           files: seq<File>, total: nat, found: bool) {
    && AllAdmissible(before, manifest)
    && (if before == [] then root == "" else root == before[0].root != "")
    && seen == Names(before) && files == FilesOf(before) && total == Total(files)
    && (found <==> MANIFEST in PathsOf(files))
  }

  /** The archive loop: accepts exactly the admissible items, and keeps the regular files in order. */
  method Scan(items: seq<Item>, manifest: seq<byte> -> bool) returns (ok: bool, files: seq<File>, found: bool)
    requires AllWellCut(items)
    ensures ok <==> AllAdmissible(items, manifest)
    ensures ok ==> files == FilesOf(items)
    ensures ok ==> (found <==> MANIFEST in PathsOf(files))
  {
    var root, seen: set<string>, total, k := "", {}, 0, 0;
    ok, files, found := true, [], false;
    while k < |items|
      invariant 0 <= k <= |items|
      invariant Gathered(items[..k], manifest, root, seen, files, total, found)
    {
      assert WellCut(items[k]);
      ok, root, seen, files, total, found := Take(items[..k], items[k], manifest, root, seen, files, total, found);
      assert items[..k] + [items[k]] == items[..k + 1];
      k := k + 1;
      if !ok {
        if AllAdmissible(items, manifest) {
          AdmissiblePrefix(items, k, manifest);
        }
        return false, [], false;
      }
    }
    assert items[..k] == items;
  }

  /** One turn of the archive loop. */
  method Take(ghost before: seq<Item>, item: Item, manifest: seq<byte> -> bool,
              root: string, seen: set<string>, files: seq<File>, total: nat, found: bool)
    returns (ok: bool, root': string, seen': set<string>, files': seq<File>, total': nat, found': bool)
    requires Gathered(before, manifest, root, seen, files, total, found) && (item.valid ==> item.root != "")
    ensures ok <==> AllAdmissible(before + [item], manifest)
    ensures ok ==> Gathered(before + [item], manifest, root', seen', files', total', found')
  {
    root', seen', files', total', found' := root, seen, files, total, found;
    if root == "" {
      root' := item.root;
    }
    AdmissibleSnoc(before, item, manifest);
    if !item.valid || root' != item.root || item.name in seen || item.entry.encrypted {
      return false, root', seen', files', total', found';
    }
    if !item.entry.kind.Directory? && !FileFits(item, total, manifest) {
      return false, root', seen', files', total', found';
    }
    seen' := seen + {item.name};
    if item.entry.kind.Directory? {
      GatheredMore(before, item, manifest, root, seen, files, total, found);
    } else {
      var f := FileOf(item);
      GatheredMore(before, item, manifest, root, seen, files, total, found);
      total', found', files' := total + |f.data|, found || f.path == MANIFEST, files + [f];
    }
    ok := true;
  }

  lemma AdmissibleSnoc(before: seq<Item>, item: Item, manifest: seq<byte> -> bool)
    ensures AllAdmissible(before + [item], manifest) <==>
      AllAdmissible(before, manifest) && Admissible(item, before, manifest)
  {
    assert (before + [item])[..|before|] == before;
  }

  /** An admissible item adds its name, and its file if it is one. */
  lemma GatheredMore(before: seq<Item>, item: Item, manifest: seq<byte> -> bool, root: string, seen: set<string>,
                     files: seq<File>, total: nat, found: bool)
    requires Gathered(before, manifest, root, seen, files, total, found) && Admissible(item, before, manifest)
    requires item.root != ""
    ensures item.entry.kind.Directory? ==>
      Gathered(before + [item], manifest, item.root, seen + {item.name}, files, total, found)
    ensures !item.entry.kind.Directory? ==>
      var f := FileOf(item);
      Gathered(before + [item], manifest, item.root, seen + {item.name}, files + [f], total + |f.data|,
               found || f.path == MANIFEST)
  {
    AdmissibleSnoc(before, item, manifest);
    NamesSnoc(before, item);
    FilesSnoc(before, item);
    assert (before + [item])[0] == if before == [] then item else before[0];
    if !item.entry.kind.Directory? {
      var f := FileOf(item);
      assert (files + [f])[..|files|] == files;
      PathsSnoc(files, f);
    }
  }

  /** The path made of the first parts, or the top. */
  function Up(parts: seq<string>, i: nat): string
    requires i <= |parts|
  {
    if i == 0 then "." else Join(parts[..i])
  }

  /** The way from the top down to a path. */
  ghost function Way(path: string): seq<string> {
    seq(|Split(path)| + 1, i requires 0 <= i <= |Split(path)| => Up(Split(path), i))
  }

  predicate ParentOf(parent: string, path: string) {
    parent == Dir(path) && path != "."
  }

  lemma WayClimbs(path: string)
    requires ProperPath(path)
    ensures Way(path)[0] == "." && Way(path)[|Split(path)|] == path
    ensures forall i :: 0 < i < |Way(path)| ==> ParentOf(Way(path)[i - 1], Way(path)[i])
  {
    var parts := Split(path);
    JoinSplit(path);
    assert parts[..|parts|] == parts;
    forall i | 0 < i < |Way(path)| ensures ParentOf(Way(path)[i - 1], Way(path)[i]) {
      UpIsParent(parts, i);
    }
  }

  lemma UpIsParent(parts: seq<string>, i: nat)
    requires 0 < i <= |parts| && Proper(parts) && SlashFree(parts)
    ensures ParentOf(Up(parts, i - 1), Up(parts, i))
  {
    DirIsParent(parts[..i]);
    assert parts[..i][..i - 1] == parts[..i - 1];
    NotDot(parts[..i]);
  }

  lemma NotDot(parts: seq<string>)
    requires parts != [] && Proper(parts) && SlashFree(parts)
    ensures Join(parts) != "."
  {
    SplitJoin(parts);
    SplitPlain(".");
  }

  /** Walks from a path to the top, looking for a file on the way. */
  method ClearAbove(path: string, regular: set<string>) returns (ok: bool)
    requires ProperPath(path)
    ensures ok <==> forall a :: a in regular ==> !Above(a, path)
  {
    ghost var way := Way(path);
    WayClimbs(path);
    WayIsAbove(path, regular);
    ok := Walk(path, way, regular);
  }

  method Walk(path: string, ghost way: seq<string>, regular: set<string>) returns (ok: bool)
    requires |way| > 1 && way[0] == "." && way[|way| - 1] == path
    requires forall i :: 0 < i < |way| ==> ParentOf(way[i - 1], way[i])
    ensures ok <==> forall i :: 0 < i < |way| - 1 ==> way[i] !in regular
  {
    var parent := Dir(path);
    ghost var i := |way| - 2;
    while parent != "."
      invariant 0 <= i < |way| - 1 && parent == way[i]
      invariant forall j :: i < j < |way| - 1 ==> way[j] !in regular
      decreases i
    {
      if parent in regular {
        return false;
      }
      assert ParentOf(way[i - 1], way[i]);
      parent := Dir(parent);
      i := i - 1;
    }
    assert i > 0 ==> ParentOf(way[i - 1], way[i]);
    return true;
  }

  /** What the walk passes is what lies above. */
  lemma WayIsAbove(path: string, regular: set<string>)
    ensures (forall i :: 0 < i < |Way(path)| - 1 ==> Way(path)[i] !in regular)
            <==> (forall a :: a in regular ==> !Above(a, path))
  {
    var parts, way := Split(path), Way(path);
    forall i | 0 < i < |parts| ensures Above(way[i], path) {
    }
    assert forall a :: Above(a, path) ==> exists i :: 0 < i < |parts| && a == way[i] by {
      forall a | Above(a, path) ensures exists i :: 0 < i < |parts| && a == way[i] {
        var i :| 0 < i < |parts| && a == Join(parts[..i]);
        assert a == way[i];
      }
    }
  }

  method NoFileAbove(files: seq<File>) returns (ok: bool)
    requires AllProper(files)
    ensures ok <==> NoneAbove(files)
  {
    var regular := set f <- files :: f.path;
    assert forall i :: 0 <= i < |files| ==> files[i] in files && files[i].path in regular;
    var k := 0;
    while k < |files|
      invariant 0 <= k <= |files|
      invariant forall i, j :: 0 <= i < |files| && 0 <= j < k ==> !Above(files[i].path, files[j].path)
    {
      ok := ClearAbove(files[k].path, regular);
      if !ok {
        return false;
      }
      k := k + 1;
    }
    return true;
  }

  /** Reads a bundle; whatever it accepts is sound. */
  method Read(archiveBytes: nat, entries: Option<seq<Entry>>, expected: Metadata, manifest: seq<byte> -> bool)
    returns (result: Option<seq<File>>)
    ensures result.Some? <==>
      && ValidMetadata(expected) && archiveBytes <= MAX_ARCHIVE_BYTES
      && entries.Some? && 0 < |entries.value| <= MAX_FILES
      && AllAdmissible(Items(entries.value), manifest)
      && MANIFEST in PathsOf(FilesOf(Items(entries.value))) && NoneAbove(FilesOf(Items(entries.value)))
    ensures result.Some? ==> result.value == FilesOf(Items(entries.value)) && Sound(result.value, manifest)
  {
    if !ValidMetadata(expected) || archiveBytes > MAX_ARCHIVE_BYTES {
      return None;
    }
    if entries.None? || |entries.value| == 0 || |entries.value| > MAX_FILES {
      return None;
    }
    var ok, files, found := Scan(Items(entries.value), manifest);
    if !ok || !found {
      return None;
    }
    AdmissibleFiles(Items(entries.value), manifest);
    ok := NoFileAbove(files);
    if !ok {
      return None;
    }
    return Some(files);
  }

  /** There is exactly one manifest, and it is the checked one. */
  lemma OneManifest(files: seq<File>, manifest: seq<byte> -> bool)
    requires Sound(files, manifest)
    ensures exists i ::
      && 0 <= i < |files| && files[i].path == MANIFEST && manifest(files[i].data)
      && forall j :: 0 <= j < |files| && files[j].path == MANIFEST ==> j == i
  {
    var i :| 0 <= i < |PathsOf(files)| && PathsOf(files)[i] == MANIFEST;
    assert files[i].path == MANIFEST;
    forall j | 0 <= j < |files| && files[j].path == MANIFEST ensures j == i {
      assert PathsOf(files)[j] == PathsOf(files)[i];
    }
  }

  // ----- laying files out -----

  /** A directory tree, by the parts of each path. */
  datatype Disk = Disk(files: map<seq<string>, File>, dirs: set<seq<string>>)

  function Parents(parts: seq<string>): set<seq<string>> {
    set i | 0 < i < |parts| :: parts[..i]
  }

  /** There is room for a file: nothing stands in its place, and no file stands above it. */
  predicate Fits(disk: Disk, parts: seq<string>) {
    && parts !in disk.files && parts !in disk.dirs
    && forall i :: 0 < i < |parts| ==> parts[..i] !in disk.files
  }

  function Layout(files: seq<File>): Option<Disk> {
    if files == [] then Some(Disk(map[], {}))
    else
      var before, f := Layout(files[..|files| - 1]), files[|files| - 1];
      var parts := Split(f.path);
      if before.None? || !Fits(before.value, parts) then None
      else Some(Disk(before.value.files[parts := f], before.value.dirs + Parents(parts)))
  }

  /** The disk holds these files and the directories above them. */
  predicate Holds(disk: Disk, files: seq<File>) {
    && (forall i :: 0 <= i < |files| ==>
          Split(files[i].path) in disk.files && disk.files[Split(files[i].path)] == files[i])
    && (forall parts :: parts in disk.files ==> disk.files[parts] in files && parts == Split(disk.files[parts].path))
    && (forall parts :: parts in disk.dirs ==> exists i :: 0 <= i < |files| && parts in Parents(Split(files[i].path)))
  }

  lemma AboveParents(a: string, path: string)
    requires Split(a) in Parents(Split(path))
    ensures Above(a, path)
  {
    JoinSplit(a);
    var i :| 0 < i < |Split(path)| && Split(a) == Split(path)[..i];
    assert a == Join(Split(path)[..i]);
  }

  lemma InPaths(files: seq<File>, f: File)
    requires f in files
    ensures f.path in PathsOf(files)
  {
    var i :| 0 <= i < |files| && files[i] == f;
    assert PathsOf(files)[i] == f.path;
  }

  lemma RoomForMore(disk: Disk, files: seq<File>, f: File)
    requires Holds(disk, files) && f.path !in PathsOf(files)
    requires forall i :: 0 <= i < |files| ==> !Above(files[i].path, f.path) && !Above(f.path, files[i].path)
    ensures Fits(disk, Split(f.path))
  {
    var parts := Split(f.path);
    if parts in disk.files {
      JoinSplit(f.path);
      JoinSplit(disk.files[parts].path);
      InPaths(files, disk.files[parts]);
    }
    if parts in disk.dirs {
      var i :| 0 <= i < |files| && parts in Parents(Split(files[i].path));
      AboveParents(f.path, files[i].path);
    }
    forall i | 0 < i < |parts| ensures parts[..i] !in disk.files {
      if parts[..i] in disk.files {
        var g := disk.files[parts[..i]];
        assert Split(g.path) == parts[..i];
        var j :| 0 <= j < |files| && files[j] == g;
        AboveParents(g.path, f.path);
      }
    }
  }

  /** Every sound list is laid out without conflict, and the tree holds exactly its files. */
  lemma {:induction false} SoundListsLayOut(files: seq<File>)
    requires Distinct(PathsOf(files)) && NoneAbove(files)
    ensures Layout(files).Some? && Holds(Layout(files).value, files)
  {
    if files != [] {
      var front, f := files[..|files| - 1], files[|files| - 1];
      assert PathsOf(front) == PathsOf(files)[..|front|] && files == front + [f];
      SoundListsLayOut(front);
      assert f.path == PathsOf(files)[|front|];
      RoomForMore(Layout(front).value, front, f);
      HoldsMore(Layout(front).value, front, f);
    }
  }

  lemma HoldsMore(disk: Disk, files: seq<File>, f: File)
    requires Holds(disk, files) && Fits(disk, Split(f.path))
    ensures Holds(Disk(disk.files[Split(f.path) := f], disk.dirs + Parents(Split(f.path))), files + [f])
  {
    var after, all := Disk(disk.files[Split(f.path) := f], disk.dirs + Parents(Split(f.path))), files + [f];
    forall parts | parts in after.dirs ensures exists i :: 0 <= i < |all| && parts in Parents(Split(all[i].path)) {
      if parts in disk.dirs {
        var i :| 0 <= i < |files| && parts in Parents(Split(files[i].path));
        assert all[i] == files[i];
      } else {
        assert all[|files|] == f;
      }
    }
    forall parts | parts in after.files ensures after.files[parts] in all && parts == Split(after.files[parts].path) {
      assert parts != Split(f.path) ==> disk.files[parts] in files;
    }
  }
}
