/** Lexical path cleaning, and what it means for a relative path to be clean. */
module CleanPaths {
  import opened Basics
  import opened Paths

  function Join(parts: seq<string>): string {
    if parts == [] then ""
    else if |parts| == 1 then parts[0]
    else Join(parts[..|parts| - 1]) + "/" + parts[|parts| - 1]
  }

  /** One part after those kept so far: ".." takes the last one back, unless there is none to take. */
  function Push(kept: seq<string>, part: string, rooted: bool): seq<string> {
    if part == "" || part == "." then kept
    else if part == ".." && kept != [] && kept[|kept| - 1] != ".." then kept[..|kept| - 1]
    else if part == ".." && rooted then kept
    else kept + [part]
  }

  function Reduce(parts: seq<string>, rooted: bool): seq<string> {
    if parts == [] then [] else Push(Reduce(parts[..|parts| - 1], rooted), parts[|parts| - 1], rooted)
  }

  function Clean(path: string): string {
    if path == "" then "."
    else
      var rooted := path[0] == '/';
      var kept := Reduce(Split(path), rooted);
      if rooted then "/" + Join(kept) else if kept == [] then "." else Join(kept)
  }

  predicate IsAbs(path: string) {
    path != "" && path[0] == '/'
  }

  /** Everything up to the last slash. */
  function DirPart(path: string): string {
    if path == "" || path[|path| - 1] == '/' then path else DirPart(path[..|path| - 1])
  }

  function Dir(path: string): string {
    Clean(DirPart(path))
  }

  /** What stands before the first slash, and what after it if there is one. */
  function Cut(path: string): (string, Option<string>) {
    if path == "" then ("", None)
    else if path[0] == '/' then ("", Some(path[1..]))
    else
      var (head, rest) := Cut(path[1..]);
      ([path[0]] + head, rest)
  }

  // ----- splitting and joining -----

  lemma {:induction false} SplitAtSlash(a: string, b: string)
    ensures Split(a + "/" + b) == Split(a) + Split(b)
  {
    if b == "" {
      assert (a + "/" + b)[..|a|] == a;
    } else {
      SplitAtSlash(a, b[..|b| - 1]);
      assert (a + "/" + b)[..|a + "/" + b| - 1] == a + "/" + b[..|b| - 1];
    }
  }

  lemma {:induction false} SplitPlain(part: string)
    requires '/' !in part
    ensures Split(part) == [part]
  {
    if part != "" {
      SplitPlain(part[..|part| - 1]);
      assert part == part[..|part| - 1] + [part[|part| - 1]];
    }
  }

  predicate SlashFree(parts: seq<string>) {
    forall i :: 0 <= i < |parts| ==> '/' !in parts[i]
  }

  lemma {:induction false} SplitJoin(parts: seq<string>)
    requires parts != [] && SlashFree(parts)
    ensures Split(Join(parts)) == parts
  {
    if |parts| == 1 {
      SplitPlain(parts[0]);
    } else {
      var front, last := parts[..|parts| - 1], parts[|parts| - 1];
      var start := Join(front);
      assert Split(start) == front by {
        SplitJoin(front);
      }
      assert Split(last) == [last] by {
        SplitPlain(last);
      }
      SplitAtSlash(start, last);
      assert parts == front + [last];
    }
  }

  lemma {:induction false} JoinSplit(path: string)
    ensures Join(Split(path)) == path && SlashFree(Split(path))
  {
    if path != "" {
      var front, last := path[..|path| - 1], path[|path| - 1];
      JoinSplit(front);
      var before := Split(front);
      assert path == front + [last];
      if last == '/' {
        assert Split(path)[..|before|] == before;
      } else {
        assert Split(path)[..|before| - 1] == before[..|before| - 1];
      }
    }
  }

  lemma {:induction false} CutJoins(path: string)
    ensures
      var (head, rest) := Cut(path);
      '/' !in head && path == (if rest.Some? then head + "/" + rest.value else head)
  {
    if path != "" && path[0] != '/' {
      CutJoins(path[1..]);
      assert path == [path[0]] + path[1..];
    }
  }

  /** Cutting at the first slash takes off the first part. */
  lemma CutSplit(path: string)
    ensures
      var (head, rest) := Cut(path);
      Split(path) == (if rest.Some? then [head] + Split(rest.value) else [head])
  {
    CutJoins(path);
    var (head, rest) := Cut(path);
    SplitPlain(head);
    if rest.Some? {
      SplitAtSlash(head, rest.value);
    }
  }

  // ----- clean relative paths -----

  /** Parts that name something: neither empty, nor the directory itself, nor its parent. */
  predicate Proper(parts: seq<string>) {
    forall i :: 0 <= i < |parts| ==> parts[i] != "" && parts[i] != "." && parts[i] != ".."
  }

  /** ".." only at the front. */
  predicate Leading(parts: seq<string>) {
    && (forall i :: 0 <= i < |parts| ==> parts[i] != "" && parts[i] != ".")
    && (forall i, j :: 0 <= i < j < |parts| && parts[j] == ".." ==> parts[i] == "..")
  }

  lemma {:induction false} ReduceShape(parts: seq<string>)
    requires SlashFree(parts)
    ensures Leading(Reduce(parts, false)) && SlashFree(Reduce(parts, false))
  {
    if parts != [] {
      ReduceShape(parts[..|parts| - 1]);
      var kept, part := Reduce(parts[..|parts| - 1], false), parts[|parts| - 1];
      assert '/' !in part;
      var after := Push(kept, part, false);
      assert forall i :: 0 <= i < |after| ==> after[i] == if i < |kept| then kept[i] else part;
    }
  }

  lemma {:induction false} ReduceProper(parts: seq<string>)
    requires Proper(parts)
    ensures Reduce(parts, false) == parts
  {
    if parts != [] {
      ReduceProper(parts[..|parts| - 1]);
      assert parts == parts[..|parts| - 1] + [parts[|parts| - 1]];
    }
  }

  /** A relative path that cleaning leaves alone, and that does not start with "." or "..", has only proper parts. */
  lemma CleanMeansProper(path: string)
    ensures (Clean(path) == path && !IsAbs(path) && Split(path)[0] !in {"", ".", ".."}) <==> Proper(Split(path))
  {
    JoinSplit(path);
    var parts := Split(path);
    if Proper(parts) {
      ReduceProper(parts);
      CutSplit(path);
    } else if Clean(path) == path && !IsAbs(path) && parts[0] !in {"", ".", ".."} {
      ReduceShape(parts);
      var kept := Reduce(parts, false);
      if kept == [] {
        SplitPlain(".");
      } else {
        SplitJoin(kept);
      }
      assert false;
    }
  }

  // ----- parents -----

  lemma {:induction false} DirPartAtSlash(a: string, b: string)
    requires '/' !in b
    ensures DirPart(a + "/" + b) == a + "/"
  {
    if b == "" {
      assert a + "/" + b == a + "/";
    } else {
      DirPartAtSlash(a, b[..|b| - 1]);
      assert (a + "/" + b)[..|a + "/" + b| - 1] == a + "/" + b[..|b| - 1];
      assert (a + "/" + b)[|a + "/" + b| - 1] == b[|b| - 1] && b[|b| - 1] in b;
    }
  }

  lemma {:induction false} DirPartPlain(part: string)
    requires '/' !in part
    ensures DirPart(part) == ""
  {
    if part != "" {
      assert part[|part| - 1] in part;
      DirPartPlain(part[..|part| - 1]);
    }
  }

  lemma CleanDir(parts: seq<string>)
    requires parts != [] && Proper(parts) && SlashFree(parts)
    ensures Clean(Join(parts) + "/") == Join(parts)
  {
    var path := Join(parts);
    SplitJoin(parts);
    SplitAtSlash(path, "");
    assert path + "/" == path + "/" + "";
    assert Split(path + "/") == parts + [""];
    assert (parts + [""])[..|parts|] == parts;
    ReduceProper(parts);
    StartsProperly(path);
  }

  lemma StartsProperly(path: string)
    requires Split(path)[0] != ""
    ensures path != "" && path[0] != '/'
  {
    CutSplit(path);
    assert Cut(path).0 == Split(path)[0];
  }

  /** The parent of a proper path drops its last part; that of a single part is the directory itself. */
  lemma DirIsParent(parts: seq<string>)
    requires parts != [] && Proper(parts) && SlashFree(parts)
    ensures Dir(Join(parts)) == if |parts| == 1 then "." else Join(parts[..|parts| - 1])
  {
    if |parts| == 1 {
      DirPartPlain(parts[0]);
    } else {
      DirPartAtSlash(Join(parts[..|parts| - 1]), parts[|parts| - 1]);
      CleanDir(parts[..|parts| - 1]);
    }
  }
}
