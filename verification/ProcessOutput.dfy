/** The cursor-based reader of a native process's output and the directory listing built on it. */
module ProcessOutput {
  import opened Basics

  const MAX_OUTPUT: nat := 4 * 1024 * 1024

  datatype Stream = Stdout | Stderr | Pty

  datatype Chunk = Chunk(number: nat, stream: Stream, data: seq<byte>)

  datatype ReadResponse = ReadResponse(
    chunks: seq<Chunk>, nextSeq: nat, exited: bool, exitCode: Option<int>,
    closed: bool, failed: bool, sandboxDenied: bool)

  /** The reader's state as a value. */
  datatype Reading = Reading(bytes: seq<byte>, cursor: nat, exited: bool, closed: bool)

  const UNREAD := Reading([], 0, false, false)

  function Payload(chunks: seq<Chunk>): seq<byte> {
    if chunks == [] then [] else Payload(chunks[..|chunks| - 1]) + chunks[|chunks| - 1].data
  }

  /** What the header alone must satisfy: no step backwards and a count that explains every number. */
  predicate HeaderAccepted(s: Reading, r: ReadResponse) {
    && r.nextSeq >= 1
    && r.nextSeq - 1 >= s.cursor
    && (s.exited ==> r.exited)
    && (s.closed ==> r.closed)
    && r.exited == r.exitCode.Some?
    && (r.closed ==> r.exited)
    && r.nextSeq - 1 - s.cursor
       == |r.chunks| + (if r.exited && !s.exited then 1 else 0) + (if r.closed && !s.closed then 1 else 0)
  }

  /** Chunk numbers climb strictly inside (low, high] and every chunk is standard output. */
  predicate Climbing(chunks: seq<Chunk>, low: nat, high: nat) {
    chunks == [] ||
    var last := chunks[|chunks| - 1];
    && low < last.number <= high
    && last.stream == Stdout
    && Climbing(chunks[..|chunks| - 1], low, last.number - 1)
  }

  predicate Accepts(s: Reading, r: ReadResponse) {
    && HeaderAccepted(s, r)
    && Climbing(r.chunks, s.cursor, r.nextSeq - 1)
    && |s.bytes| + |Payload(r.chunks)| <= MAX_OUTPUT
  }

  function After(s: Reading, r: ReadResponse): Reading
    requires r.nextSeq >= 1
  {
    Reading(s.bytes + Payload(r.chunks), r.nextSeq - 1, r.exited, r.closed)
  }

  /** A refused response may already have extended the bytes with some of its chunks, and nothing else. */
  ghost predicate Refused(s: Reading, t: Reading, r: ReadResponse) {
    exists k :: 0 <= k <= |r.chunks| && t == s.(bytes := s.bytes + Payload(r.chunks[..k]))
  }

  class Output {
    var bytes: seq<byte>
    var cursor: nat
    var exited: bool
    var closed: bool

    constructor ()
      ensures Value() == UNREAD
    {
      bytes, cursor, exited, closed := [], 0, false, false;
    }

    function Value(): Reading
      reads this
    {
      Reading(bytes, cursor, exited, closed)
    }

    method Append(r: ReadResponse) returns (ok: bool)
      requires |bytes| <= MAX_OUTPUT
      modifies this
      ensures |bytes| <= MAX_OUTPUT
      ensures ok <==> Accepts(old(Value()), r)
      ensures ok ==> Value() == After(old(Value()), r)
      ensures !ok ==> Refused(old(Value()), Value(), r)
    {
      assert r.chunks[..0] == [];
      if r.nextSeq == 0 {
        return false;
      }
      var next: int := r.nextSeq - 1;
      if next < cursor || (exited && !r.exited) || (closed && !r.closed)
         || r.exited != r.exitCode.Some? || (r.closed && !r.exited) {
        return false;
      }
      var events := |r.chunks| + (if r.exited && !exited then 1 else 0) + (if r.closed && !closed then 1 else 0);
      if next - cursor != events {
        return false;
      }
      ok := Extend(r.chunks, next);
      if ok {
        cursor, exited, closed := next, r.exited, r.closed;
      }
    }

    /** The loop over the chunks of one response. */
    method Extend(chunks: seq<Chunk>, next: nat) returns (ok: bool)
      requires |bytes| <= MAX_OUTPUT && cursor <= next
      modifies this`bytes
      ensures |bytes| <= MAX_OUTPUT
      ensures ok <==> Climbing(chunks, cursor, next) && |old(bytes)| + |Payload(chunks)| <= MAX_OUTPUT
      ensures ok ==> bytes == old(bytes) + Payload(chunks)
      ensures exists k :: 0 <= k <= |chunks| && bytes == old(bytes) + Payload(chunks[..k])
    {
      var previous: nat := cursor;
      var i := 0;
      assert chunks[..0] == [];
      while i < |chunks|
        invariant 0 <= i <= |chunks|
        invariant bytes == old(bytes) + Payload(chunks[..i]) && |bytes| <= MAX_OUTPUT
        invariant Climbing(chunks[..i], cursor, previous) && cursor <= previous <= next
        invariant previous == if i == 0 then cursor else chunks[i - 1].number
      {
        var chunk := chunks[i];
        PayloadStep(chunks, i);
        if chunk.number <= previous || chunk.number > next || chunk.stream != Stdout {
          BadChunk(chunks, i, cursor, previous, next);
          return false;
        }
        if |chunk.data| > MAX_OUTPUT - |bytes| {
          Prefixes(chunks, i + 1, cursor, next);
          return false;
        }
        ClimbingStep(chunks, i, cursor, previous);
        previous := chunk.number;
        bytes := bytes + chunk.data;
        i := i + 1;
      }
      assert chunks[..i] == chunks;
      ClimbingWidens(chunks, cursor, previous, next);
      return true;
    }
  }

  lemma PayloadStep(chunks: seq<Chunk>, i: nat)
    requires i < |chunks|
    ensures Payload(chunks[..i + 1]) == Payload(chunks[..i]) + chunks[i].data
  {
    assert chunks[..i + 1][..i] == chunks[..i];
  }

  lemma ClimbingStep(chunks: seq<Chunk>, i: nat, low: nat, previous: nat)
    requires i < |chunks| && low <= previous && Climbing(chunks[..i], low, previous)
    requires previous < chunks[i].number && chunks[i].stream == Stdout
    ensures Climbing(chunks[..i + 1], low, chunks[i].number)
  {
    assert chunks[..i + 1][..i] == chunks[..i];
    ClimbingWidens(chunks[..i], low, previous, chunks[i].number - 1);
  }

  lemma {:induction false} ClimbingWidens(chunks: seq<Chunk>, low: nat, high: nat, higher: nat)
    requires Climbing(chunks, low, high) && high <= higher
    ensures Climbing(chunks, low, higher)
  {
  }

  lemma {:induction false} Prefixes(chunks: seq<Chunk>, k: nat, low: nat, high: nat)
    requires k <= |chunks|
    ensures |Payload(chunks[..k])| <= |Payload(chunks)|
    ensures Climbing(chunks, low, high) ==> Climbing(chunks[..k], low, high)
    decreases |chunks|
  {
    if k < |chunks| {
      var front := chunks[..|chunks| - 1];
      Prefixes(front, k, low, chunks[|chunks| - 1].number);
      assert front[..k] == chunks[..k];
      if Climbing(chunks, low, high) {
        Prefixes(front, k, low, chunks[|chunks| - 1].number - 1);
        ClimbingWidens(chunks[..k], low, chunks[|chunks| - 1].number - 1, high);
      }
    } else {
      assert chunks[..k] == chunks;
    }
  }

  lemma BadChunk(chunks: seq<Chunk>, i: nat, low: nat, previous: nat, high: nat)
    requires i < |chunks| && previous == if i == 0 then low else chunks[i - 1].number
    requires chunks[i].number <= previous || chunks[i].number > high || chunks[i].stream != Stdout
    ensures !Climbing(chunks, low, high)
  {
    var upTo := chunks[..i + 1];
    Prefixes(chunks, i + 1, low, high);
    assert i > 0 ==> upTo[..i][i - 1] == chunks[i - 1];
  }

  // ----- the native side: a log of numbered events, of which a response is one snapshot -----

  datatype Event = Wrote(stream: Stream, data: seq<byte>) | Exited(code: int) | Closed

  function Exits(log: seq<Event>): nat {
    if log == [] then 0 else Exits(log[..|log| - 1]) + (if log[|log| - 1].Exited? then 1 else 0)
  }

  function Closes(log: seq<Event>): nat {
    if log == [] then 0 else Closes(log[..|log| - 1]) + (if log[|log| - 1].Closed? then 1 else 0)
  }

  /** Everything the process wrote, in order. */
  function Written(log: seq<Event>): seq<byte> {
    if log == [] then []
    else if log[|log| - 1].Wrote? then Written(log[..|log| - 1]) + log[|log| - 1].data
    else Written(log[..|log| - 1])
  }

  predicate NativeLog(log: seq<Event>) {
    && Exits(log) <= 1
    && Closes(log) <= 1
    && (forall i, j :: 0 <= i < j < |log| && log[i].Closed? ==> !log[j].Wrote?)
  }

  /** Event k of the log carries number k + 1. */
  predicate Genuine(log: seq<Event>, c: Chunk) {
    1 <= c.number <= |log| && log[c.number - 1] == Wrote(c.stream, c.data)
  }

  /** A truthful answer about some prefix of the log, which may leave out any chunks it likes. */
  predicate Snapshot(log: seq<Event>, r: ReadResponse) {
    && 1 <= r.nextSeq <= |log| + 1
    && (r.exited <==> Exits(log[..r.nextSeq - 1]) > 0)
    && (r.closed <==> Closes(log[..r.nextSeq - 1]) > 0)
    && r.exited == r.exitCode.Some?
    && (forall i :: 0 <= i < |r.chunks| ==> Genuine(log, r.chunks[i]))
  }

  /** The reader has everything at or below its cursor. */
  predicate UpToDate(s: Reading, log: seq<Event>) {
    && s.cursor <= |log|
    && s.bytes == Written(log[..s.cursor])
    && (s.exited <==> Exits(log[..s.cursor]) > 0)
    && (s.closed <==> Closes(log[..s.cursor]) > 0)
  }

  /** Every chunk numbered in (low, high]. */
  function ChunksBetween(log: seq<Event>, low: nat, high: nat): seq<Chunk>
    requires low <= high <= |log|
  {
    if low == high then []
    else if log[high - 1].Wrote?
    then ChunksBetween(log, low, high - 1) + [Chunk(high, log[high - 1].stream, log[high - 1].data)]
    else ChunksBetween(log, low, high - 1)
  }

  lemma {:induction false} PrefixStep(log: seq<Event>, n: nat)
    requires n < |log|
    ensures Exits(log[..n + 1]) == Exits(log[..n]) + (if log[n].Exited? then 1 else 0)
    ensures Closes(log[..n + 1]) == Closes(log[..n]) + (if log[n].Closed? then 1 else 0)
    ensures Written(log[..n + 1]) == if log[n].Wrote? then Written(log[..n]) + log[n].data else Written(log[..n])
  {
    assert log[..n + 1][..n] == log[..n];
  }

  lemma {:induction false} CountsClimb(log: seq<Event>, low: nat, high: nat)
    requires low <= high <= |log|
    ensures Exits(log[..low]) <= Exits(log[..high])
    ensures Closes(log[..low]) <= Closes(log[..high])
    ensures Exits(log[..high]) <= Exits(log) && Closes(log[..high]) <= Closes(log)
    decreases |log| - low, |log| - high
  {
    if low < high {
      PrefixStep(log, low);
      CountsClimb(log, low + 1, high);
    } else if high < |log| {
      PrefixStep(log, high);
      CountsClimb(log, high, high + 1);
    } else {
      assert log[..high] == log;
    }
  }

  /** Numbers in (low, high] are chunks, exits and closes and nothing else. */
  lemma {:induction false} Tally(log: seq<Event>, low: nat, high: nat)
    requires low <= high <= |log|
    ensures |ChunksBetween(log, low, high)| + Exits(log[..high]) + Closes(log[..high])
            == high - low + Exits(log[..low]) + Closes(log[..low])
    ensures Written(log[..high]) == Written(log[..low]) + Payload(ChunksBetween(log, low, high))
    decreases high
  {
    if low < high {
      Tally(log, low, high - 1);
      PrefixStep(log, high - 1);
      var front, all := ChunksBetween(log, low, high - 1), ChunksBetween(log, low, high);
      if log[high - 1].Wrote? {
        assert all[..|all| - 1] == front;
        assert Payload(all) == Payload(front) + log[high - 1].data;
      }
    }
  }

  predicate AllStdout(chunks: seq<Chunk>) {
    forall i :: 0 <= i < |chunks| ==> chunks[i].stream == Stdout
  }

  lemma {:induction false} BetweenClimbs(log: seq<Event>, low: nat, high: nat)
    requires low <= high <= |log|
    ensures AllStdout(ChunksBetween(log, low, high)) ==> Climbing(ChunksBetween(log, low, high), low, high)
    decreases high
  {
    if low < high {
      BetweenClimbs(log, low, high - 1);
      var front, all := ChunksBetween(log, low, high - 1), ChunksBetween(log, low, high);
      if AllStdout(all) {
        if log[high - 1].Wrote? {
          assert all[..|all| - 1] == front;
          assert AllStdout(front) by {
            assert forall i :: 0 <= i < |front| ==> front[i] == all[i];
          }
          assert all[|front|].stream == Stdout;
        } else {
          ClimbingWidens(front, low, high - 1, high);
        }
      }
    }
  }

  lemma {:induction false} ClimbingIsStdout(chunks: seq<Chunk>, low: nat, high: nat)
    requires Climbing(chunks, low, high)
    ensures AllStdout(chunks)
  {
    if chunks != [] {
      ClimbingIsStdout(chunks[..|chunks| - 1], low, chunks[|chunks| - 1].number - 1);
    }
  }

  /** Counting alone: as many climbing genuine chunks as exist can only be all of them. */
  lemma {:induction false} NoneMissing(log: seq<Event>, low: nat, high: nat, chunks: seq<Chunk>)
    requires low <= high <= |log|
    requires Climbing(chunks, low, high)
    requires forall i :: 0 <= i < |chunks| ==> Genuine(log, chunks[i])
    ensures |chunks| <= |ChunksBetween(log, low, high)|
    ensures |chunks| == |ChunksBetween(log, low, high)| ==> chunks == ChunksBetween(log, low, high)
    decreases high
  {
    if low < high {
      if chunks != [] && chunks[|chunks| - 1].number == high {
        var front := chunks[..|chunks| - 1];
        NoneMissing(log, low, high - 1, front);
        assert Genuine(log, chunks[|chunks| - 1]);
        assert chunks == front + [chunks[|chunks| - 1]];
      } else {
        NoneMissing(log, low, high - 1, chunks);
      }
    }
  }

  /**
   * On truthful snapshots a response is accepted exactly when it omits no chunk after the cursor (and is
   * in order, all standard output, and within the bound), and an accepted one leaves the reader up to date.
   */
  lemma AcceptedExactlyWhenNothingIsMissing(s: Reading, log: seq<Event>, r: ReadResponse)
    requires NativeLog(log) && UpToDate(s, log) && Snapshot(log, r)
    ensures Accepts(s, r) <==>
      && s.cursor <= r.nextSeq - 1
      && (r.closed ==> r.exited)
      && r.chunks == ChunksBetween(log, s.cursor, r.nextSeq - 1)
      && AllStdout(r.chunks)
      && |s.bytes| + |Payload(r.chunks)| <= MAX_OUTPUT
    ensures Accepts(s, r) ==> UpToDate(After(s, r), log)
  {
    var low, high := s.cursor, r.nextSeq - 1;
    if low <= high {
      CountsClimb(log, low, high);
      Tally(log, low, high);
      BetweenClimbs(log, low, high);
      if Accepts(s, r) {
        NoneMissing(log, low, high, r.chunks);
        ClimbingIsStdout(r.chunks, low, high);
      }
    }
  }

  // ----- whole reads -----

  /** One answer of the native read call. */
  datatype Reply = Lost | Got(response: ReadResponse)

  predicate Usable(reply: Reply) {
    reply.Got? && !reply.response.failed
  }

  /** Feeds the replies one after another; none when one is lost, failed or refused. */
  function ReadAll(s: Reading, replies: seq<Reply>): Option<Reading> {
    if replies == [] then Some(s)
    else
      var before, last := ReadAll(s, replies[..|replies| - 1]), replies[|replies| - 1];
      if before.Some? && Usable(last) && Accepts(before.value, last.response)
      then Some(After(before.value, last.response)) else None
  }

  lemma ReadOneMore(s: Reading, replies: seq<Reply>, i: nat)
    requires i < |replies|
    ensures
      var before, last := ReadAll(s, replies[..i]), replies[i];
      ReadAll(s, replies[..i + 1]) ==
        if before.Some? && Usable(last) && Accepts(before.value, last.response)
        then Some(After(before.value, last.response)) else None
  {
    assert replies[..i + 1][..i] == replies[..i];
  }

  /** A broken read stays broken. */
  lemma {:induction false} ReadsPrefix(s: Reading, replies: seq<Reply>, k: nat)
    requires k <= |replies| && ReadAll(s, replies).Some?
    ensures ReadAll(s, replies[..k]).Some?
  {
    if k < |replies| {
      assert replies[..|replies| - 1][..k] == replies[..k];
      ReadsPrefix(s, replies[..|replies| - 1], k);
    } else {
      assert replies[..k] == replies;
    }
  }

  lemma {:induction false} ClosedHoldsEverything(log: seq<Event>, n: nat)
    requires NativeLog(log) && n <= |log| && Closes(log[..n]) > 0
    ensures Written(log[..n]) == Written(log)
    decreases |log| - n
  {
    if n == |log| {
      assert log[..n] == log;
    } else {
      var at := LastClose(log[..n]);
      assert log[at].Closed?;
      PrefixStep(log, n);
      ClosedHoldsEverything(log, n + 1);
    }
  }

  function LastClose(log: seq<Event>): (at: nat)
    requires Closes(log) > 0
    ensures at < |log| && log[at].Closed?
  {
    if log[|log| - 1].Closed? then |log| - 1 else LastClose(log[..|log| - 1])
  }

  predicate Truthful(log: seq<Event>, replies: seq<Reply>) {
    NativeLog(log) && forall i :: 0 <= i < |replies| && replies[i].Got? ==> Snapshot(log, replies[i].response)
  }

  /** Every accepted run keeps the reader up to date and bounded; once exited and closed it has it all. */
  lemma {:induction false} AcceptedReadIsComplete(s: Reading, log: seq<Event>, replies: seq<Reply>)
    requires Truthful(log, replies) && UpToDate(s, log) && |s.bytes| <= MAX_OUTPUT
    requires ReadAll(s, replies).Some?
    ensures
      var t := ReadAll(s, replies).value;
      && UpToDate(t, log)
      && |t.bytes| <= MAX_OUTPUT
      && (t.closed && t.exited ==> t.bytes == Written(log))
  {
    if replies != [] {
      var front, last := replies[..|replies| - 1], replies[|replies| - 1];
      AcceptedReadIsComplete(s, log, front);
      AcceptedExactlyWhenNothingIsMissing(ReadAll(s, front).value, log, last.response);
    }
    var t := ReadAll(s, replies).value;
    if t.closed {
      ClosedHoldsEverything(log, t.cursor);
    }
  }

  /** Where the reader stands after the first k replies. */
  function Cursor(replies: seq<Reply>, k: nat): int
    requires k <= |replies|
  {
    if k == 0 || replies[k - 1].Lost? then 0 else replies[k - 1].response.nextSeq - 1
  }

  /** The k-th reply arrives and omits nothing of what was written since the one before it. */
  predicate OmitsNothing(log: seq<Event>, replies: seq<Reply>, k: nat)
    requires k < |replies|
  {
    var low, high := Cursor(replies, k), Cursor(replies, k + 1);
    && Usable(replies[k]) && 0 <= low <= high <= |log|
    && (replies[k].response.closed ==> replies[k].response.exited)
    && replies[k].response.chunks == ChunksBetween(log, low, high) && AllStdout(replies[k].response.chunks)
    && |Written(log[..high])| <= MAX_OUTPUT
  }

  predicate Unbroken(log: seq<Event>, replies: seq<Reply>) {
    forall k :: 0 <= k < |replies| ==> OmitsNothing(log, replies, k)
  }

  lemma UnbrokenSplits(log: seq<Event>, replies: seq<Reply>)
    requires replies != []
    ensures Unbroken(log, replies) <==>
      Unbroken(log, replies[..|replies| - 1]) && OmitsNothing(log, replies, |replies| - 1)
  {
    var front := replies[..|replies| - 1];
    assert forall k :: 0 <= k < |front| ==> (OmitsNothing(log, front, k) <==> OmitsNothing(log, replies, k));
  }

  lemma AcceptsExactlyWhenNothingIsOmitted(log: seq<Event>, replies: seq<Reply>, t: Reading)
    requires replies != [] && Truthful(log, replies) && Usable(replies[|replies| - 1])
    requires UpToDate(t, log) && t.cursor == Cursor(replies, |replies| - 1)
    ensures
      var r := replies[|replies| - 1].response;
      && (Accepts(t, r) <==> OmitsNothing(log, replies, |replies| - 1))
      && (Accepts(t, r) ==> UpToDate(After(t, r), log) && After(t, r).cursor == Cursor(replies, |replies|))
  {
    var r := replies[|replies| - 1].response;
    assert Snapshot(log, r);
    AcceptedExactlyWhenNothingIsMissing(t, log, r);
    if t.cursor <= r.nextSeq - 1 {
      SizeIsWritten(log, t, r.nextSeq - 1);
    }
  }

  lemma SizeIsWritten(log: seq<Event>, t: Reading, high: nat)
    requires UpToDate(t, log) && t.cursor <= high <= |log|
    ensures |t.bytes| + |Payload(ChunksBetween(log, t.cursor, high))| == |Written(log[..high])|
  {
    Tally(log, t.cursor, high);
  }

  /** Truthful replies are read through if and only if each arrives and omits nothing, within the bound. */
  lemma {:induction false} ReadExactlyWhenUnbroken(log: seq<Event>, replies: seq<Reply>)
    requires Truthful(log, replies)
    ensures ReadAll(UNREAD, replies).Some? <==> Unbroken(log, replies)
    ensures ReadAll(UNREAD, replies).Some? ==>
      var t := ReadAll(UNREAD, replies).value;
      UpToDate(t, log) && t.cursor == Cursor(replies, |replies|)
  {
    if replies == [] {
      assert log[..0] == [];
    } else {
      var front := replies[..|replies| - 1];
      ReadExactlyWhenUnbroken(log, front);
      UnbrokenSplits(log, replies);
      assert Cursor(front, |front|) == Cursor(replies, |front|);
      if ReadAll(UNREAD, front).Some? && Usable(replies[|replies| - 1]) {
        AcceptsExactlyWhenNothingIsOmitted(log, replies, ReadAll(UNREAD, front).value);
      }
    }
  }

  /** The process is seen to have exited and closed. */
  predicate Final(reply: Reply) {
    reply.Got? && reply.response.exited && reply.response.closed
  }

  /** The first reply that is final, with everything up to it read. */
  predicate EndsAt(replies: seq<Reply>, i: nat) {
    && i < |replies| && Final(replies[i]) && ReadAll(UNREAD, replies[..i + 1]).Some?
    && forall j :: 0 <= j < i ==> !Final(replies[j])
  }

  /** The first reply that does not continue the read, with no final one before it. */
  predicate BreaksAt(replies: seq<Reply>, i: nat) {
    && i < |replies| && ReadAll(UNREAD, replies[..i]).Some? && ReadAll(UNREAD, replies[..i + 1]).None?
    && forall j :: 0 <= j < i ==> !Final(replies[j])
  }

  /** Everything was read and the process goes on. */
  predicate GoesOn(replies: seq<Reply>) {
    ReadAll(UNREAD, replies).Some? && forall j :: 0 <= j < |replies| ==> !Final(replies[j])
  }

  /** What was read up to this reply. */
  function Collected(replies: seq<Reply>, i: nat): seq<byte> {
    var read := if i < |replies| then ReadAll(UNREAD, replies[..i + 1]) else None;
    if read.Some? then read.value.bytes else []
  }

  predicate EndedWell(r: ReadResponse) {
    r.exitCode == Some(0) && !r.sandboxDenied
  }

  /** How a read loop comes to its end: at which reply, or not yet. */
  datatype Fate = Ended(at: nat) | Broke(at: nat) | Open

  function FateOf(replies: seq<Reply>): (fate: Fate)
    ensures fate.Ended? ==> fate.at < |replies| && Final(replies[fate.at])
    ensures fate.Broke? ==> fate.at < |replies|
  {
    if replies == [] then Open
    else
      var last := |replies| - 1;
      var before := FateOf(replies[..last]);
      if !before.Open? then before
      else if ReadAll(UNREAD, replies).None? then Broke(last)
      else if Final(replies[last]) then Ended(last)
      else Open
  }

  lemma {:induction false} FateStays(replies: seq<Reply>, k: nat)
    requires k <= |replies| && !FateOf(replies[..k]).Open?
    ensures FateOf(replies) == FateOf(replies[..k])
  {
    if k < |replies| {
      assert replies[..|replies| - 1][..k] == replies[..k];
      FateStays(replies[..|replies| - 1], k);
    } else {
      assert replies[..k] == replies;
    }
  }

  lemma FateOneMore(replies: seq<Reply>, i: nat)
    requires i < |replies| && FateOf(replies[..i]).Open?
    ensures FateOf(replies[..i + 1]) ==
      if ReadAll(UNREAD, replies[..i + 1]).None? then Broke(i) else if Final(replies[i]) then Ended(i) else Open
    ensures !FateOf(replies[..i + 1]).Open? ==> FateOf(replies) == FateOf(replies[..i + 1])
  {
    assert replies[..i + 1][..i] == replies[..i];
    if !FateOf(replies[..i + 1]).Open? {
      FateStays(replies, i + 1);
    }
  }

  /** The loop ends, breaks or goes on as the replies themselves say. */
  lemma {:induction false} FateMeans(replies: seq<Reply>)
    ensures FateOf(replies).Ended? ==> EndsAt(replies, FateOf(replies).at)
    ensures FateOf(replies).Broke? ==> BreaksAt(replies, FateOf(replies).at)
    ensures FateOf(replies).Open? ==> GoesOn(replies)
  {
    if replies != [] {
      var front := replies[..|replies| - 1];
      FateMeans(front);
      var fate := FateOf(front);
      assert forall j :: 0 <= j < |front| ==> front[j] == replies[j];
      if !fate.Open? {
        assert front[..fate.at] == replies[..fate.at] && front[..fate.at + 1] == replies[..fate.at + 1];
      } else {
        assert replies[..|replies|] == replies;
      }
    }
  }

  lemma {:induction false} GoingOnIsOpen(replies: seq<Reply>)
    requires GoesOn(replies)
    ensures FateOf(replies).Open?
  {
    if replies != [] {
      ReadsPrefix(UNREAD, replies, |replies| - 1);
      GoingOnIsOpen(replies[..|replies| - 1]);
    }
  }

  /** A read that ends at a reply has that fate. */
  lemma EndingIsFate(replies: seq<Reply>, i: nat)
    requires EndsAt(replies, i)
    ensures FateOf(replies) == Ended(i)
  {
    ReadsPrefix(UNREAD, replies[..i + 1], i);
    assert replies[..i + 1][..i] == replies[..i];
    GoingOnIsOpen(replies[..i]);
    FateOneMore(replies, i);
  }

  /** On truthful replies a read ends at the first final one exactly when all up to it arrive and omit nothing. */
  lemma EndsExactlyWhenUnbroken(log: seq<Event>, replies: seq<Reply>, i: nat)
    requires Truthful(log, replies) && i < |replies| && Final(replies[i])
    requires forall j :: 0 <= j < i ==> !Final(replies[j])
    ensures FateOf(replies) == Ended(i) <==> Unbroken(log, replies[..i + 1])
    ensures FateOf(replies) == Ended(i) ==> Collected(replies, i) == Written(log)
  {
    assert ReadAll(UNREAD, replies[..i + 1]).Some? <==> Unbroken(log, replies[..i + 1]) by {
      ReadExactlyWhenUnbroken(log, replies[..i + 1]);
    }
    if EndsAt(replies, i) {
      EndingIsFate(replies, i);
      EndedReadIsComplete(log, replies, i);
    } else if FateOf(replies) == Ended(i) {
      FateMeans(replies);
    }
  }

  lemma EndedReadIsComplete(log: seq<Event>, replies: seq<Reply>, i: nat)
    requires Truthful(log, replies) && EndsAt(replies, i)
    ensures Collected(replies, i) == Written(log)
  {
    assert log[..0] == [];
    ReadOneMore(UNREAD, replies, i);
    AcceptedReadIsComplete(UNREAD, log, replies[..i + 1]);
  }

  // ----- the directory listing's read loop and its drain -----

  /** Pending: the replies ran out first, so the caller's deadline decides. */
  datatype Outcome = Unsettled | Rejected | Decoded(bytes: seq<byte>) | Pending

  /** The first final reply, with none lost or failed up to it. */
  predicate StopsAt(replies: seq<Reply>, i: nat) {
    && i < |replies| && Final(replies[i]) && (forall j :: 0 <= j <= i ==> Usable(replies[j]))
    && forall j :: 0 <= j < i ==> !Final(replies[j])
  }

  /** No reply is lost or failed and none is final. */
  predicate StillRuns(replies: seq<Reply>) {
    forall j :: 0 <= j < |replies| ==> Usable(replies[j]) && !Final(replies[j])
  }

  /** What is known of a process that was told to stop: it ended, it still runs, or nothing. */
  function AfterStop(terminated: bool, replies: seq<Reply>): Outcome {
    if !terminated then Unsettled
    else if exists i :: 0 <= i < |replies| && StopsAt(replies, i) then Rejected
    else if StillRuns(replies) then Pending
    else Unsettled
  }

  /** A reply that does not arrive leaves everything open; one that omits something stops a process still running. */
  function AfterBreak(terminated: bool, replies: seq<Reply>, i: nat): Outcome {
    if i >= |replies| || !Usable(replies[i]) then Unsettled
    else if Final(replies[i]) then Rejected
    else AfterStop(terminated, replies[i + 1..])
  }

  method StopAndReject(terminated: bool, replies: seq<Reply>) returns (outcome: Outcome)
    ensures outcome == AfterStop(terminated, replies)
  {
    if !terminated {
      return Unsettled;
    }
    for i := 0 to |replies|
      invariant forall j :: 0 <= j < i ==> Usable(replies[j]) && !Final(replies[j])
    {
      if replies[i].Lost? || replies[i].response.failed {
        return Unsettled;
      }
      if replies[i].response.exited && replies[i].response.closed {
        assert StopsAt(replies, i);
        return Rejected;
      }
    }
    return Pending;
  }

  /**
   * A listing is decoded exactly from the complete output of a process that exited with code 0 and was not denied,
   * and rejected exactly when the process is known to have ended some other way; anything less certain is unsettled.
   */
  method List(qualified: bool, terminated: bool, replies: seq<Reply>, ghost log: seq<Event>)
    returns (outcome: Outcome)
    ensures !qualified ==> outcome == AfterStop(terminated, replies)
    ensures qualified && FateOf(replies).Ended? ==>
      var i := FateOf(replies).at;
      outcome == if EndedWell(replies[i].response) then Decoded(Collected(replies, i)) else Rejected
    ensures qualified && FateOf(replies).Broke? ==> outcome == AfterBreak(terminated, replies, FateOf(replies).at)
    ensures qualified && FateOf(replies).Open? ==> outcome == Pending
    ensures outcome.Decoded? ==> |outcome.bytes| <= MAX_OUTPUT
    ensures outcome.Decoded? && Truthful(log, replies) ==> outcome.bytes == Written(log)
  {
    if !qualified {
      outcome := StopAndReject(terminated, replies);
      return;
    }
    var output := new Output();
    assert log[..0] == [] && replies[..0] == [];
    for i := 0 to |replies|
      invariant fresh(output) && |output.bytes| <= MAX_OUTPUT
      invariant ReadAll(UNREAD, replies[..i]) == Some(output.Value()) && FateOf(replies[..i]) == Open
    {
      ReadOneMore(UNREAD, replies, i);
      FateOneMore(replies, i);
      if replies[i].Lost? || replies[i].response.failed {
        return Unsettled;
      }
      var response := replies[i].response;
      var ok := output.Append(response);
      if !ok {
        if response.closed && response.exited {
          return Rejected;
        }
        outcome := StopAndReject(terminated, replies[i + 1..]);
        return;
      }
      if response.closed && response.exited {
        if response.exitCode != Some(0) || response.sandboxDenied {
          return Rejected;
        }
        if Truthful(log, replies) {
          AcceptedReadIsComplete(UNREAD, log, replies[..i + 1]);
        }
        return Decoded(output.bytes);
      }
    }
    assert replies[..|replies|] == replies;
    return Pending;
  }
}
