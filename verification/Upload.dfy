/** A file upload: the sender's chunks and digest, the helper's atomic replacement, and the receipt between them. */
module Upload {
  import opened Basics
  import opened Paths
  import opened ProcessOutput

  const MAX_BYTES: nat := 50 * 1024 * 1024
  const CHUNK_BYTES: nat := 64 * 1024
  const DIGEST_BYTES: nat := 32

  /** Thirty-two bytes for every input; nothing else is assumed of the digest. */
  ghost predicate IsDigest(hash: seq<byte> -> seq<byte>) {
    forall x: seq<byte> :: |hash(x)| == DIGEST_BYTES
  }

  // ----- the helper that replaces the file -----

  datatype ErrorKind = InvalidInput | Other

  /** Which of the helper's operations fail. */
  datatype Faults = Faults(
    open: Option<ErrorKind>, notRegular: bool, staging: bool, writeAt: Option<nat>, flush: bool, rename: bool,
    parentSync: bool, stagingSync: bool, unlink: bool)

  datatype Outcome = Installed | Failure(committed: bool, kind: ErrorKind)

  /**
   * The destination, the staging file while there is one and whether its contents are on disk, and every value the
   * destination ever had. Survivors are what a power loss could now leave of the destination, risked all it could
   * ever have left; it is torn once a file whose contents were not on disk got the destination's name.
   */
  class Directory {
    var destination: Option<seq<byte>>
    var staging: Option<seq<byte>>
    var flushed: bool
    ghost var history: seq<Option<seq<byte>>>
    ghost var survivors: set<Option<seq<byte>>>
    ghost var risked: set<Option<seq<byte>>>
    ghost var torn: bool

    constructor (destination: Option<seq<byte>>)
      ensures this.destination == destination && staging == None && history == [destination]
      ensures survivors == {destination} && risked == {destination} && !torn
    {
      this.destination, staging, flushed, history := destination, None, false, [destination];
      survivors, risked, torn := {destination}, {destination}, false;
    }

    method Flush()
      modifies this`flushed
      ensures flushed
    {
      flushed := true;
    }

    method Rename()
      requires staging.Some?
      modifies this
      ensures destination == old(staging) && staging == None && history == old(history) + [old(staging)]
      ensures survivors == old(survivors) + {old(staging)} && risked == old(risked) + survivors
      ensures torn == (old(torn) || !old(flushed))
    {
      destination, history, torn := staging, history + [staging], torn || !flushed;
      survivors := survivors + {staging};
      risked := risked + survivors;
      staging := None;
    }

    /** Syncing the directory settles the destination's name. */
    method SyncDestination()
      modifies this`survivors
      ensures survivors == {destination}
    {
      survivors := {destination};
    }
  }

  function Prefix(input: seq<byte>, size: nat): seq<byte> {
    if size <= |input| then input[..size] else input
  }

  /** What the input must hold for its bytes to be installed. */
  predicate Verified(hash: seq<byte> -> seq<byte>, size: nat, input: seq<byte>) {
    |input| >= size + DIGEST_BYTES && hash(input[..size]) == input[size..size + DIGEST_BYTES]
  }

  /** The copy loop gives up at a failing write. */
  predicate WritesAll(faults: Faults, size: nat) {
    faults.writeAt.None? || faults.writeAt.value * CHUNK_BYTES >= size
  }

  /** Exactly when the staged file is renamed over the destination. */
  predicate Commits(hash: seq<byte> -> seq<byte>, relative: string, disjoint: bool, size: nat,
                    input: seq<byte>, faults: Faults) {
    && size <= MAX_BYTES && disjoint && ValidRelative(relative)
    && faults.open.None? && !faults.notRegular && !faults.staging
    && WritesAll(faults, size) && Verified(hash, size, input)
    && !faults.flush && !faults.rename
  }

  /** The destination after the helper ran. */
  function Destination(before: Option<seq<byte>>, hash: seq<byte> -> seq<byte>, relative: string, disjoint: bool,
                       size: nat, input: seq<byte>, faults: Faults): Option<seq<byte>> {
    if Commits(hash, relative, disjoint, size, input, faults) then Some(input[..size]) else before
  }

  /** What one installation reports. */
  ghost predicate Reports(outcome: Outcome, hash: seq<byte> -> seq<byte>, relative: string, disjoint: bool, size: nat,
                          input: seq<byte>, faults: Faults) {
    && (Commits(hash, relative, disjoint, size, input, faults) <==> outcome.Installed? || outcome.committed)
    && (outcome.Installed? <==>
         Commits(hash, relative, disjoint, size, input, faults) && !faults.parentSync && !faults.stagingSync)
  }

  /** Reads `size` bytes in buffers of at most 64 KiB, staging each; false when input or disk gives out. */
  method Stage(d: Directory, size: nat, input: seq<byte>, faults: Faults) returns (ok: bool)
    requires d.staging == Some([])
    modifies d`staging
    ensures d.staging.Some?
    ensures ok <==> |input| >= size && WritesAll(faults, size)
    ensures ok ==> d.staging == Some(input[..size])
  {
    var remaining, buffers := size, 0;
    while remaining != 0
      invariant remaining <= size && size - remaining <= |input|
      invariant d.staging == Some(input[..size - remaining])
      invariant remaining != 0 ==> size - remaining == buffers * CHUNK_BYTES
      invariant size <= buffers * CHUNK_BYTES <==> remaining == 0
      invariant faults.writeAt.Some? ==> faults.writeAt.value >= buffers
    {
      var count := if remaining < CHUNK_BYTES then remaining else CHUNK_BYTES;
      var at := size - remaining;
      if |input| - at < count {
        return false;
      }
      if faults.writeAt == Some(buffers) {
        return false;
      }
      assert input[..at] + input[at..at + count] == input[..at + count];
      d.staging := Some(d.staging.value + input[at..at + count]);
      remaining, buffers := remaining - count, buffers + 1;
    }
    return true;
  }

  /**
   * Installs the verified bytes or leaves the destination as it was: no reader ever sees anything else, and the
   * outcome tells which, except that a failed sync after the rename is reported as committed. A power loss at any
   * moment leaves one of the two, whole, and after success only the new one.
   */
  method Install(d: Directory, hash: seq<byte> -> seq<byte>, relative: string, disjoint: bool, size: nat,
                 input: seq<byte>, faults: Faults) returns (outcome: Outcome)
    requires d.staging == None
    modifies d
    ensures Reports(outcome, hash, relative, disjoint, size, input, faults)
    ensures d.destination == Destination(old(d.destination), hash, relative, disjoint, size, input, faults)
    ensures d.history == if Commits(hash, relative, disjoint, size, input, faults)
      then old(d.history) + [Some(input[..size])] else old(d.history)
    ensures !faults.unlink ==> d.staging == None
    ensures d.torn == old(d.torn) && d.risked <= old(d.risked + d.survivors) + {Some(Prefix(input, size))}
    ensures outcome.Installed? ==> d.survivors == {d.destination}
    ensures outcome.Failure? && !outcome.committed ==> d.survivors == old(d.survivors) && d.risked == old(d.risked)
  {
    if size > MAX_BYTES || !disjoint || !ValidRelative(relative) {
      return Failure(false, InvalidInput);
    }
    if faults.open.Some? {
      return Failure(false, faults.open.value);
    }
    if faults.notRegular {
      return Failure(false, InvalidInput);
    }
    if faults.staging {
      return Failure(false, Other);
    }
    d.staging, d.flushed := Some([]), false;
    var staged := Stage(d, size, input, faults);
    // The trailer ends the frame: the helper never waits for the input to close.
    if !staged || |input| < size + DIGEST_BYTES || hash(d.staging.value) != input[size..size + DIGEST_BYTES]
        || faults.flush {
      if !faults.unlink {
        d.staging := None;
      }
      return Failure(false, Other);
    }
    d.Flush();
    if faults.rename {
      if !faults.unlink {
        d.staging := None;
      }
      return Failure(false, Other);
    }
    d.Rename();
    if faults.parentSync {
      return Failure(true, Other);
    }
    d.SyncDestination();
    if faults.stagingSync {
      return Failure(true, Other);
    }
    return Installed;
  }

  // ----- the sender -----

  /** The body in 64 KiB pieces. */
  function Pieces(body: seq<byte>): seq<seq<byte>>
    decreases |body|
  {
    if body == [] then []
    else if |body| <= CHUNK_BYTES then [body]
    else [body[..CHUNK_BYTES]] + Pieces(body[CHUNK_BYTES..])
  }

  lemma {:induction false} PiecesJoin(body: seq<byte>)
    ensures Concat(Pieces(body)) == body
    ensures forall p :: p in Pieces(body) ==> 0 < |p| <= CHUNK_BYTES
    decreases |body|
  {
    if body == [] {
    } else if |body| <= CHUNK_BYTES {
      assert [body][1..] == [];
    } else {
      PiecesJoin(body[CHUNK_BYTES..]);
      var rest := Pieces(body[CHUNK_BYTES..]);
      assert ([body[..CHUNK_BYTES]] + rest)[1..] == rest;
      assert body[..CHUNK_BYTES] + body[CHUNK_BYTES..] == body;
    }
  }

  /** Everything the sender writes: the pieces, then the digest. */
  function Frames(hash: seq<byte> -> seq<byte>, body: seq<byte>): seq<seq<byte>> {
    Pieces(body) + [hash(body)]
  }

  lemma FramesJoin(hash: seq<byte> -> seq<byte>, body: seq<byte>)
    ensures Concat(Frames(hash, body)) == body + hash(body)
  {
    PiecesJoin(body);
    ConcatSnoc(Pieces(body), hash(body));
  }

  /** The receipt as it parses: two known outcomes, or anything else. */
  datatype Receipt = Completed(version: nat, size: nat) | FailedWith(version: nat, error: string) | Unreadable

  datatype Sent = Committed(size: nat) | Rejected | Unsettled | Waiting

  function Decode(receipt: Receipt, expected: nat): Sent {
    match receipt
    case Completed(version, size) => if version == 1 && size == expected then Committed(size) else Sent.Unsettled
    case FailedWith(version, error) =>
      if version == 1 && error in {"invalid_input", "write_failed"} then Sent.Rejected else Sent.Unsettled
    case Unreadable => Sent.Unsettled
  }

  /** The receipt the helper prints; a committed failure has an outcome the sender does not know. */
  function Printed(outcome: Outcome, size: nat): Receipt {
    match outcome
    case Installed => Completed(1, size)
    case Failure(committed, kind) =>
      if committed then Unreadable else FailedWith(1, if kind.InvalidInput? then "invalid_input" else "write_failed")
  }

  /** Committed exactly for a version-1 completion of that many bytes, rejected exactly for the two known errors. */
  predicate Judges(sent: Sent, receipt: Receipt, size: nat) {
    && (sent == Committed(size) <==> receipt == Completed(1, size))
    && (sent.Rejected? <==> receipt == FailedWith(1, "invalid_input") || receipt == FailedWith(1, "write_failed"))
    && (sent == Committed(size) || sent.Rejected? || sent.Unsettled?)
  }

  predicate AllAccepted(accepted: seq<bool>, frames: nat) {
    frames <= |accepted| && forall i :: 0 <= i < frames ==> accepted[i]
  }

  /** The helper is seen to end with code 0 and undenied, with all its output read. */
  predicate Answered(replies: seq<Reply>) {
    FateOf(replies).Ended? && EndedWell(replies[FateOf(replies).at].response)
  }

  /**
   * Sends the frames in order without retrying, then waits for the helper's complete output. A settled exit with
   * code 0 is answered as its receipt says; anything else is unsettled.
   */
  method Transfer(hash: seq<byte> -> seq<byte>, body: seq<byte>, accepted: seq<bool>, replies: seq<Reply>,
                  parse: seq<byte> -> Receipt, ghost log: seq<Event>) returns (sent: Sent, written: seq<seq<byte>>)
    ensures written <= Frames(hash, body)
    ensures !AllAccepted(accepted, |Frames(hash, body)|) ==> sent == Sent.Unsettled
    ensures AllAccepted(accepted, |Frames(hash, body)|) ==>
      && Concat(written) == body + hash(body)
      && (FateOf(replies).Open? <==> sent == Waiting)
      && (Answered(replies) ==> Judges(sent, parse(Collected(replies, FateOf(replies).at)), |body|))
    ensures sent.Committed? || sent.Rejected? ==> AllAccepted(accepted, |Frames(hash, body)|) && Answered(replies)
    ensures (sent.Committed? || sent.Rejected?) && Truthful(log, replies) ==> Judges(sent, parse(Written(log)), |body|)
  {
    var frames := Frames(hash, body);
    FramesJoin(hash, body);
    written := [];
    for i := 0 to |frames|
      invariant written == frames[..i]
      invariant i <= |accepted| && forall j :: 0 <= j < i ==> accepted[j]
    {
      if i >= |accepted| || !accepted[i] {
        return Sent.Unsettled, written;
      }
      written := written + [frames[i]];
    }
    assert written == frames;
    sent := Await(|body|, replies, parse, log);
  }

  /** Reads the helper's output to its end and judges by its receipt. */
  method Await(size: nat, replies: seq<Reply>, parse: seq<byte> -> Receipt, ghost log: seq<Event>)
    returns (sent: Sent)
    ensures FateOf(replies).Open? <==> sent == Waiting
    ensures Answered(replies) ==> Judges(sent, parse(Collected(replies, FateOf(replies).at)), size)
    ensures sent.Committed? || sent.Rejected? ==> Answered(replies)
    ensures (sent.Committed? || sent.Rejected?) && Truthful(log, replies) ==> Judges(sent, parse(Written(log)), size)
  {
    var output := new Output();
    assert log[..0] == [] && replies[..0] == [];
    for i := 0 to |replies|
      invariant fresh(output) && |output.bytes| <= ProcessOutput.MAX_OUTPUT
      invariant ReadAll(UNREAD, replies[..i]) == Some(output.Value()) && FateOf(replies[..i]) == Open
    {
      ReadOneMore(UNREAD, replies, i);
      FateOneMore(replies, i);
      if replies[i].Lost? || replies[i].response.failed {
        return Sent.Unsettled;
      }
      var response := replies[i].response;
      var ok := output.Append(response);
      if !ok {
        return Sent.Unsettled;
      }
      if response.closed && response.exited {
        if response.exitCode != Some(0) || response.sandboxDenied {
          return Sent.Unsettled;
        }
        if Truthful(log, replies) {
          AcceptedReadIsComplete(UNREAD, log, replies[..i + 1]);
        }
        return Decode(parse(output.bytes), size);
      }
    }
    assert replies[..|replies|] == replies;
    return Waiting;
  }

  // ----- end to end -----

  /** Only the whole of what was sent can pass the digest check: whatever prefix arrived, committed means the body. */
  lemma CommittedIsTheBody(hash: seq<byte> -> seq<byte>, relative: string, disjoint: bool, body: seq<byte>,
                           input: seq<byte>, faults: Faults, before: Option<seq<byte>>)
    requires IsDigest(hash) && input <= body + hash(body)
    ensures Destination(before, hash, relative, disjoint, |body|, input, faults)
            == if Commits(hash, relative, disjoint, |body|, input, faults) then Some(body) else before
  {
    if Commits(hash, relative, disjoint, |body|, input, faults) {
      assert |input| == |body + hash(body)|;
      assert input[..|body|] == body;
    }
  }

  /** The round trip: a fault-free installation of what the sender wrote leaves the destination equal to the body. */
  lemma RoundTrip(hash: seq<byte> -> seq<byte>, relative: string, body: seq<byte>, before: Option<seq<byte>>)
    requires IsDigest(hash) && |body| <= MAX_BYTES && ValidRelative(relative)
    ensures
      var input := Concat(Frames(hash, body));
      var faults := Faults(None, false, false, None, false, false, false, false, false);
      && Commits(hash, relative, true, |body|, input, faults)
      && Destination(before, hash, relative, true, |body|, input, faults) == Some(body)
  {
    FramesJoin(hash, body);
    var input := body + hash(body);
    assert input[..|body|] == body && input[|body|..|body| + DIGEST_BYTES] == hash(body);
  }

  /**
   * What the sender may conclude, for any prefix that reached the helper and any faults: told "committed" the
   * destination is the body, told "rejected" it is untouched; a commit whose sync failed is never called rejected.
   */
  lemma ReceiptTellsTheTruth(hash: seq<byte> -> seq<byte>, relative: string, disjoint: bool, body: seq<byte>,
                             input: seq<byte>, faults: Faults, before: Option<seq<byte>>, outcome: Outcome)
    requires IsDigest(hash) && input <= body + hash(body)
    requires Reports(outcome, hash, relative, disjoint, |body|, input, faults)
    ensures
      var after := Destination(before, hash, relative, disjoint, |body|, input, faults);
      match Decode(Printed(outcome, |body|), |body|)
      case Committed(size) => after == Some(body) && size == |body|
      case Rejected => after == before
      case Unsettled => after == Some(body)
      case Waiting => false
  {
    CommittedIsTheBody(hash, relative, disjoint, body, input, faults, before);
  }

  /** The helper installed whatever prefix of the frames reached it, and its whole output is its receipt. */
  ghost predicate HelperRan(log: seq<Event>, parse: seq<byte> -> Receipt, hash: seq<byte> -> seq<byte>,
                            relative: string, disjoint: bool, body: seq<byte>, input: seq<byte>, faults: Faults,
                            outcome: Outcome) {
    && input <= body + hash(body)
    && Reports(outcome, hash, relative, disjoint, |body|, input, faults)
    && parse(Written(log)) == Printed(outcome, |body|)
  }

  /**
   * The sender and the helper together, over any replies that are truthful about the helper's output: what the
   * transfer returns determines the destination, and without an answer it is still the old file or the whole body.
   * When every frame is accepted and the helper is seen to end with all its output read, the sender learns the
   * outcome: committed exactly when installed, rejected exactly when nothing was.
   */
  method Deliver(hash: seq<byte> -> seq<byte>, body: seq<byte>, accepted: seq<bool>, replies: seq<Reply>,
                 parse: seq<byte> -> Receipt, ghost log: seq<Event>, ghost relative: string, ghost disjoint: bool,
                 ghost input: seq<byte>, ghost faults: Faults, ghost outcome: Outcome,
                 ghost before: Option<seq<byte>>) returns (sent: Sent)
    requires IsDigest(hash) && Truthful(log, replies)
    requires HelperRan(log, parse, hash, relative, disjoint, body, input, faults, outcome)
    ensures
      var after := Destination(before, hash, relative, disjoint, |body|, input, faults);
      match sent
      case Committed(size) => after == Some(body) && size == |body| && Answered(replies)
      case Rejected => after == before && Answered(replies)
      case Unsettled => after == Some(body) || after == before
      case Waiting => after == Some(body) || after == before
    ensures AllAccepted(accepted, |Frames(hash, body)|) && Answered(replies) ==>
      && (sent == Committed(|body|) <==> outcome.Installed?)
      && (sent == Sent.Rejected <==> outcome.Failure? && !outcome.committed)
  {
    var written;
    sent, written := Transfer(hash, body, accepted, replies, parse, log);
    CommittedIsTheBody(hash, relative, disjoint, body, input, faults, before);
    ReceiptTellsTheTruth(hash, relative, disjoint, body, input, faults, before, outcome);
    if Answered(replies) {
      AnsweredInFull(replies, log);
    }
  }

  lemma AnsweredInFull(replies: seq<Reply>, log: seq<Event>)
    requires Truthful(log, replies) && Answered(replies)
    ensures Collected(replies, FateOf(replies).at) == Written(log)
  {
    FateMeans(replies);
    EndsExactlyWhenUnbroken(log, replies, FateOf(replies).at);
  }
}
