/** The gateway's side of a file write: a begin, chunks and a commit, each step confirmed by its own receipt. */
module WorkspaceWrite {
  import opened Basics
  import opened PayloadJson
  import opened Paths

  const MAX_BYTES: nat := 50 * 1024 * 1024
  const CHUNK_BYTES: nat := 64 * 1024
  const MAX_FRAME_BYTES: nat := 96 * 1024

  datatype Kind = Begin | Chunk | Commit | OtherStep

  datatype Payload = Payload(
    step: Kind, environment: string, session: string, path: string, size: int, sha256: string, offset: int,
    data: seq<byte>)

  datatype Word = Ready | Received | Completed | Rejected | Unknown | OtherOutcome

  datatype Receipt = Receipt(outcome: Word, offset: int, size: int, error: string)

  predicate HexDigest(text: string) {
    |text| == 64 && forall i :: 0 <= i < 64 ==> LowerHex(text[i])
  }

  predicate ValidRequest(p: Payload) {
    match p.step
    case Begin =>
      && CanonicalUuid(p.environment) && CanonicalUuid(p.session) && HexDigest(p.sha256)
      && 0 <= p.size <= MAX_BYTES && p.offset == 0 && p.data == [] && ValidRelative(p.path)
    case Chunk => Bare(p) && 0 <= p.offset <= MAX_BYTES && 0 < |p.data| <= CHUNK_BYTES
    case Commit => Bare(p) && p.offset == 0 && p.data == []
    case OtherStep => false
  }

  predicate Bare(p: Payload) {
    p.environment == "" && p.session == "" && p.path == "" && p.size == 0 && p.sha256 == ""
  }

  predicate ValidReceipt(r: Receipt, expected: Word, offset: int, size: int) {
    match r.outcome
    case Rejected =>
      r.offset == 0 && r.size == 0 &&
      r.error in {"invalid_request", "resource_unavailable", "write_capacity", "write_unsupported", "write_rejected"}
    case Unknown => r.offset == 0 && r.size == 0 && r.error == "write_unconfirmed"
    case _ =>
      && r.outcome == expected && r.offset == offset && r.error == ""
      && r.size == (if expected.Completed? then size else 0)
  }

  // ----- the steps of a write -----

  /** One step: what is sent, and the outcome and offset its receipt must carry. */
  datatype Step = Step(payload: Payload, expected: Word, offset: int)

  function ChunkStep(data: seq<byte>, offset: nat): Step
    requires offset < |data|
  {
    var end := if offset + CHUNK_BYTES < |data| then offset + CHUNK_BYTES else |data|;
    Step(Payload(Chunk, "", "", "", 0, "", offset, data[offset..end]), Received, end)
  }

  /** The chunk steps from an offset on. */
  function ChunkSteps(data: seq<byte>, offset: nat): seq<Step>
    requires offset <= |data|
    decreases |data| - offset
  {
    if offset == |data| then [] else [ChunkStep(data, offset)] + ChunkSteps(data, ChunkStep(data, offset).offset)
  }

  const COMMIT_STEP := Step(Payload(Commit, "", "", "", 0, "", 0, []), Completed, 0)

  function Steps(begin: Payload, data: seq<byte>): seq<Step> {
    [Step(begin, Ready, 0)] + ChunkSteps(data, 0) + [COMMIT_STEP]
  }

  function Bodies(steps: seq<Step>): seq<byte> {
    if steps == [] then [] else steps[0].payload.data + Bodies(steps[1..])
  }

  lemma {:induction false} ChunksJoin(data: seq<byte>, offset: nat)
    requires offset <= |data|
    ensures Bodies(ChunkSteps(data, offset)) == data[offset..]
    decreases |data| - offset
  {
    if offset < |data| {
      var first := ChunkStep(data, offset);
      ChunksJoin(data, first.offset);
      BodiesCons(first, ChunkSteps(data, first.offset));
      Halves(data, offset, first.offset);
    }
  }

  lemma BodiesCons(first: Step, rest: seq<Step>)
    ensures Bodies([first] + rest) == first.payload.data + Bodies(rest)
  {
    assert ([first] + rest)[1..] == rest;
  }

  lemma Halves(data: seq<byte>, low: nat, middle: nat)
    requires low <= middle <= |data|
    ensures data[low..middle] + data[middle..] == data[low..]
  {
  }

  /** A chunk between two offsets, acknowledged by its own end. */
  predicate ChunkOk(step: Step, low: nat, high: nat) {
    && ValidRequest(step.payload) && step.payload.step.Chunk? && step.expected.Received?
    && low <= step.payload.offset && step.offset == step.payload.offset + |step.payload.data| <= high
  }

  lemma {:induction false} ChunksAreValid(data: seq<byte>, offset: nat)
    requires offset <= |data| <= MAX_BYTES
    ensures forall i :: 0 <= i < |ChunkSteps(data, offset)| ==> ChunkOk(ChunkSteps(data, offset)[i], offset, |data|)
    decreases |data| - offset
  {
    if offset < |data| {
      var first := ChunkStep(data, offset);
      ChunksAreValid(data, first.offset);
      var rest := ChunkSteps(data, first.offset);
      forall i | 0 <= i < |ChunkSteps(data, offset)| ensures ChunkOk(ChunkSteps(data, offset)[i], offset, |data|) {
        assert i > 0 ==> ChunkSteps(data, offset)[i] == rest[i - 1] && ChunkOk(rest[i - 1], first.offset, |data|);
      }
    }
  }

  /** Each chunk starts at or after the end of those before it. */
  lemma {:induction false} ChunksInOrder(data: seq<byte>, offset: nat, i: nat, j: nat)
    requires offset <= |data| <= MAX_BYTES && i < j < |ChunkSteps(data, offset)|
    ensures ChunkSteps(data, offset)[i].offset <= ChunkSteps(data, offset)[j].payload.offset
    ensures ChunkSteps(data, offset)[i].offset < ChunkSteps(data, offset)[j].offset
    decreases |data| - offset
  {
    var first := ChunkStep(data, offset);
    var rest := ChunkSteps(data, first.offset);
    assert ChunkSteps(data, offset) == [first] + rest;
    ChunksAreValid(data, first.offset);
    assert ChunkOk(rest[j - 1], first.offset, |data|);
    if i > 0 {
      ChunksInOrder(data, first.offset, i - 1, j - 1);
    }
  }

  predicate Positive(r: Receipt) {
    !r.outcome.Rejected? && !r.outcome.Unknown?
  }

  predicate Confirms(r: Receipt, step: Step, size: int) {
    Positive(r) && ValidReceipt(r, step.expected, step.offset, size)
  }

  /** A receipt that confirms one step confirms no other: duplicates and strays are always found out. */
  lemma ReceiptsAreNotInterchangeable(begin: Payload, data: seq<byte>, i: nat, j: nat, r: Receipt)
    requires |data| <= MAX_BYTES && i < |Steps(begin, data)| && j < |Steps(begin, data)|
    requires Confirms(r, Steps(begin, data)[i], |data|) && Confirms(r, Steps(begin, data)[j], |data|)
    ensures i == j
  {
    var chunks := ChunkSteps(data, 0);
    StepAt(begin, data, i);
    StepAt(begin, data, j);
    ChunksAreValid(data, 0);
    if 1 <= i < j <= |chunks| {
      ChunksInOrder(data, 0, i - 1, j - 1);
    } else if 1 <= j < i <= |chunks| {
      ChunksInOrder(data, 0, j - 1, i - 1);
    }
  }

  lemma StepAt(begin: Payload, data: seq<byte>, k: nat)
    requires k < |Steps(begin, data)|
    ensures |Steps(begin, data)| == |ChunkSteps(data, 0)| + 2
    ensures Steps(begin, data)[k] ==
      if k == 0 then Step(begin, Ready, 0)
      else if k <= |ChunkSteps(data, 0)| then ChunkSteps(data, 0)[k - 1]
      else COMMIT_STEP
  {
  }

  lemma StepsAreValid(begin: Payload, data: seq<byte>)
    requires begin.step == Begin && ValidRequest(begin) && |data| <= MAX_BYTES
    ensures forall i :: 0 <= i < |Steps(begin, data)| ==> ValidRequest(Steps(begin, data)[i].payload)
    ensures Bodies(ChunkSteps(data, 0)) == data
  {
    ChunksAreValid(data, 0);
    ChunksJoin(data, 0);
    forall i | 0 <= i < |Steps(begin, data)| ensures ValidRequest(Steps(begin, data)[i].payload) {
      StepAt(begin, data, i);
      assert 1 <= i <= |ChunkSteps(data, 0)| ==> ChunkOk(ChunkSteps(data, 0)[i - 1], 0, |data|);
    }
  }

  // ----- the wire -----

  function StepName(step: Kind): string {
    match step
    case Begin => "begin"
    case Chunk => "chunk"
    case Commit => "commit"
    case OtherStep => ""
  }

  function HeadText(p: Payload): string {
    "{\"step\":" + Quoted(StepName(p.step))
  }

  function IdFields(p: Payload): string {
    TextField("environment_id", p.environment) + TextField("session_id", p.session)
  }

  function FileFields(p: Payload): string
    requires p.size >= 0
  {
    TextField("path", p.path) + NumberField("size_bytes", p.size) + TextField("sha256", p.sha256)
  }

  function BodyFields(p: Payload): string
    requires p.offset >= 0
  {
    NumberField("offset", p.offset) + DataField("data", p.data) + "}"
  }

  /** The payload on the wire; empty fields are left out. */
  function Encode(p: Payload): string
    requires p.size >= 0 && p.offset >= 0
  {
    HeadText(p) + IdFields(p) + FileFields(p) + BodyFields(p)
  }

  lemma HeadLength(p: Payload)
    ensures Utf8Length(HeadText(p)) <= 64
  {
    TextAfter("{\"step\":", StepName(p.step));
  }

  lemma IdsLength(p: Payload)
    requires ValidRequest(p)
    ensures Utf8Length(IdFields(p)) <= 600
  {
    TwoTexts("environment_id", p.environment, "session_id", p.session);
    AsciiLength(p.environment);
    AsciiLength(p.session);
  }

  lemma FileLength(p: Payload)
    requires ValidRequest(p)
    ensures Utf8Length(FileFields(p)) <= if p.step.Begin? then 26000 else 0
  {
    TextNumberText("path", p.path, "size_bytes", p.size, "sha256", p.sha256);
    AsciiLength(p.sha256);
  }

  lemma BodyLength(p: Payload)
    requires ValidRequest(p)
    ensures Utf8Length(BodyFields(p)) <= 64 + (|p.data| + 2) / 3 * 4
  {
    var offset, data := NumberField("offset", p.offset), DataField("data", p.data);
    LengthJoins(offset, data);
    LengthJoins(offset + data, "}");
    NumberFieldLength("offset", p.offset);
    DataFieldLength("data", p.data);
    AsciiLength("}");
  }

  lemma FourLengths(a: string, b: string, c: string, d: string)
    ensures Utf8Length(a + b + c + d) == Utf8Length(a) + Utf8Length(b) + Utf8Length(c) + Utf8Length(d)
  {
    LengthJoins(a, b);
    LengthJoins(a + b, c);
    LengthJoins(a + b + c, d);
  }

  /** Every valid request, written out, fits one frame, so the frame-size guard never refuses one. */
  lemma FramesFit(p: Payload)
    requires ValidRequest(p)
    ensures Utf8Length(Encode(p)) <= MAX_FRAME_BYTES
  {
    HeadLength(p);
    IdsLength(p);
    FileLength(p);
    BodyLength(p);
    FourLengths(HeadText(p), IdFields(p), FileFields(p), BodyFields(p));
  }

  // ----- the exchange -----

  /** How one exchange with the daemon went. */
  datatype Exchange = SendFailed | NoReply | Undecodable | Replied(receipt: Receipt)

  datatype Outcome = Error | Answer(receipt: Receipt)

  class Session {
    var closed: bool
    var writes: set<string>

    constructor ()
      ensures !closed && writes == {}
    {
      closed, writes := false, {};
    }

    /** Sends one step and checks its receipt. */
    method Perform(step: Step, size: nat, exchanges: seq<Exchange>, sent: seq<Payload>)
      returns (outcome: Outcome, sent': seq<Payload>)
      requires ValidRequest(step.payload)
      ensures sent' == sent || sent' == sent + [step.payload]
      ensures outcome.Answer? ==>
        && sent' == sent + [step.payload]
        && |sent| < |exchanges| && exchanges[|sent|] == Replied(outcome.receipt)
        && ValidReceipt(outcome.receipt, step.expected, step.offset, size)
      ensures outcome.Error? ==>
        !(|sent| < |exchanges| && exchanges[|sent|].Replied?
          && ValidReceipt(exchanges[|sent|].receipt, step.expected, step.offset, size))
    {
      FramesFit(step.payload);
      if |sent| >= |exchanges| || exchanges[|sent|].SendFailed? {
        return Error, sent;
      }
      sent' := sent + [step.payload];
      var exchange := exchanges[|sent|];
      if !exchange.Replied? || !ValidReceipt(exchange.receipt, step.expected, step.offset, size) {
        return Error, sent';
      }
      return Answer(exchange.receipt), sent';
    }

    /**
     * Sends a prefix of the steps, all valid; answers "completed" only after every step was sent and confirmed
     * by its own receipt, and otherwise with an error or the daemon's own refusal.
     */
    method Write(id: string, request: Payload, data: seq<byte>, sha256: string, exchanges: seq<Exchange>)
      returns (outcome: Outcome, sent: seq<Payload>)
      requires HexDigest(sha256)
      modifies this
      ensures closed == old(closed) && writes == old(writes)
      ensures
        var steps := Steps(request.(step := Begin, size := |data|, sha256 := sha256), data);
        && Follows(sent, steps)
        && (forall i :: 0 <= i < |sent| ==> ValidRequest(sent[i]))
        && (outcome.Answer? && outcome.receipt.outcome.Completed? ==>
              |sent| == |steps| && outcome.receipt.size == |data|)
        && (outcome.Answer? && outcome.receipt.outcome.Completed? <==>
              && CanonicalUuid(id) && |data| <= MAX_BYTES && ValidRequest(steps[0].payload)
              && !closed && old(writes) == {} && Confirmed(exchanges, steps, |data|))
        && (outcome.Answer? && !outcome.receipt.outcome.Completed? ==> !Positive(outcome.receipt))
      ensures sent != [] ==> CanonicalUuid(id) && !closed && old(writes) == {} && |data| <= MAX_BYTES
    {
      sent := [];
      if !CanonicalUuid(id) || |data| > MAX_BYTES {
        return Error, [];
      }
      var begin := request.(step := Begin, size := |data|, sha256 := sha256);
      if !ValidRequest(begin) || closed || writes != {} {
        return Error, [];
      }
      writes := {id};
      StepsAreValid(begin, data);
      outcome, sent := Transfer(begin, data, exchanges);
      writes := {};
    }

    method Transfer(begin: Payload, data: seq<byte>, exchanges: seq<Exchange>)
      returns (outcome: Outcome, sent: seq<Payload>)
      requires begin.step == Begin && ValidRequest(begin) && |data| <= MAX_BYTES
      ensures Follows(sent, Steps(begin, data))
      ensures outcome.Answer? && Positive(outcome.receipt) ==>
        |sent| == |Steps(begin, data)| && outcome.receipt.outcome.Completed? && outcome.receipt.size == |data|
      ensures outcome.Answer? && Positive(outcome.receipt) <==> Confirmed(exchanges, Steps(begin, data), |data|)
    {
      ghost var steps := Steps(begin, data);
      outcome, sent := Perform(Step(begin, Ready, 0), |data|, exchanges, []);
      if outcome.Error? || !outcome.receipt.outcome.Ready? {
        return;
      }
      FirstStep(begin, data);
      assert Confirmed(exchanges, steps[..0], |data|);
      OneMoreStep(exchanges, steps, |data|, 0);
      var ok;
      ok, outcome, sent := SendChunks(steps, data, exchanges, sent);
      if !ok {
        return;
      }
      ghost var n := |sent|;
      LastStep(steps, n, data);
      outcome, sent := Perform(COMMIT_STEP, |data|, exchanges, sent);
      if outcome.Answer? && Positive(outcome.receipt) {
        OneMoreStep(exchanges, steps, |data|, n);
        assert steps[..|steps|] == steps;
      }
    }

    /** The chunks, each sent after the one before it was confirmed. */
    method SendChunks(ghost steps: seq<Step>, data: seq<byte>, exchanges: seq<Exchange>, before: seq<Payload>)
      returns (ok: bool, outcome: Outcome, sent: seq<Payload>)
      requires |data| <= MAX_BYTES && |before| <= |steps| && Follows(before, steps)
      requires steps[|before|..] == ChunkSteps(data, 0) + [COMMIT_STEP]
      requires Confirmed(exchanges, steps[..|before|], |data|)
      ensures |sent| <= |steps| && Follows(sent, steps)
      ensures ok ==> steps[|sent|..] == ChunkSteps(data, |data|) + [COMMIT_STEP]
      ensures ok ==> Confirmed(exchanges, steps[..|sent|], |data|)
      ensures !ok ==> outcome.Answer? ==> !Positive(outcome.receipt)
      ensures !ok ==> !Confirmed(exchanges, steps, |data|)
    {
      sent, outcome := before, Error;
      var offset := 0;
      while offset < |data|
        invariant 0 <= offset <= |data| && |sent| <= |steps| && Follows(sent, steps)
        invariant steps[|sent|..] == ChunkSteps(data, offset) + [COMMIT_STEP]
        invariant Confirmed(exchanges, steps[..|sent|], |data|)
      {
        var end := if offset + CHUNK_BYTES < |data| then offset + CHUNK_BYTES else |data|;
        var step := Step(Payload(Chunk, "", "", "", 0, "", offset, data[offset..end]), Received, end);
        ghost var n := |sent|;
        NextChunk(steps, n, data, offset);
        outcome, sent := Perform(step, |data|, exchanges, sent);
        if outcome.Error? || !outcome.receipt.outcome.Received? {
          return false, outcome, sent;
        }
        OneMoreStep(exchanges, steps, |data|, n);
        offset := end;
      }
      ok := true;
    }
  }

  lemma FirstStep(begin: Payload, data: seq<byte>)
    ensures Steps(begin, data)[0] == Step(begin, Ready, 0)
    ensures Steps(begin, data)[1..] == ChunkSteps(data, 0) + [COMMIT_STEP]
  {
  }

  /** A chunk is followed by the steps from its end on. */
  lemma NextChunk(steps: seq<Step>, n: nat, data: seq<byte>, offset: nat)
    requires n <= |steps| && offset < |data| && steps[n..] == ChunkSteps(data, offset) + [COMMIT_STEP]
    ensures
      var step := ChunkStep(data, offset);
      n < |steps| && steps[n] == step && steps[n + 1..] == ChunkSteps(data, step.offset) + [COMMIT_STEP]
  {
    assert steps[n..][0] == steps[n] && steps[n..][1..] == steps[n + 1..];
    assert ChunkSteps(data, offset)[1..] == ChunkSteps(data, ChunkStep(data, offset).offset);
  }

  lemma LastStep(steps: seq<Step>, n: nat, data: seq<byte>)
    requires n <= |steps| && steps[n..] == ChunkSteps(data, |data|) + [COMMIT_STEP]
    ensures |steps| == n + 1 && steps[n] == COMMIT_STEP
  {
    assert |steps[n..]| == 1 && steps[n..][0] == steps[n];
  }

  lemma OneMoreStep(exchanges: seq<Exchange>, steps: seq<Step>, size: nat, n: nat)
    requires n < |steps| && n < |exchanges| && Confirmed(exchanges, steps[..n], size)
    requires exchanges[n].Replied? && Confirms(exchanges[n].receipt, steps[n], size)
    ensures Confirmed(exchanges, steps[..n + 1], size)
  {
  }

  /** The payloads sent are those of the first steps. */
  predicate Follows(sent: seq<Payload>, steps: seq<Step>) {
    |sent| <= |steps| && forall i :: 0 <= i < |sent| ==> sent[i] == steps[i].payload
  }

  /** Each step in turn was answered by a receipt of its own. */
  predicate Confirmed(exchanges: seq<Exchange>, steps: seq<Step>, size: nat) {
    && |steps| <= |exchanges|
    && forall i :: 0 <= i < |steps| ==> exchanges[i].Replied? && Confirms(exchanges[i].receipt, steps[i], size)
  }
}
