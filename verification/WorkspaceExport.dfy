/** Exporting outputs: the gateway's chunk reader, the daemon loop that feeds it, and the two together. */
module WorkspaceExport {
  import opened Basics
  import opened Paths

  const CHUNK_BYTES := 65536
  const MAX_BYTES := 528 * 1024 * 1024
  const MAX_ID_BYTES := 128
  /** The buffer of the discarding copy. */
  const DISCARD_BYTES := 8192

  datatype StepName = Begin | Next | Cancel

  datatype Request = Request(step: StepName, handle: string, environment: string, offset: int)

  predicate ValidRequest(r: Request) {
    if r.step == Begin then
      && r.offset == 0 && r.handle != "" && Utf8Length(r.handle) <= MAX_ID_BYTES
      && r.environment != "" && Utf8Length(r.environment) <= MAX_ID_BYTES
    else
      && r.handle == "" && r.environment == ""
      && ((r.step == Next && 0 <= r.offset <= MAX_BYTES) || (r.step == Cancel && r.offset == 0))
  }

  datatype Outcome = Chunk | Completed | Failed

  datatype Reply = Reply(outcome: Outcome, offset: int, data: seq<byte>, error: string)

  /** How one exchange went: NoReply covers a closed session, a timeout and a reply that cannot be decoded. */
  datatype Exchange = SendFailed | NoReply | Replied(reply: Reply)

  // ----- the reader -----

  /** The reader, with the exchanges it has used up and the requests it has sent. */
  datatype State = State(data: seq<byte>, offset: nat, request: Request, completed: bool, at: nat, sent: seq<Request>)

  datatype Status = More | Eof | Error

  function Start(request: Request): State {
    State([], 0, request, false, 0, [])
  }

  predicate IsCompletion(reply: Reply, offset: nat) {
    reply.offset == offset && reply.outcome == Completed && reply.data == [] && reply.error == ""
  }

  predicate IsChunk(reply: Reply, offset: nat) {
    && reply.offset == offset && reply.outcome == Chunk && reply.error == ""
    && 0 < |reply.data| <= CHUNK_BYTES && |reply.data| <= MAX_BYTES - offset
  }

  /** One exchange with the daemon. */
  function Ask(s: State, exchange: Exchange): (State, Status) {
    if exchange.SendFailed? then (s.(at := s.at + 1), Error)
    else
      var asked := s.(at := s.at + 1, sent := s.sent + [s.request]);
      if exchange.NoReply? then (asked, Error)
      else if IsCompletion(exchange.reply, s.offset) then (asked.(completed := true), Eof)
      else if IsChunk(exchange.reply, s.offset) then
        var offset := s.offset + |exchange.reply.data|;
        (asked.(data := exchange.reply.data, offset := offset, request := Request(Next, "", "", offset)), More)
      else (asked, Error)
  }

  function Taken(data: seq<byte>, size: nat): nat {
    if size < |data| then size else |data|
  }

  /** One read into a buffer of the given size. */
  function Read(s: State, size: nat, exchanges: seq<Exchange>): (State, seq<byte>, Status) {
    if size == 0 then (s, [], More)
    else if s.data != [] then
      (s.(data := s.data[Taken(s.data, size)..]), s.data[..Taken(s.data, size)], More)
    else if s.completed then (s, [], Eof)
    else if s.at >= |exchanges| then (s, [], Error)
    else
      var (asked, status) := Ask(s, exchanges[s.at]);
      var taken := Taken(asked.data, size);
      if status.More? then (asked.(data := asked.data[taken..]), asked.data[..taken], More)
      else (asked, [], status)
  }

  /** Any number of reads, of any sizes, whatever each of them returned. */
  function Reads(s: State, sizes: seq<nat>, exchanges: seq<Exchange>): (State, seq<byte>) {
    if sizes == [] then (s, [])
    else
      var (before, bytes) := Reads(s, sizes[..|sizes| - 1], exchanges);
      var (after, more, status) := Read(before, sizes[|sizes| - 1], exchanges);
      (after, bytes + more)
  }

  /** Reads until the end or an error, discarding. */
  function Drain(s: State, exchanges: seq<Exchange>): (State, seq<byte>, Status)
    decreases |exchanges| - s.at, |s.data|
  {
    var (after, bytes, status) := Read(s, DISCARD_BYTES, exchanges);
    if status.More? then
      var (last, rest, ending) := Drain(after, exchanges);
      (last, bytes + rest, ending)
    else (after, bytes, status)
  }

  // ----- what the replies amount to -----

  /** The chunks among the exchanges that continue the chunks before them. */
  function Chunks(exchanges: seq<Exchange>): seq<seq<byte>> {
    if exchanges == [] then [] else
      var before := Chunks(exchanges[..|exchanges| - 1]);
      var last := exchanges[|exchanges| - 1];
      if last.Replied? && IsChunk(last.reply, |Concat(before)|) then before + [last.reply.data] else before
  }

  lemma ChunksSnoc(exchanges: seq<Exchange>, at: nat)
    requires at < |exchanges|
    ensures
      var before := Chunks(exchanges[..at]);
      var last := exchanges[at];
      Chunks(exchanges[..at + 1]) ==
        if last.Replied? && IsChunk(last.reply, |Concat(before)|) then before + [last.reply.data] else before
  {
    assert exchanges[..at + 1][..at] == exchanges[..at];
  }

  function Archive(exchanges: seq<Exchange>): seq<byte> {
    Concat(Chunks(exchanges))
  }

  /** The bytes given out and those held are the archive so far, and the next request continues from its end. */
  predicate Holds(s: State, given: seq<byte>, exchanges: seq<Exchange>) {
    s.at <= |exchanges| && given + s.data == Archive(exchanges[..s.at]) && s.offset == |given| + |s.data| <= MAX_BYTES
  }

  predicate Finished(s: State, exchanges: seq<Exchange>) {
    s.completed ==>
      && s.data == [] && 0 < s.at <= |exchanges|
      && exchanges[s.at - 1].Replied? && IsCompletion(exchanges[s.at - 1].reply, s.offset)
  }

  /** Every request is valid, and offsets never go back. */
  predicate Asked(s: State) {
    && ValidRequest(s.request) && s.request.offset == s.offset
    && (forall i :: 0 <= i < |s.sent| ==> ValidRequest(s.sent[i]) && s.sent[i].offset <= s.offset)
    && (forall i, j :: 0 <= i < j < |s.sent| ==> s.sent[i].offset <= s.sent[j].offset)
  }

  predicate Inv(s: State, given: seq<byte>, exchanges: seq<Exchange>) {
    Holds(s, given, exchanges) && Finished(s, exchanges) && Asked(s)
  }

  lemma AskHolds(s: State, given: seq<byte>, exchanges: seq<Exchange>)
    requires Holds(s, given, exchanges) && s.data == [] && s.at < |exchanges|
    ensures Holds(Ask(s, exchanges[s.at]).0, given, exchanges)
  {
    var last := exchanges[s.at];
    assert given + s.data == given;
    ChunksSnoc(exchanges, s.at);
    if last.Replied? && IsChunk(last.reply, s.offset) {
      ConcatSnoc(Chunks(exchanges[..s.at]), last.reply.data);
    }
  }

  lemma AskKeeps(s: State, given: seq<byte>, exchanges: seq<Exchange>)
    requires Inv(s, given, exchanges) && s.data == [] && !s.completed && s.at < |exchanges|
    ensures
      var (asked, status) := Ask(s, exchanges[s.at]);
      && Inv(asked, given, exchanges)
      && (status.More? <==> asked.data != []) && (status.Eof? <==> asked.completed)
  {
    AskHolds(s, given, exchanges);
    AskAsks(s, exchanges[s.at]);
  }

  lemma AskAsks(s: State, exchange: Exchange)
    requires Asked(s) && s.offset <= MAX_BYTES
    ensures Asked(Ask(s, exchange).0)
  {
  }

  /** Copying moves bytes from those held to those given. */
  lemma CopyKeeps(s: State, given: seq<byte>, size: nat, exchanges: seq<Exchange>)
    requires Inv(s, given, exchanges) && s.data != [] && size > 0
    ensures
      var n := Taken(s.data, size);
      n > 0 && Inv(s.(data := s.data[n..]), given + s.data[..n], exchanges)
  {
    var n := Taken(s.data, size);
    assert given + s.data[..n] + s.data[n..] == given + s.data;
  }

  /** A read hands over the next bytes of the archive, and nothing else. */
  lemma ReadKeeps(s: State, given: seq<byte>, size: nat, exchanges: seq<Exchange>)
    requires Inv(s, given, exchanges)
    ensures
      var (after, bytes, status) := Read(s, size, exchanges);
      && Inv(after, given + bytes, exchanges)
      && (!status.More? ==> (status.Eof? <==> after.completed))
      && (status.More? && size > 0 ==> bytes != [])
  {
    assert given + [] == given;
    if size == 0 {
    } else if s.data != [] {
      CopyKeeps(s, given, size, exchanges);
    } else if !s.completed && s.at < |exchanges| {
      AskKeeps(s, given, exchanges);
      var (asked, status) := Ask(s, exchanges[s.at]);
      if status.More? {
        CopyKeeps(asked, given, size, exchanges);
      }
    }
  }

  /** Whatever buffers a caller uses: the bytes handed over, then those pending, are the chunks accepted, in order. */
  lemma {:induction false} ReaderYieldsTheChunks(request: Request, sizes: seq<nat>, exchanges: seq<Exchange>)
    requires ValidRequest(request) && request.step == Begin
    ensures
      var (s, bytes) := Reads(Start(request), sizes, exchanges);
      Inv(s, bytes, exchanges)
  {
    if sizes == [] {
      assert exchanges[..0] == [];
    } else {
      var before := sizes[..|sizes| - 1];
      ReaderYieldsTheChunks(request, before, exchanges);
      var (s, bytes) := Reads(Start(request), before, exchanges);
      ReadKeeps(s, bytes, sizes[|sizes| - 1], exchanges);
    }
  }

  lemma Regroup(a: seq<byte>, b: seq<byte>, c: seq<byte>)
    ensures a + b + c == a + (b + c)
  {
  }

  /** Draining ends with a completion receipt for exactly the bytes handed over, or with an error. */
  lemma {:induction false} DrainKeeps(s: State, given: seq<byte>, exchanges: seq<Exchange>)
    requires Inv(s, given, exchanges)
    ensures
      var (last, bytes, status) := Drain(s, exchanges);
      Inv(last, given + bytes, exchanges) && (status.Eof? <==> last.completed) && !status.More?
    decreases |exchanges| - s.at, |s.data|
  {
    ReadKeeps(s, given, DISCARD_BYTES, exchanges);
    var (after, bytes, status) := Read(s, DISCARD_BYTES, exchanges);
    if status.More? {
      DrainKeeps(after, given + bytes, exchanges);
      Regroup(given, bytes, Drain(after, exchanges).1);
    }
  }

  // ----- an honest daemon -----

  /** The pieces an archive arrives in from the pipe. */
  predicate Pieces(pieces: seq<seq<byte>>) {
    (forall k :: 0 <= k < |pieces| ==> 0 < |pieces[k]| <= CHUNK_BYTES) && |Concat(pieces)| <= MAX_BYTES
  }

  /** The reply to the request after the first k pieces. */
  function Due(pieces: seq<seq<byte>>, k: nat): Exchange
    requires k <= |pieces|
  {
    var offset := |Concat(pieces[..k])|;
    Replied(if k < |pieces| then Reply(Chunk, offset, pieces[k], "") else Reply(Completed, offset, [], ""))
  }

  function Served(pieces: seq<seq<byte>>): seq<Exchange> {
    seq(|pieces| + 1, k requires 0 <= k <= |pieces| => Due(pieces, k))
  }

  lemma PrefixFits(pieces: seq<seq<byte>>, k: nat)
    requires Pieces(pieces) && k <= |pieces|
    ensures |Concat(pieces[..k])| <= MAX_BYTES
    ensures k < |pieces| ==> Concat(pieces[..k + 1]) == Concat(pieces[..k]) + pieces[k]
    ensures k < |pieces| ==> |Concat(pieces[..k])| + |pieces[k]| <= MAX_BYTES
  {
    ConcatSplits(pieces[..k], pieces[k..]);
    assert pieces[..k] + pieces[k..] == pieces;
    if k < |pieces| {
      ConcatSnoc(pieces[..k], pieces[k]);
      assert pieces[..k] + [pieces[k]] == pieces[..k + 1];
      ConcatSplits(pieces[..k + 1], pieces[k + 1..]);
      assert pieces[..k + 1] + pieces[k + 1..] == pieces;
    }
  }

  lemma {:induction false} ServedChunks(pieces: seq<seq<byte>>, k: nat)
    requires Pieces(pieces) && k <= |pieces|
    ensures Chunks(Served(pieces)[..k]) == pieces[..k]
  {
    if k > 0 {
      ServedChunks(pieces, k - 1);
      ChunksSnoc(Served(pieces), k - 1);
      assert IsChunk(Served(pieces)[k - 1].reply, |Concat(pieces[..k - 1])|) by {
        PrefixFits(pieces, k - 1);
      }
      assert pieces[..k] == pieces[..k - 1] + [pieces[k - 1]];
    }
  }

  /** Where a reader stands after k honest exchanges. */
  predicate InStep(s: State, pieces: seq<seq<byte>>) {
    && |s.sent| == s.at <= |pieces| + 1 && (s.completed <==> s.at == |pieces| + 1)
    && forall k :: 0 <= k < |s.sent| ==> s.sent[k].offset == |Concat(pieces[..k])|
  }

  lemma AskInStep(s: State, given: seq<byte>, pieces: seq<seq<byte>>)
    requires Pieces(pieces) && InStep(s, pieces) && Inv(s, given, Served(pieces)) && s.data == [] && !s.completed
    ensures
      var (asked, status) := Ask(s, Served(pieces)[s.at]);
      InStep(asked, pieces) && !status.Error?
  {
    assert s.offset == |Concat(pieces[..s.at])| by {
      ServedChunks(pieces, s.at);
    }
    AskDue(s, pieces);
  }

  lemma AskDue(s: State, pieces: seq<seq<byte>>)
    requires Pieces(pieces) && InStep(s, pieces) && !s.completed
    requires s.request.offset == s.offset == |Concat(pieces[..s.at])|
    ensures
      var (asked, status) := Ask(s, Due(pieces, s.at));
      InStep(asked, pieces) && !status.Error?
  {
    PrefixFits(pieces, s.at);
  }

  lemma ReadInStep(s: State, given: seq<byte>, size: nat, pieces: seq<seq<byte>>)
    requires Pieces(pieces) && InStep(s, pieces) && Inv(s, given, Served(pieces))
    ensures
      var (after, bytes, status) := Read(s, size, Served(pieces));
      InStep(after, pieces) && !status.Error?
  {
    if size > 0 && s.data == [] && !s.completed {
      AskInStep(s, given, pieces);
    }
  }

  lemma {:induction false} ReadsInStep(request: Request, sizes: seq<nat>, pieces: seq<seq<byte>>)
    requires Pieces(pieces) && ValidRequest(request) && request.step == Begin
    ensures InStep(Reads(Start(request), sizes, Served(pieces)).0, pieces)
  {
    if sizes != [] {
      var before := sizes[..|sizes| - 1];
      ReadsInStep(request, before, pieces);
      ReaderYieldsTheChunks(request, before, Served(pieces));
      var (s, given) := Reads(Start(request), before, Served(pieces));
      ReadInStep(s, given, sizes[|sizes| - 1], pieces);
    }
  }

  lemma {:induction false} DrainInStep(s: State, given: seq<byte>, pieces: seq<seq<byte>>)
    requires Pieces(pieces) && InStep(s, pieces) && Inv(s, given, Served(pieces))
    ensures
      var (last, bytes, status) := Drain(s, Served(pieces));
      InStep(last, pieces) && status.Eof?
    decreases |Served(pieces)| - s.at, |s.data|
  {
    ReadKeeps(s, given, DISCARD_BYTES, Served(pieces));
    ReadInStep(s, given, DISCARD_BYTES, pieces);
    var (after, bytes, status) := Read(s, DISCARD_BYTES, Served(pieces));
    if status.More? {
      DrainInStep(after, given + bytes, pieces);
    }
  }

  // ----- the daemon's loop -----

  /** What one read of the exporter's pipe gives. */
  datatype Pipe = Bytes(data: seq<byte>) | EndOfFile | Broken

  function Answers(requests: seq<Request>, pipe: seq<Pipe>, offset: nat): seq<Reply> {
    if requests == [] then []
    else if requests[0].offset != offset then [Reply(Failed, offset, [], "invalid_request")]
    else if pipe == [] then []
    else match pipe[0]
      case EndOfFile => [Reply(Completed, offset, [], "")]
      case Broken => [Reply(Failed, offset, [], "export_failed")]
      case Bytes(data) =>
        if data == [] || |data| > MAX_BYTES - offset then [Reply(Failed, offset, [], "export_failed")]
        else [Reply(Chunk, offset, data, "")] + Answers(requests[1..], pipe[1..], offset + |data|)
  }

  /** Answers the requests in order; the lists end where the context is cancelled or the pipe blocks. */
  method RunWorkspaceExport(requests: seq<Request>, pipe: seq<Pipe>) returns (replies: seq<Reply>)
    ensures replies == Answers(requests, pipe, 0)
  {
    replies := [];
    var offset, k := 0, 0;
    while k < |requests|
      invariant 0 <= k <= |requests| && k <= |pipe| && offset >= 0
      invariant replies + Answers(requests[k..], pipe[k..], offset) == Answers(requests, pipe, 0)
    {
      if requests[k].offset != offset {
        return replies + [Reply(Failed, offset, [], "invalid_request")];
      }
      if k == |pipe| {
        return replies;
      }
      match pipe[k] {
        case EndOfFile => return replies + [Reply(Completed, offset, [], "")];
        case Broken => return replies + [Reply(Failed, offset, [], "export_failed")];
        case Bytes(data) =>
          if data == [] || |data| > MAX_BYTES - offset {
            return replies + [Reply(Failed, offset, [], "export_failed")];
          }
          assert requests[k..][1..] == requests[k + 1..] && pipe[k..][1..] == pipe[k + 1..];
          replies := replies + [Reply(Chunk, offset, data, "")];
          offset := offset + |data|;
      }
      k := k + 1;
    }
  }

  function Fed(pieces: seq<seq<byte>>): seq<Pipe> {
    seq(|pieces|, k requires 0 <= k < |pieces| => Bytes(pieces[k])) + [EndOfFile]
  }

  /** Requests in step with the pieces are answered with the pieces. */
  lemma {:induction false} AnswersServe(requests: seq<Request>, pieces: seq<seq<byte>>, from: nat)
    requires Pieces(pieces) && from <= |pieces| && |requests| == |pieces| + 1
    requires forall k :: 0 <= k < |requests| ==> requests[k].offset == |Concat(pieces[..k])|
    ensures
      var replies := Answers(requests[from..], Fed(pieces)[from..], |Concat(pieces[..from])|);
      && |replies| == |requests| - from
      && forall k :: 0 <= k < |replies| ==> Replied(replies[k]) == Due(pieces, from + k)
    decreases |pieces| - from
  {
    if from < |pieces| {
      AnswersServe(requests, pieces, from + 1);
      PrefixFits(pieces, from);
      assert requests[from..][1..] == requests[from + 1..] && Fed(pieces)[from..][1..] == Fed(pieces)[from + 1..];
    }
  }

  /**
   * Reader and daemon together: whatever pieces the archive comes in and whatever buffers the consumer uses, the
   * export completes, the consumer and the discarding copy get exactly the archive, and the daemon's replies to
   * the reader's requests are the replies the reader saw.
   */
  lemma RoundTrip(request: Request, sizes: seq<nat>, pieces: seq<seq<byte>>)
    requires Pieces(pieces) && ValidRequest(request) && request.step == Begin
    ensures
      var (s, consumed) := Reads(Start(request), sizes, Served(pieces));
      var (last, discarded, status) := Drain(s, Served(pieces));
      var replies := Answers(last.sent, Fed(pieces), 0);
      && status.Eof? && consumed + discarded == Concat(pieces)
      && |replies| == |Served(pieces)|
      && forall k :: 0 <= k < |replies| ==> Replied(replies[k]) == Served(pieces)[k]
  {
    var served := Served(pieces);
    ReaderYieldsTheChunks(request, sizes, served);
    ReadsInStep(request, sizes, pieces);
    var (s, consumed) := Reads(Start(request), sizes, served);
    DrainKeeps(s, consumed, served);
    DrainInStep(s, consumed, pieces);
    WholeArchive(pieces);
    var last := Drain(s, served).0;
    AnswersServe(last.sent, pieces, 0);
    assert last.sent[0..] == last.sent && Fed(pieces)[0..] == Fed(pieces) && pieces[..0] == [];
  }

  lemma WholeArchive(pieces: seq<seq<byte>>)
    requires Pieces(pieces)
    ensures Archive(Served(pieces)[..|pieces| + 1]) == Concat(pieces)
  {
    var served := Served(pieces);
    ServedChunks(pieces, |pieces|);
    assert served[|pieces|].reply.outcome == Completed;
    assert Chunks(served[..|pieces| + 1]) == Chunks(served[..|pieces|]) by {
      ChunksSnoc(served, |pieces|);
    }
    assert pieces[..|pieces|] == pieces;
  }

  // ----- the gateway's objects -----

  class Reader {
    var data: seq<byte>
    var offset: nat
    var request: Request
    var completed: bool
    /** The exchanges used up, and the requests sent. */
    var at: nat
    var sent: seq<Request>

    constructor (request: Request)
      ensures Value() == Start(request)
    {
      data, offset, this.request, completed, at, sent := [], 0, request, false, 0, [];
    }

    function Value(): State
      reads this
    {
      State(data, offset, request, completed, at, sent)
    }

    method ReadInto(size: nat, exchanges: seq<Exchange>) returns (bytes: seq<byte>, status: Status)
      modifies this
      ensures (Value(), bytes, status) == Read(old(Value()), size, exchanges)
      decreases |exchanges| - at, data == []
    {
      if size == 0 {
        return [], More;
      }
      if data != [] {
        var n := Taken(data, size);
        bytes, status := data[..n], More;
        data := data[n..];
        return;
      }
      if completed {
        return [], Eof;
      }
      if at >= |exchanges| {
        return [], Error;
      }
      var exchange := exchanges[at];
      at := at + 1;
      if exchange.SendFailed? {
        return [], Error;
      }
      sent := sent + [request];
      if exchange.NoReply? || exchange.reply.offset != offset {
        return [], Error;
      }
      var reply := exchange.reply;
      if reply.outcome == Completed && reply.data == [] && reply.error == "" {
        completed := true;
        return [], Eof;
      }
      if reply.outcome != Chunk || reply.error != "" || reply.data == []
          || |reply.data| > CHUNK_BYTES || |reply.data| > MAX_BYTES - offset {
        return [], Error;
      }
      data := reply.data;
      offset := offset + |reply.data|;
      request := Request(Next, "", "", offset);
      bytes, status := ReadInto(size, exchanges);
    }

    /** Discards the rest. */
    method Discard(exchanges: seq<Exchange>) returns (bytes: seq<byte>, status: Status)
      modifies this
      ensures (Value(), bytes, status) == Drain(old(Value()), exchanges)
      decreases |exchanges| - at, |data|
    {
      bytes, status := ReadInto(DISCARD_BYTES, exchanges);
      if status.More? {
        var rest;
        rest, status := Discard(exchanges);
        bytes := bytes + rest;
      }
    }
  }

  /** Read with these buffers and then drained, the exchanges end in a completion receipt. */
  predicate Finishes(request: Request, sizes: seq<nat>, exchanges: seq<Exchange>) {
    Drain(Reads(Start(request), sizes, exchanges).0, exchanges).2.Eof?
  }

  class Session {
    var closed: bool
    var exports: set<string>

    constructor ()
      ensures !closed && exports == {}
    {
      closed, exports := false, {};
    }

    /**
     * Runs one export: the consumer reads with the given buffer sizes and gives its verdict. It succeeds only when
     * a completion receipt arrived for exactly the bytes handed over, and cancels the daemon's export otherwise.
     */
    method Export(id: string, payload: Request, sizes: seq<nat>, verdict: bool, exchanges: seq<Exchange>)
      returns (ok: bool, consumed: seq<byte>, discarded: seq<byte>, used: nat, sent: seq<Request>)
      modifies this
      ensures closed == old(closed) && exports == old(exports)
      ensures forall i :: 0 <= i < |sent| ==> ValidRequest(sent[i])
      ensures sent != [] ==> !closed && old(exports) == {}
      ensures
        var request := payload.(step := Begin);
        ok <==> ValidRequest(request) && !closed && old(exports) == {} && verdict && Finishes(request, sizes, exchanges)
      ensures ok ==>
        && verdict && 0 < used <= |exchanges| && exchanges[used - 1].Replied?
        && consumed + discarded == Archive(exchanges[..used])
        && IsCompletion(exchanges[used - 1].reply, |consumed + discarded|)
      ensures sent != [] && sent[|sent| - 1].step != Cancel ==>
        0 < used <= |exchanges| && exchanges[used - 1].Replied? && exchanges[used - 1].reply.outcome == Completed
    {
      var request := payload.(step := Begin);
      consumed, discarded, used, sent := [], [], 0, [];
      if !ValidRequest(request) || closed || exports != {} {
        return false, [], [], 0, [];
      }
      exports := {id};
      var reader := new Reader(request);
      consumed := Consume(reader, request, sizes, exchanges);
      var status := Error;
      if verdict {
        DrainKeeps(reader.Value(), consumed, exchanges);
        discarded, status := reader.Discard(exchanges);
      }
      ok, used, sent := status.Eof?, reader.at, reader.sent;
      if !reader.completed {
        sent := sent + [Request(Cancel, "", "", 0)];
      }
      exports := exports - {id};
    }

    method Consume(reader: Reader, request: Request, sizes: seq<nat>, exchanges: seq<Exchange>)
      returns (bytes: seq<byte>)
      requires ValidRequest(request) && request.step == Begin && reader.Value() == Start(request)
      modifies reader
      ensures (reader.Value(), bytes) == Reads(Start(request), sizes, exchanges)
      ensures Inv(reader.Value(), bytes, exchanges)
    {
      bytes := [];
      var k := 0;
      while k < |sizes|
        invariant 0 <= k <= |sizes|
        invariant (reader.Value(), bytes) == Reads(Start(request), sizes[..k], exchanges)
      {
        var more, status := reader.ReadInto(sizes[k], exchanges);
        assert sizes[..k + 1][..k] == sizes[..k];
        bytes := bytes + more;
        k := k + 1;
      }
      assert sizes[..|sizes|] == sizes;
      ReaderYieldsTheChunks(request, sizes, exchanges);
    }
  }
}
