/** Observing assistant messages: the text of a completed message is what was streamed for it. */
module Messages {
  import opened Basics

  datatype Event =
    | Opened(id: string)
    | Delta(id: string, text: string)
    | Completed(id: string, text: string)

  datatype Input =
    | Ignored
    | Failure
    | Snapshot(id: string, texts: seq<string>)
    | MessageStart(id: string)
    | BlockStart(index: int, opening: Option<string>)
    | TextDelta(index: int, text: string)
    | BlockStop
    | MessageStop
    | OtherEvent

  datatype Block = Block(index: int, text: string)

  /** Blocks are kept in the order in which they started. */
  datatype Active = Active(id: string, blocks: seq<Block>, block: Option<int>, observed: bool, failed: bool)

  // ----- blocks -----

  function Lookup(blocks: seq<Block>, index: int): Option<string> {
    if blocks == [] then None
    else if blocks[|blocks| - 1].index == index then Some(blocks[|blocks| - 1].text)
    else Lookup(blocks[..|blocks| - 1], index)
  }

  /** A known block keeps its place, a new one goes last. */
  function Put(blocks: seq<Block>, index: int, text: string): seq<Block> {
    if Lookup(blocks, index).None? then blocks + [Block(index, text)]
    else if blocks[|blocks| - 1].index == index then blocks[..|blocks| - 1] + [Block(index, text)]
    else Put(blocks[..|blocks| - 1], index, text) + [blocks[|blocks| - 1]]
  }

  function InsertBlock(sorted: seq<Block>, block: Block): seq<Block> {
    if sorted == [] || sorted[|sorted| - 1].index <= block.index then sorted + [block]
    else InsertBlock(sorted[..|sorted| - 1], block) + [sorted[|sorted| - 1]]
  }

  function Sort(blocks: seq<Block>): seq<Block> {
    if blocks == [] then [] else InsertBlock(Sort(blocks[..|blocks| - 1]), blocks[|blocks| - 1])
  }

  function TextOf(blocks: seq<Block>): string {
    if blocks == [] then "" else TextOf(blocks[..|blocks| - 1]) + blocks[|blocks| - 1].text
  }

  predicate Rising(blocks: seq<Block>) {
    forall i, j :: 0 <= i < j < |blocks| ==> blocks[i].index < blocks[j].index
  }

  /** Sorting leaves blocks that started in order as they are. */
  lemma {:induction false} RisingIsSorted(blocks: seq<Block>)
    requires Rising(blocks)
    ensures Sort(blocks) == blocks
  {
    if blocks != [] {
      var front, last := blocks[..|blocks| - 1], blocks[|blocks| - 1];
      assert Rising(front) && (front != [] ==> front[|front| - 1].index < last.index) by {
        assert forall i :: 0 <= i < |front| ==> front[i] == blocks[i];
      }
      RisingIsSorted(front);
      InsertLast(front, last);
      assert front + [last] == blocks;
    }
  }

  lemma InsertLast(sorted: seq<Block>, block: Block)
    requires sorted != [] ==> sorted[|sorted| - 1].index < block.index
    ensures InsertBlock(sorted, block) == sorted + [block]
  {
  }

  /** The blocks end with this one, or all come before it. */
  predicate Latest(blocks: seq<Block>, index: int) {
    Rising(blocks) && forall i :: 0 <= i < |blocks| ==> blocks[i].index <= index
  }

  lemma {:induction false} LookupFinds(blocks: seq<Block>, index: int)
    requires Latest(blocks, index)
    ensures Lookup(blocks, index).Some? <==> blocks != [] && blocks[|blocks| - 1].index == index
  {
    if blocks != [] && blocks[|blocks| - 1].index < index {
      LookupFinds(blocks[..|blocks| - 1], index);
      assert |blocks| > 1 ==> blocks[|blocks| - 2].index < blocks[|blocks| - 1].index;
    }
  }

  /** What stands there in place of the latest block, or after it, if there is none with this index. */
  function Before(blocks: seq<Block>, index: int): seq<Block> {
    if blocks != [] && blocks[|blocks| - 1].index == index then blocks[..|blocks| - 1] else blocks
  }

  lemma PutLast(blocks: seq<Block>, index: int, text: string)
    requires Latest(blocks, index)
    ensures Put(blocks, index, text) == Before(blocks, index) + [Block(index, text)]
    ensures Latest(Put(blocks, index, text), index)
  {
    LookupFinds(blocks, index);
    var front := Before(blocks, index);
    assert forall i :: 0 <= i < |front| ==> front[i] == blocks[i] && front[i].index < index;
  }

  /** Adding to the latest block, or starting one after it, adds to the end of the text. */
  lemma PutGrows(blocks: seq<Block>, index: int, text: string)
    requires Latest(blocks, index)
    ensures
      var before := Lookup(blocks, index);
      var after := Put(blocks, index, (if before.Some? then before.value else "") + text);
      Latest(after, index) && TextOf(after) == TextOf(blocks) + text
  {
    var before := Lookup(blocks, index);
    var known := if before.Some? then before.value else "";
    PutLast(blocks, index, known + text);
    KnownText(blocks, index);
    TextSnoc(Before(blocks, index), Block(index, known + text));
    Regroup(TextOf(Before(blocks, index)), known, text);
  }

  lemma KnownText(blocks: seq<Block>, index: int)
    requires Latest(blocks, index)
    ensures
      var before := Lookup(blocks, index);
      TextOf(Before(blocks, index)) + (if before.Some? then before.value else "") == TextOf(blocks)
  {
    LookupFinds(blocks, index);
  }

  lemma Regroup(a: string, b: string, c: string)
    ensures a + (b + c) == a + b + c
  {
  }

  lemma TextSnoc(blocks: seq<Block>, block: Block)
    ensures TextOf(blocks + [block]) == TextOf(blocks) + block.text
  {
    assert (blocks + [block])[..|blocks|] == blocks;
  }

  // ----- the observer -----

  /** Started and top are history: the message ids so far, and the highest block index of the present message. */
  datatype State = State(active: Option<Active>, events: seq<Event>, started: set<string>, top: Option<int>)

  const START := State(None, [], {}, None)

  function OnSnapshot(s: State, id: string, texts: seq<string>): (State, bool) {
    if texts == [] then (s, true)
    else if s.active.None? || id != s.active.value.id || s.active.value.block.None?
         || Lookup(s.active.value.blocks, s.active.value.block.value).None? then (s, false)
    else
      var a := s.active.value;
      (s.(active := Some(a.(blocks := Put(a.blocks, a.block.value, Concat(texts))))), true)
  }

  function OnBlockStart(s: State, a: Active, index: int, opening: Option<string>): State {
    var s' := s.(top := Some(if s.top.Some? && s.top.value > index then s.top.value else index));
    match opening
    case None => s'.(active := Some(a.(block := Some(index))))
    case Some(t) =>
      s'.(active := Some(a.(block := Some(index), blocks := Put(a.blocks, index, t), observed := true)),
          events := s.events + (if a.observed then [] else [Opened(a.id)]) + (if t == "" then [] else [Delta(a.id, t)]))
  }

  function OnDelta(s: State, a: Active, index: int, text: string): (State, bool) {
    var previous := Lookup(a.blocks, index);
    if previous.None? || a.block != Some(index) then (s, false)
    else
      (s.(active := Some(a.(blocks := Put(a.blocks, index, previous.value + text))),
          events := s.events + (if text == "" then [] else [Delta(a.id, text)])), true)
  }

  function OnStop(s: State, a: Active): State {
    var said := if a.observed && !a.failed then [Completed(a.id, TextOf(Sort(a.blocks)))] else [];
    s.(active := None, events := s.events + said)
  }

  function Consume(s: State, input: Input): (State, bool) {
    match input
    case Ignored => (s, true)
    case Failure => (if s.active.Some? then s.(active := Some(s.active.value.(failed := true))) else s, true)
    case Snapshot(id, texts) => OnSnapshot(s, id, texts)
    case MessageStart(id) =>
      if id == "" then (s, false)
      else (s.(active := Some(Active(id, [], None, false, false)), started := s.started + {id}, top := None), true)
    case BlockStart(index, opening) =>
      if s.active.None? then (s, false) else (OnBlockStart(s, s.active.value, index, opening), true)
    case TextDelta(index, text) =>
      if s.active.None? then (s, false) else OnDelta(s, s.active.value, index, text)
    case BlockStop =>
      if s.active.None? then (s, false) else (s.(active := Some(s.active.value.(block := None))), true)
    case MessageStop =>
      if s.active.None? then (s, false) else (OnStop(s, s.active.value), true)
    case OtherEvent => (s, s.active.Some?)
  }

  // ----- well-formed streams -----

  /** Message ids are new, block indices rise within a message, and snapshots repeat the text so far. */
  predicate Proper(s: State, input: Input) {
    match input
    case MessageStart(id) => id !in s.started
    case BlockStart(index, _) => s.top.Some? ==> s.top.value < index
    case Snapshot(id, texts) =>
      texts != [] && s.active.Some? && s.active.value.block.Some? ==>
        Lookup(s.active.value.blocks, s.active.value.block.value) in {None, Some(Concat(texts))}
    case _ => true
  }

  function Run(inputs: seq<Input>): State {
    if inputs == [] then START else Consume(Run(inputs[..|inputs| - 1]), inputs[|inputs| - 1]).0
  }

  predicate WellFormed(inputs: seq<Input>) {
    inputs == [] ||
    (WellFormed(inputs[..|inputs| - 1]) && Proper(Run(inputs[..|inputs| - 1]), inputs[|inputs| - 1]))
  }

  /** All that was streamed for a message. */
  function Streamed(events: seq<Event>, id: string): string {
    if events == [] then "" else
      var last := events[|events| - 1];
      Streamed(events[..|events| - 1], id) + (if last.Delta? && last.id == id then last.text else "")
  }

  lemma StreamedSnoc(events: seq<Event>, e: Event, id: string)
    ensures Streamed(events + [e], id) == Streamed(events, id) + (if e.Delta? && e.id == id then e.text else "")
  {
    assert (events + [e])[..|events|] == events;
  }

  /** The blocks of the present message, in order, are what was streamed for it. */
  predicate Faithful(s: State) {
    s.active.Some? ==>
      var a := s.active.value;
      && a.id in s.started && TextOf(a.blocks) == Streamed(s.events, a.id)
      && (if s.top.Some? then Latest(a.blocks, s.top.value) else a.blocks == [])
      && (a.block.Some? ==> s.top == a.block)
  }

  ghost predicate OnlyStarted(s: State) {
    forall id :: id !in s.started ==> Streamed(s.events, id) == ""
  }

  /** Every completed message carries exactly what was streamed for it. */
  predicate Complete(s: State) {
    forall e :: e in s.events && e.Completed? ==>
      e.text == Streamed(s.events, e.id) && e.id in s.started && (s.active.Some? ==> s.active.value.id != e.id)
  }

  ghost predicate Inv(s: State) {
    Faithful(s) && OnlyStarted(s) && Complete(s)
  }

  /** One more text for the present message, in its blocks and in the events alike. */
  ghost predicate Extends(s: State, s': State, text: string) {
    && s.active.Some? && s'.active.Some? && s'.active.value.id == s.active.value.id && s'.started == s.started
    && (forall id :: Streamed(s'.events, id) == Streamed(s.events, id) + (if id == s.active.value.id then text else ""))
    && (forall e :: e in s'.events && e.Completed? ==> e in s.events)
    && TextOf(s'.active.value.blocks) == TextOf(s.active.value.blocks) + text
  }

  lemma ExtendsKeeps(s: State, s': State, text: string)
    requires Inv(s) && Extends(s, s', text)
    requires s'.top.Some? && Latest(s'.active.value.blocks, s'.top.value) && s'.active.value.block in {None, s'.top}
    ensures Inv(s')
  {
    forall id | id !in s'.started ensures Streamed(s'.events, id) == "" {
      assert Streamed(s.events, id) == "" && id != s.active.value.id;
    }
    forall e | e in s'.events && e.Completed? ensures e.text == Streamed(s'.events, e.id) {
      assert e.id != s.active.value.id;
    }
  }

  lemma StreamedText(events: seq<Event>, observed: bool, a: string, text: string, id: string)
    ensures
      var after := events + (if observed then [] else [Opened(a)]) + (if text == "" then [] else [Delta(a, text)]);
      Streamed(after, id) == Streamed(events, id) + (if id == a then text else "")
  {
    var middle := events + (if observed then [] else [Opened(a)]);
    if observed {
      assert middle == events;
    } else {
      StreamedSnoc(events, Opened(a), id);
    }
    if text == "" {
      assert middle + [] == middle;
    } else {
      StreamedSnoc(middle, Delta(a, text), id);
    }
  }

  lemma TextStartKeeps(s: State, index: int, text: string)
    requires Inv(s) && s.active.Some? && (s.top.Some? ==> s.top.value < index)
    ensures Inv(OnBlockStart(s, s.active.value, index, Some(text)))
  {
    var a, s' := s.active.value, OnBlockStart(s, s.active.value, index, Some(text));
    forall id ensures Streamed(s'.events, id) == Streamed(s.events, id) + (if id == a.id then text else "") {
      StreamedText(s.events, a.observed, a.id, text, id);
    }
    LookupFinds(a.blocks, index);
    PutGrows(a.blocks, index, text);
    assert "" + text == text;
    ExtendsKeeps(s, s', text);
  }

  lemma OtherStartKeeps(s: State, index: int)
    requires Inv(s) && s.active.Some? && (s.top.Some? ==> s.top.value < index)
    ensures Inv(OnBlockStart(s, s.active.value, index, None))
  {
  }

  lemma DeltaKeeps(s: State, index: int, text: string)
    requires Inv(s) && s.active.Some? && OnDelta(s, s.active.value, index, text).1
    ensures Inv(OnDelta(s, s.active.value, index, text).0)
  {
    var a, s' := s.active.value, OnDelta(s, s.active.value, index, text).0;
    forall id ensures Streamed(s'.events, id) == Streamed(s.events, id) + (if id == a.id then text else "") {
      StreamedText(s.events, true, a.id, text, id);
      assert s.events + [] == s.events;
    }
    PutGrows(a.blocks, index, text);
    ExtendsKeeps(s, s', text);
  }

  lemma StopKeeps(s: State)
    requires Inv(s) && s.active.Some?
    ensures Inv(OnStop(s, s.active.value))
  {
    var a, s' := s.active.value, OnStop(s, s.active.value);
    if a.observed && !a.failed {
      RisingIsSorted(a.blocks);
      CompletedKeeps(s, Completed(a.id, TextOf(a.blocks)));
    } else {
      assert s'.events == s.events;
    }
  }

  lemma CompletionStreamsNothing(events: seq<Event>, e: Event, id: string)
    requires e.Completed?
    ensures Streamed(events + [e], id) == Streamed(events, id)
  {
    StreamedSnoc(events, e, id);
    assert Streamed(events, id) + "" == Streamed(events, id);
  }

  lemma CompletedKeeps(s: State, e: Event)
    requires Inv(s) && e.Completed? && e.id in s.started && e.text == Streamed(s.events, e.id)
    ensures Inv(s.(active := None, events := s.events + [e]))
  {
    var s' := s.(active := None, events := s.events + [e]);
    forall id | id !in s'.started ensures Streamed(s'.events, id) == "" {
      CompletionStreamsNothing(s.events, e, id);
    }
    forall d | d in s'.events && d.Completed? ensures d.text == Streamed(s'.events, d.id) && d.id in s'.started {
      CompletionStreamsNothing(s.events, e, d.id);
    }
  }

  lemma SnapshotKeeps(s: State, id: string, texts: seq<string>)
    requires Inv(s) && Proper(s, Snapshot(id, texts))
    ensures OnSnapshot(s, id, texts).0 == s
  {
    if texts != [] && s.active.Some? && s.active.value.block.Some? {
      var blocks, index := s.active.value.blocks, s.active.value.block.value;
      LookupFinds(blocks, index);
      if Lookup(blocks, index).Some? {
        assert Put(blocks, index, Concat(texts)) == blocks;
      }
    }
  }

  lemma ConsumeKeeps(s: State, input: Input)
    requires Inv(s) && Proper(s, input)
    ensures Inv(Consume(s, input).0)
  {
    match input {
      case Snapshot(id, texts) => SnapshotKeeps(s, id, texts);
      case MessageStart(id) => assert id !in s.started;
      case BlockStart(index, opening) =>
        if s.active.Some? && opening.Some? {
          TextStartKeeps(s, index, opening.value);
        } else if s.active.Some? {
          OtherStartKeeps(s, index);
        }
      case TextDelta(index, text) =>
        if s.active.Some? && OnDelta(s, s.active.value, index, text).1 {
          DeltaKeeps(s, index, text);
        }
      case MessageStop =>
        if s.active.Some? {
          StopKeeps(s);
        }
      case _ =>
    }
  }

  /** For every well-formed stream, a completed message's text is the concatenation of the deltas emitted for its id. */
  lemma {:induction false} CompletedTextIsStreamed(inputs: seq<Input>)
    requires WellFormed(inputs)
    ensures Inv(Run(inputs))
    ensures forall e :: e in Run(inputs).events && e.Completed? ==> e.text == Streamed(Run(inputs).events, e.id)
  {
    if inputs != [] {
      CompletedTextIsStreamed(inputs[..|inputs| - 1]);
      ConsumeKeeps(Run(inputs[..|inputs| - 1]), inputs[|inputs| - 1]);
    }
  }

  // ----- the same, read off the input -----

  /** The message being streamed. */
  function Current(inputs: seq<Input>): Option<string> {
    if inputs == [] then None
    else
      var last := inputs[|inputs| - 1];
      if last.MessageStart? && last.id != "" then Some(last.id)
      else if last.MessageStop? then None
      else Current(inputs[..|inputs| - 1])
  }

  /** The block that is open in it. */
  function OpenBlock(inputs: seq<Input>): Option<int> {
    if inputs == [] then None
    else
      var front, last := inputs[..|inputs| - 1], inputs[|inputs| - 1];
      if last.MessageStart? && last.id != "" then None
      else if Current(front).None? then None
      else if last.BlockStart? then Some(last.index)
      else if last.BlockStop? || last.MessageStop? then None
      else OpenBlock(front)
  }

  /** The blocks of it that were started as text. */
  function TextBlocks(inputs: seq<Input>): set<int> {
    if inputs == [] then {}
    else
      var front, last := inputs[..|inputs| - 1], inputs[|inputs| - 1];
      if last.MessageStart? && last.id != "" then {}
      else if Current(front).None? || last.MessageStop? then {}
      else if last.BlockStart? && last.opening.Some? then TextBlocks(front) + {last.index}
      else TextBlocks(front)
  }

  /** A failure was reported since it began. */
  predicate FailedSince(inputs: seq<Input>) {
    inputs != [] &&
    var front, last := inputs[..|inputs| - 1], inputs[|inputs| - 1];
    && Current(inputs).Some? && !(last.MessageStart? && last.id != "")
    && (last.Failure? || FailedSince(front))
  }

  /** The text this input adds to a message: an opening text, or a delta for the open text block. */
  function Adds(front: seq<Input>, last: Input, id: string): string {
    if Current(front) != Some(id) then ""
    else if last.BlockStart? && last.opening.Some? then last.opening.value
    else if last.TextDelta? && OpenBlock(front) == Some(last.index) && last.index in TextBlocks(front) then last.text
    else ""
  }

  /** All text that came in for a message. */
  function Said(inputs: seq<Input>, id: string): string {
    if inputs == [] then ""
    else Said(inputs[..|inputs| - 1], id) + Adds(inputs[..|inputs| - 1], inputs[|inputs| - 1], id)
  }

  /** The observer's state is what the input says. */
  ghost predicate Tracks(s: State, inputs: seq<Input>) {
    && (s.active.Some? <==> Current(inputs).Some?)
    && (s.active.Some? ==>
          var a := s.active.value;
          && Current(inputs) == Some(a.id) && a.block == OpenBlock(inputs) && (a.failed <==> FailedSince(inputs))
          && (a.observed <==> TextBlocks(inputs) != {})
          && forall i :: Lookup(a.blocks, i).Some? <==> i in TextBlocks(inputs))
  }

  lemma {:induction false} PutIsFound(blocks: seq<Block>, index: int, text: string, i: int)
    ensures Lookup(Put(blocks, index, text), i).Some? <==> i == index || Lookup(blocks, i).Some?
  {
    var after := Put(blocks, index, text);
    if Lookup(blocks, index).None? {
      assert after[..|blocks|] == blocks;
    } else {
      var front := blocks[..|blocks| - 1];
      if blocks[|blocks| - 1].index == index {
        assert after[..|front|] == front;
      } else {
        PutIsFound(front, index, text, i);
        assert after[..|after| - 1] == Put(front, index, text);
      }
    }
  }

  lemma BlockStartTracks(s: State, front: seq<Input>, index: int, opening: Option<string>)
    requires Tracks(s, front) && s.active.Some?
    ensures Tracks(OnBlockStart(s, s.active.value, index, opening), front + [BlockStart(index, opening)])
  {
    var inputs := front + [BlockStart(index, opening)];
    assert inputs[..|front|] == front;
    if opening.Some? {
      assert index in TextBlocks(inputs);
      forall i ensures Lookup(Put(s.active.value.blocks, index, opening.value), i).Some? <==> i in TextBlocks(inputs) {
        PutIsFound(s.active.value.blocks, index, opening.value, i);
      }
    }
  }

  lemma DeltaTracks(s: State, front: seq<Input>, index: int, text: string)
    requires Tracks(s, front) && s.active.Some?
    ensures Tracks(OnDelta(s, s.active.value, index, text).0, front + [TextDelta(index, text)])
  {
    var inputs, a := front + [TextDelta(index, text)], s.active.value;
    assert inputs[..|front|] == front;
    var previous := Lookup(a.blocks, index);
    if previous.Some? {
      forall i ensures Lookup(Put(a.blocks, index, previous.value + text), i).Some? <==> i in TextBlocks(inputs) {
        PutIsFound(a.blocks, index, previous.value + text, i);
      }
    }
  }

  lemma SnapshotTracks(s: State, front: seq<Input>, id: string, texts: seq<string>)
    requires Tracks(s, front)
    ensures Tracks(OnSnapshot(s, id, texts).0, front + [Snapshot(id, texts)])
  {
    var inputs := front + [Snapshot(id, texts)];
    assert inputs[..|front|] == front;
    if s.active.Some? && s.active.value.block.Some? {
      var blocks, index := s.active.value.blocks, s.active.value.block.value;
      if Lookup(blocks, index).Some? {
        forall i ensures Lookup(Put(blocks, index, Concat(texts)), i).Some? <==> i in TextBlocks(inputs) {
          PutIsFound(blocks, index, Concat(texts), i);
        }
      }
    }
  }

  lemma ConsumeTracks(s: State, front: seq<Input>, last: Input)
    requires Tracks(s, front)
    ensures Tracks(Consume(s, last).0, front + [last])
  {
    var inputs := front + [last];
    assert inputs[..|front|] == front;
    match last {
      case Snapshot(id, texts) => SnapshotTracks(s, front, id, texts);
      case BlockStart(index, opening) =>
        if s.active.Some? {
          BlockStartTracks(s, front, index, opening);
        }
      case TextDelta(index, text) =>
        if s.active.Some? {
          DeltaTracks(s, front, index, text);
        }
      case _ =>
    }
  }

  lemma ConsumeStreams(s: State, front: seq<Input>, last: Input, id: string)
    requires Tracks(s, front)
    ensures Streamed(Consume(s, last).0.events, id) == Streamed(s.events, id) + Adds(front, last, id)
  {
    match last {
      case BlockStart(index, opening) =>
        if s.active.Some? && opening.Some? {
          StreamedText(s.events, s.active.value.observed, s.active.value.id, opening.value, id);
        }
      case TextDelta(index, text) =>
        if s.active.Some? {
          DeltaStreams(s, index, text, id);
        }
      case MessageStop => StopStreams(s, id);
      case _ =>
    }
  }

  lemma DeltaStreams(s: State, index: int, text: string, id: string)
    requires s.active.Some?
    ensures
      var a, (after, ok) := s.active.value, OnDelta(s, s.active.value, index, text);
      Streamed(after.events, id) == Streamed(s.events, id) + (if ok && a.id == id then text else "")
  {
    StreamedText(s.events, true, s.active.value.id, text, id);
    assert s.events + [] == s.events;
  }

  lemma StopStreams(s: State, id: string)
    ensures Streamed(Consume(s, MessageStop).0.events, id) == Streamed(s.events, id)
  {
    if s.active.Some? {
      var a := s.active.value;
      CompletionStreamsNothing(s.events, Completed(a.id, TextOf(Sort(a.blocks))), id);
      assert s.events + [] == s.events;
    }
  }

  /**
   * For every stream, well-formed or not, the deltas emitted for a message are the texts that came in for it, in order
   * and without loss.
   */
  lemma {:induction false} EverythingSaidIsStreamed(inputs: seq<Input>, id: string)
    ensures Tracks(Run(inputs), inputs) && Streamed(Run(inputs).events, id) == Said(inputs, id)
  {
    if inputs != [] {
      var front, last := inputs[..|inputs| - 1], inputs[|inputs| - 1];
      EverythingSaidIsStreamed(front, id);
      assert inputs == front + [last];
      ConsumeTracks(Run(front), front, last);
      ConsumeStreams(Run(front), front, last, id);
    }
  }

  /** The observer refuses a start without an id, an event outside a message, and text that belongs to no open block. */
  predicate Expected(front: seq<Input>, last: Input) {
    match last
    case Ignored => true
    case Failure => true
    case Snapshot(id, texts) =>
      texts == [] ||
      (Current(front) == Some(id) && OpenBlock(front).Some? && OpenBlock(front).value in TextBlocks(front))
    case MessageStart(id) => id != ""
    case TextDelta(index, _) => Current(front).Some? && OpenBlock(front) == Some(index) && index in TextBlocks(front)
    case _ => Current(front).Some?
  }

  lemma RefusedExactlyWhenUnexpected(front: seq<Input>, last: Input)
    ensures Consume(Run(front), last).1 <==> Expected(front, last)
  {
    EverythingSaidIsStreamed(front, "");
  }

  /**
   * The end of a message completes it exactly when text was started in it and no failure was reported, and on a
   * well-formed stream with all the text that came in for it. Nothing else completes a message.
   */
  lemma MessagesCompleteWithAllTheirText(front: seq<Input>, last: Input)
    ensures
      var s, s' := Run(front), Consume(Run(front), last).0;
      var done := last.MessageStop? && Current(front).Some? && TextBlocks(front) != {} && !FailedSince(front);
      && (done ==> exists text :: s'.events == s.events + [Completed(Current(front).value, text)]
                                  && (WellFormed(front) ==> text == Said(front, Current(front).value)))
      && (!done ==> forall e :: e in s'.events && e.Completed? ==> e in s.events)
  {
    var s := Run(front);
    EverythingSaidIsStreamed(front, "");
    OnlyStopsComplete(s, last);
    if s.active.Some? && WellFormed(front) {
      StoppedText(front);
    }
  }

  lemma OnlyStopsComplete(s: State, last: Input)
    ensures
      var s' := Consume(s, last).0;
      if last.MessageStop? && s.active.Some? && s.active.value.observed && !s.active.value.failed then
        s'.events == s.events + [Completed(s.active.value.id, TextOf(Sort(s.active.value.blocks)))]
      else forall e :: e in s'.events && e.Completed? ==> e in s.events
  {
  }

  lemma StoppedText(front: seq<Input>)
    requires WellFormed(front) && Run(front).active.Some?
    ensures
      var a := Run(front).active.value;
      TextOf(Sort(a.blocks)) == Said(front, a.id)
  {
    var a := Run(front).active.value;
    CompletedTextIsStreamed(front);
    RisingIsSorted(a.blocks);
    EverythingSaidIsStreamed(front, a.id);
  }

  /** A message is announced with its first text block, and at no other time. */
  lemma MessagesOpenWithTheirFirstText(front: seq<Input>, last: Input, id: string)
    ensures
      var more := Consume(Run(front), last).0.events[|Run(front).events|..];
      Opened(id) in more <==>
        last.BlockStart? && last.opening.Some? && Current(front) == Some(id) && TextBlocks(front) == {}
  {
    EverythingSaidIsStreamed(front, "");
    FirstTextOpens(Run(front), last, id);
  }

  lemma FirstTextOpens(s: State, last: Input, id: string)
    ensures
      Opened(id) in Consume(s, last).0.events[|s.events|..] <==>
        last.BlockStart? && last.opening.Some? && s.active.Some? && s.active.value.id == id && !s.active.value.observed
  {
    if last.BlockStart? && s.active.Some? {
      BlockOpens(s, s.active.value, last.index, last.opening, id);
    } else {
      NothingElseOpens(s, last, id);
    }
  }

  lemma BlockOpens(s: State, a: Active, index: int, opening: Option<string>, id: string)
    ensures
      Opened(id) in OnBlockStart(s, a, index, opening).events[|s.events|..] <==>
        opening.Some? && a.id == id && !a.observed
  {
    var s' := OnBlockStart(s, a, index, opening);
    if opening.Some? {
      var t := opening.value;
      var said := (if a.observed then [] else [Opened(a.id)]) + (if t == "" then [] else [Delta(a.id, t)]);
      assert s'.events == s.events + said && s'.events[|s.events|..] == said;
      assert !a.observed ==> said[0] == Opened(a.id);
    }
  }

  lemma NothingElseOpens(s: State, last: Input, id: string)
    requires last.BlockStart? ==> s.active.None?
    ensures Opened(id) !in Consume(s, last).0.events[|s.events|..]
  {
    if last.TextDelta? && s.active.Some? {
      assert s.events + [] == s.events;
    }
  }

  // ----- the object -----

  class MessageObserver {
    var active: Option<Active>
    /** Everything emitted so far. */
    var events: seq<Event>
    ghost var started: set<string>
    ghost var top: Option<int>

    constructor ()
      ensures Value() == START
    {
      active, events, started, top := None, [], {}, None;
    }

    ghost function Value(): State
      reads this
    {
      State(active, events, started, top)
    }

    method TakeSnapshot(id: string, texts: seq<string>) returns (ok: bool)
      modifies this
      ensures (Value(), ok) == OnSnapshot(old(Value()), id, texts)
    {
      if texts == [] {
        return true;
      }
      if active.None? || id != active.value.id || active.value.block.None? {
        return false;
      }
      var a := active.value;
      if Lookup(a.blocks, a.block.value).None? {
        return false;
      }
      active := Some(a.(blocks := Put(a.blocks, a.block.value, Concat(texts))));
      return true;
    }

    method StartBlock(index: int, opening: Option<string>)
      requires active.Some?
      modifies this
      ensures Value() == OnBlockStart(old(Value()), old(active).value, index, opening)
    {
      var a := active.value.(block := Some(index));
      top := Some(if top.Some? && top.value > index then top.value else index);
      assert events + [] == events && events + [] + [] == events;
      if opening.Some? {
        a := a.(blocks := Put(a.blocks, index, opening.value));
        if !a.observed {
          a := a.(observed := true);
          events := events + [Opened(a.id)];
        }
        assert events + [] == events;
        if opening.value != "" {
          events := events + [Delta(a.id, opening.value)];
        }
      }
      active := Some(a);
    }

    method AddDelta(index: int, text: string) returns (ok: bool)
      requires active.Some?
      modifies this
      ensures (Value(), ok) == OnDelta(old(Value()), old(active).value, index, text)
    {
      var a := active.value;
      var previous := Lookup(a.blocks, index);
      if previous.None? || a.block != Some(index) {
        return false;
      }
      active := Some(a.(blocks := Put(a.blocks, index, previous.value + text)));
      assert events + [] == events;
      if text != "" {
        events := events + [Delta(a.id, text)];
      }
      return true;
    }

    method ConsumeInput(input: Input) returns (ok: bool)
      modifies this
      ensures (Value(), ok) == Consume(old(Value()), input)
    {
      ok := true;
      match input {
        case Ignored =>
        case Failure =>
          if active.Some? {
            active := Some(active.value.(failed := true));
          }
        case Snapshot(id, texts) => ok := TakeSnapshot(id, texts);
        case MessageStart(id) =>
          if id == "" {
            return false;
          }
          active, started, top := Some(Active(id, [], None, false, false)), started + {id}, None;
        case BlockStart(index, opening) =>
          if active.None? {
            return false;
          }
          StartBlock(index, opening);
        case TextDelta(index, text) =>
          if active.None? {
            return false;
          }
          ok := AddDelta(index, text);
        case BlockStop =>
          if active.None? {
            return false;
          }
          active := Some(active.value.(block := None));
        case MessageStop =>
          if active.None? {
            return false;
          }
          var a := active.value;
          active := None;
          assert events + [] == events;
          if a.observed && !a.failed {
            events := events + [Completed(a.id, TextOf(Sort(a.blocks)))];
          }
        case OtherEvent => ok := active.Some?;
      }
    }
  }
}
