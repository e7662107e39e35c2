/**
 The server-sent-events decoder: bytes arrive in arbitrary chunks, events come out.
 Text is kept as UTF-8 bytes; `lossy` is the per-line lossy decoding.
 */
module Sse {
  import opened Prelude

  newtype Byte = x: int | 0 <= x < 256

  type Bytes = seq<Byte>

  const LF: Byte := 10
  const CR: Byte := 13
  const SPACE: Byte := 32
  const COLON: Byte := 58
  const DATA: Bytes := [100, 97, 116, 97, 58]        // "data:"
  const EVENT: Bytes := [101, 118, 101, 110, 116, 58] // "event:"

  const MAX_UPSTREAM_SSE_EVENT_BYTES: nat := 8 * 1024 * 1024

  datatype SseEvent = SseEvent(event: Option<Bytes>, data: Bytes)

  // ---- one line ----

  datatype Pending = Pending(event: Option<Bytes>, dataLines: seq<Bytes>)

  const NOTHING: Pending := Pending(None, [])

  datatype Emitted = Emitted(pending: Pending, events: seq<SseEvent>)

  function Unspaced(value: Bytes): Bytes {
    if value != [] && value[0] == SPACE then value[1..] else value
  }

  function Join(lines: seq<Bytes>): Bytes {
    if lines == [] then []
    else if |lines| == 1 then lines[0]
    else Join(lines[..|lines| - 1]) + [LF] + lines[|lines| - 1]
  }

  function Dispatch(p: Pending): Emitted {
    if p.dataLines == [] then Emitted(NOTHING, [])
    else Emitted(NOTHING, [SseEvent(p.event, Join(p.dataLines))])
  }

  function ProcessLine(p: Pending, line: Bytes): Emitted {
    if line == [] then Dispatch(p)
    else if line[0] == COLON then Emitted(p, [])
    else if DATA <= line then Emitted(p.(dataLines := p.dataLines + [Unspaced(line[|DATA|..])]), [])
    else if EVENT <= line then Emitted(p.(event := Some(Unspaced(line[|EVENT|..]))), [])
    else Emitted(p, [])
  }

  function ProcessLines(p: Pending, lines: seq<Bytes>): Emitted {
    if lines == [] then Emitted(p, [])
    else
      var before := ProcessLines(p, lines[..|lines| - 1]);
      var last := ProcessLine(before.pending, lines[|lines| - 1]);
      Emitted(last.pending, before.events + last.events)
  }

  function Size(lines: seq<Bytes>): nat {
    if lines == [] then 0 else Size(lines[..|lines| - 1]) + |lines[|lines| - 1]|
  }

  // ---- a whole input, split into lines ----

  function FirstBreak(bytes: Bytes): (i: nat)
    ensures i <= |bytes|
    ensures forall j | 0 <= j < i :: bytes[j] != LF
    ensures i < |bytes| ==> bytes[i] == LF
  {
    if bytes == [] || bytes[0] == LF then 0 else 1 + FirstBreak(bytes[1..])
  }

  function WithoutCr(line: Bytes): Bytes {
    if line != [] && line[|line| - 1] == CR then line[..|line| - 1] else line
  }

  /** The terminated lines of the input, without their line ends. */
  function Lines(bytes: Bytes): seq<Bytes>
    decreases |bytes|
  {
    var i := FirstBreak(bytes);
    if i == |bytes| then [] else [WithoutCr(bytes[..i])] + Lines(bytes[i + 1..])
  }

  /** What follows the last line end. */
  function Rest(bytes: Bytes): Bytes
    decreases |bytes|
  {
    var i := FirstBreak(bytes);
    if i == |bytes| then bytes else Rest(bytes[i + 1..])
  }

  function Decoded(lines: seq<Bytes>, lossy: Bytes -> Bytes): (r: seq<Bytes>)
    ensures |r| == |lines| && forall i | 0 <= i < |lines| :: r[i] == lossy(lines[i])
  {
    seq(|lines|, i requires 0 <= i < |lines| => lossy(lines[i]))
  }

  /** All lines a decoder sees over a whole input: the terminated ones, and at the end an unterminated one. */
  function AllLines(bytes: Bytes, lossy: Bytes -> Bytes): seq<Bytes> {
    Decoded(Lines(bytes), lossy) + if Rest(bytes) == [] then [] else [lossy(Rest(bytes))]
  }

  /**
   The events of a whole input, by blocks: an empty line ends a block, as does the end of the input, and a
   block with a data field yields one event, its data fields joined by line feeds under its last event name.
   */
  function BlockData(block: seq<Bytes>): seq<Bytes> {
    if block == [] then []
    else
      var line := block[|block| - 1];
      BlockData(block[..|block| - 1])
      + if DATA <= line then [Unspaced(line[|DATA|..])] else []
  }

  function BlockName(block: seq<Bytes>): Option<Bytes> {
    if block == [] then None
    else
      var line := block[|block| - 1];
      if EVENT <= line then Some(Unspaced(line[|EVENT|..])) else BlockName(block[..|block| - 1])
  }

  function BlockEvents(block: seq<Bytes>): seq<SseEvent> {
    if BlockData(block) == [] then [] else [SseEvent(BlockName(block), Join(BlockData(block)))]
  }

  /** The last block: everything after the last empty line. */
  function LastBlock(lines: seq<Bytes>): seq<Bytes> {
    if lines == [] || lines[|lines| - 1] == [] then [] else LastBlock(lines[..|lines| - 1]) + [lines[|lines| - 1]]
  }

  /** The events of the blocks already ended by an empty line. */
  function EndedEvents(lines: seq<Bytes>): seq<SseEvent> {
    if lines == [] then []
    else
      var before := lines[..|lines| - 1];
      EndedEvents(before) + if lines[|lines| - 1] == [] then BlockEvents(LastBlock(before)) else []
  }

  function EventsOf(bytes: Bytes, lossy: Bytes -> Bytes): seq<SseEvent> {
    var lines := AllLines(bytes, lossy);
    EndedEvents(lines) + BlockEvents(LastBlock(lines))
  }

  // ---- the line processor is the block reading ----

  lemma PrefixHeads(line: Bytes)
    ensures DATA <= line ==> line != [] && line[0] == 100
    ensures EVENT <= line ==> line != [] && line[0] == 101
  {
    if DATA <= line {
      assert line[0] == DATA[0];
    }
    if EVENT <= line {
      assert line[0] == EVENT[0];
    }
  }

  lemma {:induction false} LinesAreBlocks(lines: seq<Bytes>)
    ensures ProcessLines(NOTHING, lines)
         == Emitted(Pending(BlockName(LastBlock(lines)), BlockData(LastBlock(lines))), EndedEvents(lines))
  {
    if lines != [] {
      var n := |lines| - 1;
      var line := lines[n];
      LinesAreBlocks(lines[..n]);
      var block := LastBlock(lines[..n]);
      LineInBlock(block, line);
      assert LastBlock(lines) == if line == [] then [] else block + [line];
      assert EndedEvents(lines) == EndedEvents(lines[..n]) + if line == [] then BlockEvents(block) else [];
      hide LastBlock, EndedEvents, BlockEvents, BlockName, BlockData, ProcessLine;
    }
  }

  /** One line, processed after the lines of its block: an empty one yields the block's event, another joins the block. */
  lemma LineInBlock(block: seq<Bytes>, line: Bytes)
    ensures var p := Pending(BlockName(block), BlockData(block)); var more := block + [line];
            ProcessLine(p, line) == if line == [] then Emitted(Pending(BlockName([]), BlockData([])), BlockEvents(block))
                                    else Emitted(Pending(BlockName(more), BlockData(more)), [])
  {
    PrefixHeads(line);
    assert (block + [line])[..|block|] == block;
    assert BlockData(block) + [] == BlockData(block);
  }

  lemma {:induction false} ProcessConcat(p: Pending, a: seq<Bytes>, b: seq<Bytes>)
    ensures var e := ProcessLines(p, a); var f := ProcessLines(e.pending, b);
            ProcessLines(p, a + b) == Emitted(f.pending, e.events + f.events)
    decreases |b|
  {
    if b == [] {
      assert a + b == a;
    } else {
      var n := |b| - 1;
      ProcessConcat(p, a, b[..n]);
      assert (a + b)[..|a + b| - 1] == a + b[..n];
    }
  }

  // ---- splitting does not depend on where a chunk ends ----

  lemma FirstBreakAt(bytes: Bytes, i: nat)
    requires i <= |bytes| && (forall j | 0 <= j < i :: bytes[j] != LF) && (i < |bytes| ==> bytes[i] == LF)
    ensures FirstBreak(bytes) == i
  {
  }

  predicate OneLine(bytes: Bytes) {
    forall i | 0 <= i < |bytes| :: bytes[i] != LF
  }

  lemma LineThenBreak(line: Bytes, more: Bytes)
    requires OneLine(line)
    ensures Lines(line + [LF] + more) == [WithoutCr(line)] + Lines(more)
    ensures Rest(line + [LF] + more) == Rest(more)
  {
    var all := line + [LF] + more;
    assert all[|line|] == LF && forall j | 0 <= j < |line| :: all[j] == line[j];
    FirstBreakAt(all, |line|);
    assert all[..|line|] == line && all[|line| + 1..] == more;
  }

  lemma {:induction false} SplitConcat(a: Bytes, b: Bytes)
    ensures Lines(a + b) == Lines(a) + Lines(Rest(a) + b)
    ensures Rest(a + b) == Rest(Rest(a) + b)
    decreases |a|
  {
    var i := FirstBreak(a);
    if i < |a| {
      hide Lines, Rest;
      var line, tail := a[..i], a[i + 1..];
      assert a == line + [LF] + tail;
      assert a + b == line + [LF] + (tail + b);
      LineThenBreak(line, tail);
      LineThenBreak(line, tail + b);
      SplitConcat(tail, b);
      Associate(WithoutCr(line), Lines(tail), Lines(Rest(tail) + b));
    }
  }

  lemma Associate(line: Bytes, a: seq<Bytes>, b: seq<Bytes>)
    ensures [line] + a + b == [line] + (a + b)
  {
  }

  // ---- the decoder over a list of chunks ----

  datatype Decoder = Decoder(buffer: Bytes, pending: Pending)

  const NEW_DECODER: Decoder := Decoder([], NOTHING)

  predicate SizeFits(p: Pending, lines: seq<Bytes>) {
    Size(ProcessLines(p, lines).pending.dataLines) <= MAX_UPSTREAM_SSE_EVENT_BYTES
  }

  /** The buffered data lines never exceed the limit after any of the lines. */
  predicate Fits(p: Pending, lines: seq<Bytes>) {
    forall i | 0 < i <= |lines| :: SizeFits(p, lines[..i])
  }

  predicate PushFits(d: Decoder, chunk: Bytes, lossy: Bytes -> Bytes) {
    |d.buffer| + |chunk| <= MAX_UPSTREAM_SSE_EVENT_BYTES && Fits(d.pending, Decoded(Lines(d.buffer + chunk), lossy))
  }

  datatype Step = Step(decoder: Decoder, events: seq<SseEvent>)

  function Pushed(d: Decoder, chunk: Bytes, lossy: Bytes -> Bytes): Step {
    var e := ProcessLines(d.pending, Decoded(Lines(d.buffer + chunk), lossy));
    Step(Decoder(Rest(d.buffer + chunk), e.pending), e.events)
  }

  /** The end of the stream: an unterminated line counts as a line, an unfinished event is sent. */
  function AtEnd(d: Decoder, lossy: Bytes -> Bytes): Emitted {
    if d.buffer == [] then Emitted(d.pending, []) else ProcessLine(d.pending, lossy(d.buffer))
  }

  function FinishEvents(d: Decoder, lossy: Bytes -> Bytes): seq<SseEvent> {
    AtEnd(d, lossy).events + Dispatch(AtEnd(d, lossy).pending).events
  }

  predicate FinishFits(d: Decoder, lossy: Bytes -> Bytes) {
    Size(AtEnd(d, lossy).pending.dataLines) <= MAX_UPSTREAM_SSE_EVENT_BYTES
  }

  function Concat(chunks: seq<Bytes>): Bytes {
    if chunks == [] then [] else Concat(chunks[..|chunks| - 1]) + chunks[|chunks| - 1]
  }

  /** The decoder after pushing all chunks, if every push stayed within the limit. */
  function PushAll(chunks: seq<Bytes>, lossy: Bytes -> Bytes): Option<Step> {
    if chunks == [] then Some(Step(NEW_DECODER, []))
    else
      var before := PushAll(chunks[..|chunks| - 1], lossy);
      if before.None? || !PushFits(before.value.decoder, chunks[|chunks| - 1], lossy) then None
      else
        var now := Pushed(before.value.decoder, chunks[|chunks| - 1], lossy);
        Some(Step(now.decoder, before.value.events + now.events))
  }

  /** Pushing every chunk and finishing. */
  function Decode(chunks: seq<Bytes>, lossy: Bytes -> Bytes): Option<seq<SseEvent>> {
    var all := PushAll(chunks, lossy);
    if all.None? || !FinishFits(all.value.decoder, lossy) then None
    else Some(all.value.events + FinishEvents(all.value.decoder, lossy))
  }

  lemma DecodedConcat(a: seq<Bytes>, b: seq<Bytes>, lossy: Bytes -> Bytes)
    ensures Decoded(a + b, lossy) == Decoded(a, lossy) + Decoded(b, lossy)
  {
  }

  lemma NothingRead(lossy: Bytes -> Bytes)
    ensures Rest([]) == [] && Decoded(Lines([]), lossy) == [] && ProcessLines(NOTHING, []) == Emitted(NOTHING, [])
  {
  }

  lemma {:induction false} PushAllSplits(chunks: seq<Bytes>, lossy: Bytes -> Bytes)
    requires PushAll(chunks, lossy).Some?
    ensures var s := PushAll(chunks, lossy).value; var all := Concat(chunks);
            && s.decoder.buffer == Rest(all)
            && Emitted(s.decoder.pending, s.events) == ProcessLines(NOTHING, Decoded(Lines(all), lossy))
  {
    hide Lines, Rest, ProcessLines, Decoded;
    if chunks != [] {
      var n := |chunks| - 1;
      var before := Concat(chunks[..n]);
      PushAllSplits(chunks[..n], lossy);
      SplitConcat(before, chunks[n]);
      var d := PushAll(chunks[..n], lossy).value.decoder;
      DecodedConcat(Lines(before), Lines(d.buffer + chunks[n]), lossy);
      ProcessConcat(NOTHING, Decoded(Lines(before), lossy), Decoded(Lines(d.buffer + chunks[n]), lossy));
    } else {
      NothingRead(lossy);
    }
  }

  /** However the bytes were cut, decoding within the limit yields the events of the whole input. */
  lemma DecodeIsWholeInput(chunks: seq<Bytes>, lossy: Bytes -> Bytes)
    requires Decode(chunks, lossy).Some?
    ensures Decode(chunks, lossy).value == EventsOf(Concat(chunks), lossy)
  {
    var all := Concat(chunks);
    var d := PushAll(chunks, lossy).value.decoder;
    PushAllSplits(chunks, lossy);
    var lines := Decoded(Lines(all), lossy);
    LinesAreBlocks(AllLines(all, lossy));
    if d.buffer != [] {
      ProcessConcat(NOTHING, lines, [lossy(d.buffer)]);
      assert [lossy(d.buffer)][..0] == [];
    } else {
      assert lines + [] == lines;
    }
  }

  /** Two chunkings of the same bytes that both stay within the limit decode alike. */
  lemma ChunkingIsInvisible(a: seq<Bytes>, b: seq<Bytes>, lossy: Bytes -> Bytes)
    requires Concat(a) == Concat(b) && Decode(a, lossy).Some? && Decode(b, lossy).Some?
    ensures Decode(a, lossy) == Decode(b, lossy)
  {
    DecodeIsWholeInput(a, lossy);
    DecodeIsWholeInput(b, lossy);
  }

  // ---- frames the gateway writes itself ----

  /** An event the gateway writes always has a name. */
  type Sent = e: SseEvent | e.event.Some? witness SseEvent(Some([]), [])

  function NameLine(f: Sent): Bytes { EVENT + [SPACE] + f.event.value }

  function DataLine(f: Sent): Bytes { DATA + [SPACE] + f.data }

  function SseFrame(f: Sent): Bytes {
    NameLine(f) + [LF] + DataLine(f) + [LF] + [LF]
  }

  predicate EndsWithCr(bytes: Bytes) {
    bytes != [] && bytes[|bytes| - 1] == CR
  }

  /** Lossy decoding changes nothing in the frame's own lines, which are valid text. */
  predicate Faithful(f: Sent, lossy: Bytes -> Bytes) {
    lossy([]) == [] && lossy(WithoutCr(NameLine(f))) == WithoutCr(NameLine(f)) && lossy(WithoutCr(DataLine(f))) == WithoutCr(DataLine(f))
  }

  lemma FrameLines(f: Sent, more: Bytes)
    requires OneLine(f.event.value) && OneLine(f.data)
    ensures Lines(SseFrame(f) + more) == [WithoutCr(NameLine(f)), WithoutCr(DataLine(f)), []] + Lines(more)
    ensures Rest(SseFrame(f) + more) == Rest(more)
  {
    hide Lines, Rest;
    var empty: Bytes := [];
    var last := empty + [LF] + more;
    var tail := DataLine(f) + [LF] + last;
    assert SseFrame(f) + more == NameLine(f) + [LF] + tail;
    assert OneLine(NameLine(f)) && OneLine(DataLine(f));
    hide NameLine, DataLine, SseFrame;
    LineThenBreak(NameLine(f), tail);
    LineThenBreak(DataLine(f), last);
    LineThenBreak(empty, more);
    ThreeLines(WithoutCr(NameLine(f)), WithoutCr(DataLine(f)), WithoutCr(empty), Lines(more));
  }

  lemma ThreeLines(a: Bytes, b: Bytes, c: Bytes, more: seq<Bytes>)
    ensures [a] + ([b] + ([c] + more)) == [a, b, c] + more
  {
  }

  function SentBytes(fs: seq<Sent>): Bytes {
    if fs == [] then [] else SseFrame(fs[0]) + SentBytes(fs[1..])
  }

  function Received(f: Sent): SseEvent {
    SseEvent(Some(WithoutCr(f.event.value)), WithoutCr(f.data))
  }

  function ReceivedAll(fs: seq<Sent>): (r: seq<SseEvent>)
    ensures |r| == |fs| && forall i | 0 <= i < |fs| :: r[i] == Received(fs[i])
  {
    seq(|fs|, i requires 0 <= i < |fs| => Received(fs[i]))
  }

  lemma FieldLine(prefix: Bytes, value: Bytes)
    requires prefix != [] && prefix[|prefix| - 1] != CR
    ensures WithoutCr(prefix + [SPACE] + value) == prefix + ([SPACE] + WithoutCr(value))
  {
    assert prefix + [SPACE] + value == prefix + ([SPACE] + value);
  }

  lemma UnspacedField(value: Bytes)
    ensures Unspaced([SPACE] + value) == value
  {
  }

  lemma NameLineProcessed(p: Pending, value: Bytes)
    ensures ProcessLine(p, EVENT + ([SPACE] + value)) == Emitted(p.(event := Some(value)), [])
  {
    var line := EVENT + ([SPACE] + value);
    PrefixHeads(line);
    UnspacedField(value);
    assert line[|EVENT|..] == [SPACE] + value;
  }

  lemma DataLineProcessed(p: Pending, value: Bytes)
    ensures ProcessLine(p, DATA + ([SPACE] + value)) == Emitted(p.(dataLines := p.dataLines + [value]), [])
  {
    var line := DATA + ([SPACE] + value);
    PrefixHeads(line);
    UnspacedField(value);
    assert line[|DATA|..] == [SPACE] + value;
  }

  lemma ThreeProcessed(p: Pending, a: Bytes, b: Bytes, c: Bytes)
    ensures var e := ProcessLine(p, a); var f := ProcessLine(e.pending, b); var g := ProcessLine(f.pending, c);
            ProcessLines(p, [a, b, c]) == Emitted(g.pending, e.events + f.events + g.events)
  {
    hide ProcessLine;
    assert [a, b, c][..2] == [a, b] && [a, b][..1] == [a] && [a][..0] == [];
    assert ProcessLines(p, [a]) == ProcessLine(p, a);
  }

  lemma FrameYields(f: Sent)
    ensures ProcessLines(NOTHING, [WithoutCr(NameLine(f)), WithoutCr(DataLine(f)), []]) == Emitted(NOTHING, [Received(f)])
  {
    var name, data := WithoutCr(f.event.value), WithoutCr(f.data);
    FieldLine(EVENT, f.event.value);
    FieldLine(DATA, f.data);
    NameLineProcessed(NOTHING, name);
    DataLineProcessed(Pending(Some(name), []), data);
    ThreeProcessed(NOTHING, WithoutCr(NameLine(f)), WithoutCr(DataLine(f)), []);
    hide ProcessLines;
    assert ProcessLine(Pending(Some(name), [data]), []) == Emitted(NOTHING, [Received(f)]);
  }

  predicate Sendable(fs: seq<Sent>, lossy: Bytes -> Bytes) {
    forall i | 0 <= i < |fs| :: OneLine(fs[i].event.value) && OneLine(fs[i].data) && Faithful(fs[i], lossy)
  }

  lemma FirstFrameYields(f: Sent, more: Bytes, lossy: Bytes -> Bytes)
    requires OneLine(f.event.value) && OneLine(f.data) && Faithful(f, lossy)
    ensures var rest := ProcessLines(NOTHING, Decoded(Lines(more), lossy));
            && Rest(SseFrame(f) + more) == Rest(more)
            && ProcessLines(NOTHING, Decoded(Lines(SseFrame(f) + more), lossy)) == Emitted(rest.pending, [Received(f)] + rest.events)
  {
    var own := [WithoutCr(NameLine(f)), WithoutCr(DataLine(f)), []];
    assert Decoded(own, lossy) == own;
    hide Lines, Rest, ProcessLines, Decoded, SseFrame;
    FrameYields(f);
    FrameLines(f, more);
    DecodedConcat(own, Lines(more), lossy);
    ProcessConcat(NOTHING, own, Decoded(Lines(more), lossy));
  }

  lemma FirstReceived(fs: seq<Sent>)
    requires fs != []
    ensures [Received(fs[0])] + ReceivedAll(fs[1..]) == ReceivedAll(fs)
  {
    hide Received;
  }

  lemma {:induction false} FramesYield(fs: seq<Sent>, lossy: Bytes -> Bytes)
    requires Sendable(fs, lossy)
    ensures Rest(SentBytes(fs)) == []
    ensures ProcessLines(NOTHING, Decoded(Lines(SentBytes(fs)), lossy)) == Emitted(NOTHING, ReceivedAll(fs))
  {
    if fs == [] {
      NothingRead(lossy);
    } else {
      hide Lines, Rest, ProcessLines, Decoded, SseFrame, Faithful;
      assert Sendable(fs[1..], lossy);
      FramesYield(fs[1..], lossy);
      FirstFrameYields(fs[0], SentBytes(fs[1..]), lossy);
      FirstReceived(fs);
    }
  }

  /**
   Frames the gateway wrote, cut anywhere, decode to one event each; the events are exactly what was written
   if and only if no event name and no payload ends in a carriage return.
   */
  lemma FramesRoundTrip(fs: seq<Sent>, chunks: seq<Bytes>, lossy: Bytes -> Bytes)
    requires Sendable(fs, lossy)
    requires Concat(chunks) == SentBytes(fs) && Decode(chunks, lossy).Some?
    ensures Decode(chunks, lossy).value == ReceivedAll(fs)
    ensures Decode(chunks, lossy).value == fs <==> forall f | f in fs :: !EndsWithCr(f.event.value) && !EndsWithCr(f.data)
  {
    WrittenDecodes(fs, chunks, lossy);
    hide *;
    AllReceivedAsWritten(fs);
  }

  lemma WrittenDecodes(fs: seq<Sent>, chunks: seq<Bytes>, lossy: Bytes -> Bytes)
    requires Sendable(fs, lossy)
    requires Concat(chunks) == SentBytes(fs) && Decode(chunks, lossy).Some?
    ensures Decode(chunks, lossy).value == ReceivedAll(fs)
  {
    DecodeIsWholeInput(chunks, lossy);
    FramesYield(fs, lossy);
    var lines := Decoded(Lines(SentBytes(fs)), lossy);
    LinesAreBlocks(lines);
    assert AllLines(SentBytes(fs), lossy) == lines;
    assert BlockEvents(LastBlock(lines)) == [];
  }

  lemma AllReceivedAsWritten(fs: seq<Sent>)
    ensures ReceivedAll(fs) == fs <==> forall f | f in fs :: !EndsWithCr(f.event.value) && !EndsWithCr(f.data)
  {
    forall i | 0 <= i < |fs| ensures Received(fs[i]) == fs[i] <==> !EndsWithCr(fs[i].event.value) && !EndsWithCr(fs[i].data) {
    }
    var r := ReceivedAll(fs);
    hide Received, EndsWithCr;
    if r == fs {
      forall f | f in fs ensures !EndsWithCr(f.event.value) && !EndsWithCr(f.data) {
        var i :| 0 <= i < |fs| && fs[i] == f;
        assert r[i] == Received(fs[i]);
      }
    }
  }

  // ---- the decoder as the program runs it ----

  class SseDecoder {
    const lossy: Bytes -> Bytes
    var buffer: Bytes
    var event: Option<Bytes>
    var dataLines: seq<Bytes>
    var dataBytes: nat

    function View(): Decoder
      reads this
    {
      Decoder(buffer, Pending(event, dataLines))
    }

    /** The running count is the size of the pending data lines, and no finished line waits in the buffer. */
    ghost predicate Valid()
      reads this
    {
      dataBytes == Size(dataLines) && OneLine(buffer)
    }

    constructor (lossy: Bytes -> Bytes)
      ensures Valid() && View() == NEW_DECODER && this.lossy == lossy
    {
      this.lossy := lossy;
      buffer, event, dataLines, dataBytes := [], None, [], 0;
    }

    method Clear()
      modifies this
      ensures Valid() && View() == NEW_DECODER
    {
      buffer, event, dataLines, dataBytes := [], None, [], 0;
    }

    method DispatchPending() returns (events: seq<SseEvent>)
      requires dataBytes == Size(dataLines)
      modifies this`event, this`dataLines, this`dataBytes
      ensures dataBytes == Size(dataLines)
      ensures Emitted(View().pending, events) == Dispatch(old(View()).pending)
    {
      if dataLines == [] {
        event := None;
        return [];
      }
      events := [SseEvent(event, Join(dataLines))];
      event, dataLines, dataBytes := None, [], 0;
    }

    method TakeLine(line: Bytes) returns (events: seq<SseEvent>)
      requires dataBytes == Size(dataLines)
      modifies this`event, this`dataLines, this`dataBytes
      ensures dataBytes == Size(dataLines)
      ensures Emitted(View().pending, events) == ProcessLine(old(View()).pending, line)
    {
      events := [];
      if line == [] {
        events := DispatchPending();
      } else if line[0] == COLON {
      } else if DATA <= line {
        var value := Unspaced(line[|DATA|..]);
        dataBytes := dataBytes + |value|;
        dataLines := dataLines + [value];
        assert dataLines[..|dataLines| - 1] == old(dataLines);
      } else if EVENT <= line {
        event := Some(Unspaced(line[|EVENT|..]));
      }
    }

    /** `None` means the limit was exceeded; the decoder is then empty. */
    method Push(chunk: Bytes) returns (r: Option<seq<SseEvent>>)
      requires Valid()
      modifies this
      ensures Valid()
      ensures r.Some? <==> PushFits(old(View()), chunk, lossy)
      ensures r.Some? ==> Step(View(), r.value) == Pushed(old(View()), chunk, lossy)
      ensures r.None? ==> View() == NEW_DECODER
    {
      if |buffer| + |chunk| > MAX_UPSTREAM_SSE_EVENT_BYTES {
        Clear();
        return None;
      }
      buffer := buffer + chunk;
      ghost var input, start := buffer, old(View()).pending;
      hide Lines, Rest, ProcessLine, Fits, Decoded;
      assert ProcessLines(start, []) == Emitted(start, []) && Fits(start, []) by { NoLinesFit(start); }
      hide ProcessLines;
      ghost var done: seq<Bytes> := [];
      var events: seq<SseEvent> := [];
      var position := FirstBreak(buffer);
      while position < |buffer|
        invariant position == FirstBreak(buffer)
        invariant dataBytes == Size(dataLines)
        invariant Decoded(Lines(input), lossy) == done + Decoded(Lines(buffer), lossy) && Rest(input) == Rest(buffer)
        invariant Emitted(View().pending, events) == ProcessLines(start, done)
        invariant Fits(start, done)
        decreases |buffer|
      {
        var line := WithoutCr(buffer[..position]);
        ghost var was := buffer;
        buffer := buffer[position + 1..];
        NextLine(was, position, lossy);
        var more := TakeLine(lossy(line));
        events := events + more;
        OneMoreLine(start, done, lossy(line), Decoded(Lines(buffer), lossy));
        if dataBytes > MAX_UPSTREAM_SSE_EVENT_BYTES {
          Clear();
          return None;
        }
        done := done + [lossy(line)];
        position := FirstBreak(buffer);
      }
      assert OneLine(buffer);
      LastLine(buffer, lossy);
      assert done + [] == done;
      return Some(events);
    }

    /** At most one event: the one left unfinished. */
    method Finish() returns (r: Option<seq<SseEvent>>)
      requires Valid()
      modifies this
      ensures Valid()
      ensures r.Some? <==> FinishFits(old(View()), lossy)
      ensures r.Some? ==> r.value == FinishEvents(old(View()), lossy)
      ensures r.Some? && (forall b: Bytes :: b != [] ==> lossy(b) != []) ==> |r.value| <= 1
    {
      var events: seq<SseEvent> := [];
      if buffer != [] {
        var line := lossy(buffer);
        buffer := [];
        events := TakeLine(line);
      }
      if dataBytes > MAX_UPSTREAM_SSE_EVENT_BYTES {
        Clear();
        return None;
      }
      var last := DispatchPending();
      return Some(events + last);
    }
  }

  lemma NoLinesFit(p: Pending)
    ensures ProcessLines(p, []) == Emitted(p, []) && Fits(p, [])
  {
  }

  lemma NextLine(bytes: Bytes, position: nat, lossy: Bytes -> Bytes)
    requires position == FirstBreak(bytes) < |bytes|
    ensures Decoded(Lines(bytes), lossy) == [lossy(WithoutCr(bytes[..position]))] + Decoded(Lines(bytes[position + 1..]), lossy)
    ensures Rest(bytes) == Rest(bytes[position + 1..])
  {
  }

  lemma LastLine(bytes: Bytes, lossy: Bytes -> Bytes)
    requires FirstBreak(bytes) == |bytes|
    ensures Decoded(Lines(bytes), lossy) == [] && Rest(bytes) == bytes
  {
  }

  lemma ProcessOneMore(p: Pending, done: seq<Bytes>, line: Bytes)
    ensures var e := ProcessLines(p, done); var f := ProcessLine(e.pending, line);
            ProcessLines(p, done + [line]) == Emitted(f.pending, e.events + f.events)
  {
    assert (done + [line])[..|done|] == done;
    hide ProcessLine;
  }

  lemma FitsOneMore(p: Pending, done: seq<Bytes>, line: Bytes)
    requires Fits(p, done) && SizeFits(p, done + [line])
    ensures Fits(p, done + [line])
  {
    var more := done + [line];
    forall i | 0 < i <= |more| ensures SizeFits(p, more[..i]) {
      if i == |more| {
        assert more[..i] == more;
      } else {
        assert more[..i] == done[..i];
      }
    }
  }

  lemma TooLarge(p: Pending, part: seq<Bytes>, todo: seq<Bytes>)
    requires part != [] && !SizeFits(p, part)
    ensures !Fits(p, part + todo)
  {
    assert (part + todo)[..|part|] == part;
  }

  /** One more line processed: whether it fits decides both for it and for the whole input. */
  lemma OneMoreLine(p: Pending, done: seq<Bytes>, line: Bytes, todo: seq<Bytes>)
    requires Fits(p, done)
    ensures done + ([line] + todo) == done + [line] + todo
    ensures var e := ProcessLines(p, done); var f := ProcessLine(e.pending, line);
            && ProcessLines(p, done + [line]) == Emitted(f.pending, e.events + f.events)
            && (Size(f.pending.dataLines) <= MAX_UPSTREAM_SSE_EVENT_BYTES ==> Fits(p, done + [line]))
            && (Size(f.pending.dataLines) > MAX_UPSTREAM_SSE_EVENT_BYTES ==> !Fits(p, done + ([line] + todo)))
  {
    assert done + ([line] + todo) == done + [line] + todo;
    ProcessOneMore(p, done, line);
    hide ProcessLine, ProcessLines, Fits;
    if SizeFits(p, done + [line]) {
      FitsOneMore(p, done, line);
    } else {
      TooLarge(p, done + [line], todo);
    }
  }

  /** Decoding a list of chunks with the running decoder. */
  method DecodeChunks(chunks: seq<Bytes>, lossy: Bytes -> Bytes) returns (r: Option<seq<SseEvent>>)
    ensures r == Decode(chunks, lossy)
    ensures r.Some? ==> r.value == EventsOf(Concat(chunks), lossy)
  {
    var decoder := new SseDecoder(lossy);
    var events: seq<SseEvent> := [];
    assert chunks[..0] == [];
    for i := 0 to |chunks|
      invariant decoder.Valid() && decoder.lossy == lossy && fresh(decoder)
      invariant PushAll(chunks[..i], lossy) == Some(Step(decoder.View(), events))
    {
      assert chunks[..i + 1][..i] == chunks[..i];
      var more := decoder.Push(chunks[i]);
      if more.None? {
        NeverAgain(chunks, i + 1, lossy);
        return None;
      }
      events := events + more.value;
    }
    assert chunks[..|chunks|] == chunks;
    var last := decoder.Finish();
    if last.None? {
      return None;
    }
    DecodeIsWholeInput(chunks, lossy);
    return Some(events + last.value);
  }

  lemma {:induction false} NeverAgain(chunks: seq<Bytes>, i: nat, lossy: Bytes -> Bytes)
    requires i <= |chunks| && PushAll(chunks[..i], lossy).None?
    ensures PushAll(chunks, lossy).None?
  {
    if i == |chunks| {
      assert chunks[..i] == chunks;
    } else {
      assert chunks[..|chunks| - 1][..i] == chunks[..i];
      NeverAgain(chunks[..|chunks| - 1], i, lossy);
    }
  }
}
