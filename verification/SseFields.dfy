/**
 Events as others may write them: fields with or without a space after the colon, several data fields, several names,
 comments, either line end, any chunking. What the decoder makes of them is said on the fields alone.
 */
module SseFields {
  import opened Prelude
  import opened Sse

  datatype Field = DataField(space: bool, value: Bytes) | NameField(space: bool, value: Bytes) | Comment(text: Bytes)

  function Gap(space: bool): Bytes {
    if space then [SPACE] else []
  }

  function LineOf(f: Field): Bytes {
    match f
    case DataField(space, value) => DATA + (Gap(space) + value)
    case NameField(space, value) => EVENT + (Gap(space) + value)
    case Comment(text) => [COLON] + text
  }

  predicate Starts(bytes: Bytes, b: Byte) {
    bytes != [] && bytes[0] == b
  }

  /** One line that does not end in a carriage return of its own; a value written without a space has none in front. */
  predicate Clean(f: Field) {
    && OneLine(LineOf(f)) && !EndsWithCr(LineOf(f))
    && (!f.Comment? && !f.space ==> !Starts(f.value, SPACE))
  }

  function End(crlf: bool): Bytes {
    if crlf then [CR, LF] else [LF]
  }

  /** The lines of an event, and the empty one that ends it. */
  function EventBytes(fields: seq<Field>, crlf: bool): Bytes {
    if fields == [] then End(crlf) else LineOf(fields[0]) + End(crlf) + EventBytes(fields[1..], crlf)
  }

  function AllBytes(events: seq<seq<Field>>, crlf: bool): Bytes {
    if events == [] then [] else EventBytes(events[0], crlf) + AllBytes(events[1..], crlf)
  }

  // ---- what is received ----

  function Values(fields: seq<Field>): seq<Bytes> {
    if fields == [] then []
    else
      var last := fields[|fields| - 1];
      Values(fields[..|fields| - 1]) + if last.DataField? then [last.value] else []
  }

  /** The last name given, if any was. */
  function NameIn(fields: seq<Field>): Option<Bytes> {
    if fields == [] then None
    else
      var last := fields[|fields| - 1];
      if last.NameField? then Some(last.value) else NameIn(fields[..|fields| - 1])
  }

  /** The values one after the other, with a line feed between two of them. */
  function Glued(values: seq<Bytes>): Bytes {
    if values == [] then [] else if |values| == 1 then values[0] else values[0] + [LF] + Glued(values[1..])
  }

  /** An event without data is none. */
  function EventIn(fields: seq<Field>): seq<SseEvent> {
    if Values(fields) == [] then [] else [SseEvent(NameIn(fields), Glued(Values(fields)))]
  }

  function EventsIn(events: seq<seq<Field>>): seq<SseEvent> {
    if events == [] then [] else EventIn(events[0]) + EventsIn(events[1..])
  }

  // ---- one event ----

  function LinesOf(fields: seq<Field>): (r: seq<Bytes>)
    ensures |r| == |fields| && forall i | 0 <= i < |r| :: r[i] == LineOf(fields[i])
  {
    seq(|fields|, i requires 0 <= i < |fields| => LineOf(fields[i]))
  }

  lemma GapIsSkipped(space: bool, value: Bytes)
    requires !space ==> !Starts(value, SPACE)
    ensures Unspaced(Gap(space) + value) == value
  {
    if !space {
      assert Gap(space) + value == value;
    }
  }

  lemma FieldProcessed(p: Pending, f: Field)
    requires Clean(f)
    ensures ProcessLine(p, LineOf(f))
         == Emitted(match f
                    case DataField(_, value) => p.(dataLines := p.dataLines + [value])
                    case NameField(_, value) => p.(event := Some(value))
                    case Comment(_) => p, [])
  {
    var line := LineOf(f);
    PrefixHeads(line);
    match f {
      case DataField(space, value) =>
        assert line[|DATA|..] == Gap(space) + value;
        GapIsSkipped(space, value);
      case NameField(space, value) =>
        assert line[|EVENT|..] == Gap(space) + value;
        GapIsSkipped(space, value);
      case Comment(_) =>
    }
  }

  lemma {:induction false} FieldsProcessed(fields: seq<Field>)
    requires forall f | f in fields :: Clean(f)
    ensures ProcessLines(NOTHING, LinesOf(fields)) == Emitted(Pending(NameIn(fields), Values(fields)), [])
  {
    if fields != [] {
      var n := |fields| - 1;
      FieldsProcessed(fields[..n]);
      assert LinesOf(fields)[..n] == LinesOf(fields[..n]);
      FieldProcessed(Pending(NameIn(fields[..n]), Values(fields[..n])), fields[n]);
      hide LinesOf, LineOf, ProcessLine, Clean;
    }
  }

  lemma {:induction false} GluedMore(values: seq<Bytes>, last: Bytes)
    requires values != []
    ensures Glued(values + [last]) == Glued(values) + [LF] + last
  {
    var all := values + [last];
    assert all[1..] == values[1..] + [last] && all[0] == values[0];
    if |values| == 1 {
      assert values[1..] == [] && all[1..] == [last];
    } else {
      GluedMore(values[1..], last);
      assert values[0] + [LF] + (Glued(values[1..]) + [LF] + last) == values[0] + [LF] + Glued(values[1..]) + [LF] + last;
    }
  }

  lemma {:induction false} JoinIsGlued(values: seq<Bytes>)
    ensures Join(values) == Glued(values)
  {
    if |values| > 1 {
      var n := |values| - 1;
      JoinIsGlued(values[..n]);
      GluedMore(values[..n], values[n]);
      assert values == values[..n] + [values[n]];
    }
  }

  lemma EventProcessed(fields: seq<Field>)
    requires forall f | f in fields :: Clean(f)
    ensures ProcessLines(NOTHING, LinesOf(fields) + [[]]) == Emitted(NOTHING, EventIn(fields))
  {
    FieldsProcessed(fields);
    JoinIsGlued(Values(fields));
    var lines := LinesOf(fields) + [[]];
    assert lines[..|fields|] == LinesOf(fields) && lines[|fields|] == [];
    hide LinesOf, Clean, Values, NameIn, Join, Glued;
    assert [] + EventIn(fields) == EventIn(fields);
  }

  // ---- whole inputs ----

  lemma LineEnds(line: Bytes, crlf: bool, more: Bytes)
    requires OneLine(line) && !EndsWithCr(line)
    ensures Lines(line + End(crlf) + more) == [line] + Lines(more) && Rest(line + End(crlf) + more) == Rest(more)
  {
    var own := line + if crlf then [CR] else [];
    assert line + End(crlf) + more == own + [LF] + more;
    assert OneLine(own) && WithoutCr(own) == line;
    hide Lines, Rest;
    LineThenBreak(own, more);
  }

  lemma BytesStep(fields: seq<Field>, crlf: bool, more: Bytes)
    requires fields != []
    ensures EventBytes(fields, crlf) + more == LineOf(fields[0]) + End(crlf) + (EventBytes(fields[1..], crlf) + more)
  {
    hide LineOf, End;
  }

  lemma LinesStep(fields: seq<Field>, more: seq<Bytes>)
    requires fields != []
    ensures LinesOf(fields) + [[]] + more == [LineOf(fields[0])] + (LinesOf(fields[1..]) + [[]] + more)
  {
    hide LineOf;
    assert LinesOf(fields) == [LineOf(fields[0])] + LinesOf(fields[1..]);
  }

  lemma FirstIsClean(fields: seq<Field>)
    requires fields != [] && forall f | f in fields :: Clean(f)
    ensures var line := LineOf(fields[0]); OneLine(line) && !EndsWithCr(line)
    ensures forall f | f in fields[1..] :: Clean(f)
  {
    assert fields[0] in fields;
  }

  lemma {:induction false} EventLines(fields: seq<Field>, crlf: bool, more: Bytes)
    requires forall f | f in fields :: Clean(f)
    ensures Lines(EventBytes(fields, crlf) + more) == LinesOf(fields) + [[]] + Lines(more)
    ensures Rest(EventBytes(fields, crlf) + more) == Rest(more)
  {
    if fields == [] {
      hide Lines, Rest;
      var empty: Bytes := [];
      assert EventBytes(fields, crlf) + more == empty + End(crlf) + more;
      LineEnds(empty, crlf, more);
      assert LinesOf(fields) == [] && [] + [empty] + Lines(more) == [empty] + Lines(more);
    } else {
      hide *;
      FirstIsClean(fields);
      EventLines(fields[1..], crlf, more);
      LineEnds(LineOf(fields[0]), crlf, EventBytes(fields[1..], crlf) + more);
      BytesStep(fields, crlf, more);
      LinesStep(fields, Lines(more));
    }
  }

  /** Lossy decoding leaves the lines alone: they are valid text. */
  predicate Kept(events: seq<seq<Field>>, lossy: Bytes -> Bytes) {
    lossy([]) == [] && forall e, f | e in events && f in e :: Clean(f) && lossy(LineOf(f)) == LineOf(f)
  }

  lemma {:induction false} EventsYield(events: seq<seq<Field>>, crlf: bool, lossy: Bytes -> Bytes)
    requires Kept(events, lossy)
    ensures Rest(AllBytes(events, crlf)) == []
    ensures ProcessLines(NOTHING, Decoded(Lines(AllBytes(events, crlf)), lossy)) == Emitted(NOTHING, EventsIn(events))
  {
    if events == [] {
      NothingRead(lossy);
    } else {
      var e, more := events[0], AllBytes(events[1..], crlf);
      assert Kept(events[1..], lossy);
      EventsYield(events[1..], crlf, lossy);
      OwnLines(e, lossy);
      hide Lines, Rest, ProcessLines, Decoded, EventIn, EventBytes, Kept, LinesOf;
      EventLines(e, crlf, more);
      EventProcessed(e);
      DecodedConcat(LinesOf(e) + [[]], Lines(more), lossy);
      ProcessConcat(NOTHING, LinesOf(e) + [[]], Decoded(Lines(more), lossy));
    }
  }

  lemma OwnLines(fields: seq<Field>, lossy: Bytes -> Bytes)
    requires lossy([]) == [] && forall f | f in fields :: lossy(LineOf(f)) == LineOf(f)
    ensures Decoded(LinesOf(fields) + [[]], lossy) == LinesOf(fields) + [[]]
  {
    hide LineOf;
  }

  /**
   However its fields are spaced, its lines ended and its bytes cut, an event yields its data fields, with a line feed
   between two of them, under the last name it was given; comments say nothing, and an event without data is none.
   */
  lemma FieldsDecode(events: seq<seq<Field>>, crlf: bool, chunks: seq<Bytes>, lossy: Bytes -> Bytes)
    requires Kept(events, lossy) && Concat(chunks) == AllBytes(events, crlf) && Decode(chunks, lossy).Some?
    ensures Decode(chunks, lossy).value == EventsIn(events)
  {
    DecodeIsWholeInput(chunks, lossy);
    EventsYield(events, crlf, lossy);
    var lines := Decoded(Lines(AllBytes(events, crlf)), lossy);
    LinesAreBlocks(lines);
    assert AllLines(AllBytes(events, crlf), lossy) == lines;
    hide Lines, Rest, ProcessLines, Decoded, AllBytes, EventsIn, Kept, EndedEvents, Decode, Join;
    assert BlockEvents(LastBlock(lines)) == [];
    assert EndedEvents(lines) + [] == EndedEvents(lines);
  }
}
