/**
 Retry hints in upstream errors: durations written in words, and the wrapped statuses behind a proxy's error.
 */
module RetryHint {
  import opened Prelude
  import opened Json

  const U128_MAX: nat := 0xFFFF_FFFF_FFFF_FFFF_FFFF_FFFF_FFFF_FFFF
  const U64_MAX: nat := 0xFFFF_FFFF_FFFF_FFFF
  const U16_MAX: nat := 0xFFFF

  /** 366 days, in milliseconds. */
  const MAX_PARSED_COOLDOWN: nat := 366 * 24 * 60 * 60 * 1000

  // ---- characters ----

  predicate IsAsciiSpace(c: char) {
    c in {' ', '\t', '\n', '\U{c}', '\r'}
  }

  predicate IsSeparator(c: char) {
    IsAsciiSpace(c) || c == ','
  }

  function LowerChar(c: char): char {
    if 'A' <= c <= 'Z' then (c as int + 32) as char else c
  }

  function Lower(s: string): (r: string)
    ensures |r| == |s| && forall i | 0 <= i < |s| :: r[i] == LowerChar(s[i])
  {
    seq(|s|, i requires 0 <= i < |s| => LowerChar(s[i]))
  }

  // ---- finding text ----

  predicate OccursAt(text: string, part: string, p: nat) {
    p + |part| <= |text| && text[p..p + |part|] == part
  }

  predicate Occurs(text: string, part: string) {
    exists p | 0 <= p <= |text| :: OccursAt(text, part, p)
  }

  /** The first occurrence from `from` on. */
  function Find(text: string, part: string, from: nat): (r: Option<nat>)
    ensures r.Some? ==> from <= r.value && OccursAt(text, part, r.value) && forall p | from <= p < r.value :: !OccursAt(text, part, p)
    ensures r.None? ==> forall p | from <= p :: !OccursAt(text, part, p)
    decreases |text| - from
  {
    if from + |part| > |text| then None
    else if OccursAt(text, part, from) then Some(from)
    else Find(text, part, from + 1)
  }

  // ---- durations ----

  function SkipSeparators(s: string): (r: string)
    ensures |r| <= |s| && (r != [] ==> !IsSeparator(r[0]))
  {
    if s != [] && IsSeparator(s[0]) then SkipSeparators(s[1..]) else s
  }

  function SkipSpace(s: string): (r: string)
    ensures |r| <= |s| && (r != [] ==> !IsAsciiSpace(r[0]))
  {
    if s != [] && IsAsciiSpace(s[0]) then SkipSpace(s[1..]) else s
  }

  function DigitRun(s: string): (n: nat)
    ensures n <= |s| && (forall i | 0 <= i < n :: IsDigit(s[i])) && (n < |s| ==> !IsDigit(s[n]))
  {
    if s != [] && IsDigit(s[0]) then 1 + DigitRun(s[1..]) else 0
  }

  datatype Unit = Day | Hour | Minute | Second | Milli

  function UnitMs(u: Unit): (ms: nat)
    ensures ms >= 1
  {
    match u
    case Day => 86_400_000
    case Hour => 3_600_000
    case Minute => 60_000
    case Second => 1_000
    case Milli => 1
  }

  function UnitText(u: Unit): string {
    match u
    case Day => "d"
    case Hour => "h"
    case Minute => "m"
    case Second => "s"
    case Milli => "ms"
  }

  function UnitAt(s: string): (u: Option<Unit>)
    ensures u.Some? ==> UnitText(u.value) <= s
  {
    if "ms" <= s then Some(Milli)
    else if s == [] then None
    else if s[0] == 'd' then Some(Day)
    else if s[0] == 'h' then Some(Hour)
    else if s[0] == 'm' then Some(Minute)
    else if s[0] == 's' then Some(Second)
    else None
  }

  /** A running total in 128 bits; no value once it overflowed. */
  datatype Tally = Tally(totalMs: nat, components: nat)

  function Add(t: Tally, number: nat, u: Unit): Option<Tally> {
    if number > U128_MAX || number * UnitMs(u) > U128_MAX || t.totalMs + number * UnitMs(u) > U128_MAX then None
    else Some(Tally(t.totalMs + number * UnitMs(u), t.components + 1))
  }

  /** Component after component, up to the first thing that is not one. */
  function Scan(s: string, t: Tally): Option<Tally>
    decreases |s|
  {
    var a := SkipSeparators(s);
    var n := DigitRun(a);
    if n == 0 then Some(t) else ScanUnit(Number(a[..n]), SkipSpace(a[n..]), t)
  }

  /** The scan once a number has been read. */
  function ScanUnit(number: nat, b: string, t: Tally): Option<Tally>
    decreases |b|
  {
    if number > U128_MAX then None
    else if UnitAt(b).None? then Some(t)
    else
      var next := Add(t, number, UnitAt(b).value);
      if next.None? then None else Scan(b[|UnitText(UnitAt(b).value)|..], next.value)
  }

  function WithCap(ms: nat): Option<nat> {
    if ms <= MAX_PARSED_COOLDOWN then Some(ms) else None
  }

  function TrimStart(s: string): (r: string)
    ensures |r| <= |s|
  {
    if s != [] && IsWhitespace(s[0]) then TrimStart(s[1..]) else s
  }

  /** The milliseconds a text with the marker already cut off says. */
  function ParseCandidate(text: string): Option<nat> {
    var s := TrimStart(text);
    if s != [] && s[0] == '-' then None
    else
      var t := Scan(s, Tally(0, 0));
      if t.None? then None else Conclude(t.value)
  }

  const MARKERS: seq<string> := ["try again in", "retry after", "retry in"]

  /** What follows the first occurrence of the first marker that occurs; the whole text if none does. */
  function Candidate(lower: string, k: nat): string
    requires k <= |MARKERS|
    decreases |MARKERS| - k
  {
    if k == |MARKERS| then lower
    else
      var p := Find(lower, MARKERS[k], 0);
      if p.Some? then lower[p.value + |MARKERS[k]|..] else Candidate(lower, k + 1)
  }

  function ParseDuration(input: string): Option<nat> {
    ParseCandidate(Candidate(Lower(input), 0))
  }

  // ---- rendered durations ----

  /** One component as it may be written: separators, digits, space, a unit. */
  datatype Component = Component(before: string, digits: string, gap: string, unit: Unit)

  predicate WellWritten(c: Component) {
    && (forall i | 0 <= i < |c.before| :: IsSeparator(c.before[i])) && (forall i | 0 <= i < |c.gap| :: IsAsciiSpace(c.gap[i]))
    && c.digits != [] && forall i | 0 <= i < |c.digits| :: IsDigit(c.digits[i])
  }

  predicate AllWellWritten(cs: seq<Component>) {
    forall i | 0 <= i < |cs| :: WellWritten(cs[i])
  }

  function Written(c: Component): string {
    c.before + c.digits + c.gap + UnitText(c.unit)
  }

  function Rendered(cs: seq<Component>, tail: string): string {
    if cs == [] then tail else Written(cs[0]) + Rendered(cs[1..], tail)
  }

  function Ms(c: Component): nat
    requires WellWritten(c)
  {
    Number(c.digits) * Worth(UnitText(c.unit))
  }

  /** What a unit is worth, by its letters, in milliseconds. */
  function Worth(unit: string): nat {
    if unit == "d" then 24 * 60 * 60 * 1000
    else if unit == "h" then 60 * 60 * 1000
    else if unit == "m" then 60 * 1000
    else if unit == "s" then 1000
    else if unit == "ms" then 1
    else 0
  }

  lemma UnitsAreWorth(u: Unit)
    ensures UnitMs(u) == Worth(UnitText(u))
  {
    assert "h"[0] != "d"[0] && "m"[0] != "d"[0] && "s"[0] != "d"[0] && "m"[0] != "h"[0] && "s"[0] != "h"[0] && "s"[0] != "m"[0];
    assert |"ms"| == 2;
  }

  function TotalMs(cs: seq<Component>): nat
    requires AllWellWritten(cs)
  {
    if cs == [] then 0 else Ms(cs[0]) + TotalMs(cs[1..])
  }

  /** Text that cannot be mistaken for more of the duration. */
  predicate Ends(tail: string) {
    && (tail == [] || (tail[0] != 's' && !IsDigit(tail[0])))
    && (SkipSeparators(tail) == [] || !IsDigit(SkipSeparators(tail)[0]))
  }

  lemma {:induction false} SkipsSeparators(before: string, rest: string)
    requires (forall i | 0 <= i < |before| :: IsSeparator(before[i])) && (rest == [] || !IsSeparator(rest[0]))
    ensures SkipSeparators(before + rest) == rest
  {
    if before == [] {
      assert before + rest == rest;
    } else {
      SkipsSeparators(before[1..], rest);
      assert (before + rest)[1..] == before[1..] + rest;
    }
  }

  lemma {:induction false} SkipsSpace(gap: string, rest: string)
    requires (forall i | 0 <= i < |gap| :: IsAsciiSpace(gap[i])) && (rest == [] || !IsAsciiSpace(rest[0]))
    ensures SkipSpace(gap + rest) == rest
  {
    if gap == [] {
      assert gap + rest == rest;
    } else {
      SkipsSpace(gap[1..], rest);
      assert (gap + rest)[1..] == gap[1..] + rest;
    }
  }

  lemma {:induction false} RunsDigits(digits: string, rest: string)
    requires (forall i | 0 <= i < |digits| :: IsDigit(digits[i])) && (rest == [] || !IsDigit(rest[0]))
    ensures DigitRun(digits + rest) == |digits|
  {
    if digits == [] {
      assert digits + rest == rest;
    } else {
      RunsDigits(digits[1..], rest);
      assert (digits + rest)[1..] == digits[1..] + rest;
    }
  }

  lemma ReadsUnit(u: Unit, rest: string)
    requires rest == [] || rest[0] != 's'
    ensures UnitAt(UnitText(u) + rest) == Some(u) && (UnitText(u) + rest)[|UnitText(u)|..] == rest
    ensures !IsAsciiSpace((UnitText(u) + rest)[0]) && !IsDigit((UnitText(u) + rest)[0])
  {
    var s := UnitText(u) + rest;
    if u == Minute {
      if |s| >= 2 {
        assert s[1] == rest[0] && "ms"[1] == 's';
      }
    }
    assert (UnitText(u) + rest)[|UnitText(u)|..] == rest;
  }

  lemma ScanDigits(before: string, digits: string, gap: string, w: string, t: Tally)
    requires (forall i | 0 <= i < |before| :: IsSeparator(before[i])) && (forall i | 0 <= i < |gap| :: IsAsciiSpace(gap[i]))
    requires digits != [] && (forall i | 0 <= i < |digits| :: IsDigit(digits[i]))
    requires w != [] && !IsAsciiSpace(w[0]) && !IsDigit(w[0])
    ensures Scan(before + (digits + (gap + w)), t) == ScanUnit(Number(digits), w, t)
  {
    var b := gap + w;
    var a := digits + b;
    SkipsSpace(gap, w);
    RunsDigits(digits, b);
    assert IsDigit(a[0]) && !IsSeparator(a[0]);
    SkipsSeparators(before, a);
    assert a[..|digits|] == digits && a[|digits|..] == b;
    hide SkipSpace, SkipSeparators, DigitRun, Number, ScanUnit;
  }

  lemma ScanUnitOne(number: nat, u: Unit, rest: string, t: Tally)
    requires rest == [] || rest[0] != 's'
    ensures ScanUnit(number, UnitText(u) + rest, t)
         == var next := Add(t, number, u); if next.None? then None else Scan(rest, next.value)
  {
    ReadsUnit(u, rest);
    AddRefuses(t, number, u);
    hide UnitAt, UnitText, Scan, Add;
  }

  /** Scanning one written component adds it and goes on after it. */
  lemma ScanOne(c: Component, rest: string, t: Tally)
    requires WellWritten(c) && (rest == [] || rest[0] != 's')
    ensures Scan(Written(c) + rest, t)
         == var next := Add(t, Number(c.digits), c.unit); if next.None? then None else Scan(rest, next.value)
  {
    var w := UnitText(c.unit) + rest;
    ReadsUnit(c.unit, rest);
    ScanDigits(c.before, c.digits, c.gap, w, t);
    ScanUnitOne(Number(c.digits), c.unit, rest, t);
    hide Scan, ScanUnit, UnitText, UnitAt, Number, Add;
    assert Written(c) + rest == c.before + (c.digits + (c.gap + w));
  }

  lemma AddRefuses(t: Tally, number: nat, u: Unit)
    ensures number > U128_MAX ==> Add(t, number, u).None?
  {
  }

  lemma AddMeans(t: Tally, c: Component)
    requires WellWritten(c)
    ensures var next := Add(t, Number(c.digits), c.unit);
            if next.None? then t.totalMs + Ms(c) > U128_MAX
            else t.totalMs + Ms(c) <= U128_MAX && next.value == Tally(t.totalMs + Ms(c), t.components + 1)
  {
    hide Number;
    UnitsAreWorth(c.unit);
    assert Number(c.digits) * UnitMs(c.unit) >= Number(c.digits) by { Grows(Number(c.digits), UnitMs(c.unit)); }
    hide UnitMs, Worth, UnitText;
  }

  lemma Grows(n: nat, k: nat)
    requires k >= 1
    ensures n * k >= n
  {
  }

  lemma RenderedHead(cs: seq<Component>, tail: string)
    requires AllWellWritten(cs) && Ends(tail)
    ensures Rendered(cs, tail) == [] || Rendered(cs, tail)[0] != 's'
  {
    if cs != [] {
      assert WellWritten(cs[0]);
      var c := cs[0];
      assert Written(c)[0] == (c.before + c.digits)[0];
    }
  }

  lemma ScanTail(tail: string, t: Tally)
    requires Ends(tail)
    ensures Scan(tail, t) == Some(t)
  {
  }

  /** The exact total, or nothing if it needs more than 128 bits. */
  function Expected(cs: seq<Component>, t: Tally): Option<Tally>
    requires AllWellWritten(cs)
  {
    if cs == [] || t.totalMs + TotalMs(cs) <= U128_MAX then Some(Tally(t.totalMs + TotalMs(cs), t.components + |cs|)) else None
  }

  lemma ExpectedStep(cs: seq<Component>, t: Tally)
    requires cs != [] && AllWellWritten(cs)
    ensures WellWritten(cs[0]) && AllWellWritten(cs[1..])
    ensures var next := Add(t, Number(cs[0].digits), cs[0].unit);
            Expected(cs, t) == if next.None? then None else Expected(cs[1..], next.value)
  {
    assert WellWritten(cs[0]) && AllWellWritten(cs[1..]);
    AddMeans(t, cs[0]);
    hide Add, Ms, WellWritten, Number;
  }

  lemma RenderedStep(cs: seq<Component>, tail: string)
    requires cs != []
    ensures Rendered(cs, tail) == Written(cs[0]) + Rendered(cs[1..], tail)
  {
  }

  /** Scanning written components yields what is expected of them. */
  lemma {:induction false} ScanRendered(cs: seq<Component>, tail: string, t: Tally)
    requires AllWellWritten(cs) && Ends(tail)
    ensures Scan(Rendered(cs, tail), t) == Expected(cs, t)
  {
    if cs == [] {
      ScanTail(tail, t);
    } else {
      hide *;
      ExpectedStep(cs, t);
      RenderedStep(cs, tail);
      RenderedHead(cs[1..], tail);
      ScanOne(cs[0], Rendered(cs[1..], tail), t);
      var next := Add(t, Number(cs[0].digits), cs[0].unit);
      if next.Some? {
        ScanRendered(cs[1..], tail, next.value);
      }
    }
  }

  /** White space at the front belongs to the text before the first component. */
  predicate StartsTight(cs: seq<Component>) {
    cs != [] && (cs[0].before == "" || !IsWhitespace(cs[0].before[0]))
  }

  /**
   A text whose candidate is a list of written components parses to their exact total precisely when that is at
   most 366 days, and to nothing otherwise, however large the numbers.
   */
  lemma RenderedParses(input: string, space: string, cs: seq<Component>, tail: string)
    requires StartsTight(cs) && AllWellWritten(cs) && Ends(tail)
    requires forall i | 0 <= i < |space| :: IsWhitespace(space[i])
    requires Candidate(Lower(input), 0) == space + Rendered(cs, tail)
    ensures ParseDuration(input) == if TotalMs(cs) <= MAX_PARSED_COOLDOWN then Some(TotalMs(cs)) else None
  {
    RenderedStart(cs, tail);
    Trims(space, Rendered(cs, tail));
    ScanRendered(cs, tail, Tally(0, 0));
    ExpectedConcludes(cs);
    CandidateParses(space + Rendered(cs, tail), Rendered(cs, tail));
    hide Scan, Expected, Conclude, Rendered, TotalMs, Candidate, TrimStart, AllWellWritten, Ends, Lower, ParseCandidate, StartsTight;
  }

  lemma CandidateParses(text: string, trimmed: string)
    requires TrimStart(text) == trimmed && trimmed != [] && trimmed[0] != '-'
    ensures ParseCandidate(text) == var t := Scan(trimmed, Tally(0, 0)); if t.None? then None else Conclude(t.value)
  {
    hide Scan, TrimStart, Conclude;
  }

  lemma ExpectedConcludes(cs: seq<Component>)
    requires cs != [] && AllWellWritten(cs)
    ensures var t := Expected(cs, Tally(0, 0));
            (if t.None? then None else Conclude(t.value)) == if TotalMs(cs) <= MAX_PARSED_COOLDOWN then Some(TotalMs(cs)) else None
  {
    hide TotalMs;
  }

  lemma RenderedStart(cs: seq<Component>, tail: string)
    requires StartsTight(cs) && AllWellWritten(cs)
    ensures Rendered(cs, tail) != [] && Rendered(cs, tail)[0] != '-' && !IsWhitespace(Rendered(cs, tail)[0])
  {
    var c := cs[0];
    assert WellWritten(c);
    hide UnitText;
    if c.before == "" {
      assert Written(c)[0] == c.digits[0];
      DigitIsInk(c.digits[0]);
    } else {
      assert Written(c)[0] == c.before[0];
    }
  }

  lemma DigitIsInk(c: char)
    requires IsDigit(c)
    ensures !IsWhitespace(c) && c != '-'
  {
  }

  /** The same, after the first of the markers that occurs. */
  lemma MarkedParses(input: string, k: nat, head: string, space: string, cs: seq<Component>, tail: string)
    requires StartsTight(cs) && AllWellWritten(cs) && Ends(tail) && k < |MARKERS|
    requires forall i | 0 <= i < |space| :: IsWhitespace(space[i])
    requires Lower(input) == head + MARKERS[k] + (space + Rendered(cs, tail))
    requires forall j | 0 <= j < k :: !Occurs(Lower(input), MARKERS[j])
    requires forall p | 0 <= p < |head| :: !OccursAt(Lower(input), MARKERS[k], p)
    ensures ParseDuration(input) == if TotalMs(cs) <= MAX_PARSED_COOLDOWN then Some(TotalMs(cs)) else None
  {
    MarkedCandidate(Lower(input), k, 0, head, space + Rendered(cs, tail));
    hide *;
    RenderedParses(input, space, cs, tail);
  }

  lemma {:induction false} MarkedCandidate(lower: string, k: nat, from: nat, head: string, rest: string)
    requires from <= k < |MARKERS| && lower == head + MARKERS[k] + rest
    requires forall j | from <= j < k :: !Occurs(lower, MARKERS[j])
    requires forall p | 0 <= p < |head| :: !OccursAt(lower, MARKERS[k], p)
    ensures Candidate(lower, from) == rest
    decreases k - from
  {
    if from == k {
      assert lower[|head|..|head| + |MARKERS[k]|] == MARKERS[k];
      assert OccursAt(lower, MARKERS[k], |head|);
      assert Find(lower, MARKERS[k], 0) == Some(|head|);
      assert lower[|head| + |MARKERS[k]|..] == rest;
    } else {
      MarkedCandidate(lower, k, from + 1, head, rest);
    }
  }

  lemma {:induction false} Trims(space: string, rest: string)
    requires (forall i | 0 <= i < |space| :: IsWhitespace(space[i])) && rest != [] && !IsWhitespace(rest[0])
    ensures TrimStart(space + rest) == rest
  {
    if space == [] {
      assert space + rest == rest && !IsWhitespace(rest[0]);
    } else {
      Trims(space[1..], rest);
      assert (space + rest)[1..] == space[1..] + rest;
    }
  }

  // ---- the scanner as the program runs it ----

  /** Where the candidate starts. */
  method FindCandidate(lower: string) returns (candidate: string)
    ensures candidate == Candidate(lower, 0)
  {
    candidate := lower;
    for k := 0 to |MARKERS|
      invariant candidate == lower && Candidate(lower, 0) == Candidate(lower, k)
    {
      var position := Find(lower, MARKERS[k], 0);
      if position.Some? {
        return lower[position.value + |MARKERS[k]|..];
      }
    }
  }

  /** One number and unit, from `start` on; `Stop` ends the scan, `Overflow` the whole parse. */
  datatype Piece = Stop | Overflow | Part(tally: Tally, next: nat)

  method SkipWhile(bytes: string, start: nat, commas: bool) returns (index: nat)
    requires start <= |bytes|
    ensures start <= index <= |bytes|
    ensures bytes[index..] == if commas then SkipSeparators(bytes[start..]) else SkipSpace(bytes[start..])
  {
    index := start;
    while index < |bytes| && (IsAsciiSpace(bytes[index]) || (commas && bytes[index] == ','))
      invariant start <= index <= |bytes|
      invariant if commas then SkipSeparators(bytes[start..]) == SkipSeparators(bytes[index..])
                else SkipSpace(bytes[start..]) == SkipSpace(bytes[index..])
    {
      assert bytes[index..][1..] == bytes[index + 1..];
      index := index + 1;
    }
    assert index == |bytes| ==> bytes[index..] == [];
  }

  method SkipDigits(bytes: string, start: nat) returns (index: nat)
    requires start <= |bytes|
    ensures start <= index <= |bytes| && index - start == DigitRun(bytes[start..])
    ensures start < |bytes| && IsDigit(bytes[start]) ==> start < index
  {
    index := start;
    while index < |bytes| && IsDigit(bytes[index])
      invariant start <= index <= |bytes| && DigitRun(bytes[start..]) == index - start + DigitRun(bytes[index..])
    {
      assert bytes[index..][1..] == bytes[index + 1..];
      index := index + 1;
    }
  }

  /** What the scan makes of one piece. */
  predicate Makes(s: string, t: Tally, piece: Piece, rest: string) {
    match piece
    case Stop => Scan(s, t) == Some(t)
    case Overflow => Scan(s, t) == None
    case Part(next, _) => Scan(s, t) == Scan(rest, next)
  }

  /** The scan at a number that ends at `end`. */
  lemma ScanAtNumber(bytes: string, start: nat, numberStart: nat, end: nat, t: Tally)
    requires start <= |bytes| && numberStart < end <= |bytes|
    requires bytes[numberStart..] == SkipSeparators(bytes[start..]) && end - numberStart == DigitRun(bytes[numberStart..])
    ensures forall i | numberStart <= i < end :: IsDigit(bytes[i])
    ensures Scan(bytes[start..], t) == ScanUnit(Number(bytes[numberStart..end]), SkipSpace(bytes[end..]), t)
  {
    var a := bytes[numberStart..];
    assert a[..end - numberStart] == bytes[numberStart..end] && a[end - numberStart..] == bytes[end..];
    hide Number, SkipSpace, SkipSeparators, ScanUnit;
    forall i | numberStart <= i < end ensures IsDigit(bytes[i]) {
      assert bytes[i] == a[i - numberStart];
    }
  }

  lemma ScanStops(bytes: string, start: nat, numberStart: nat, t: Tally)
    requires start <= |bytes| && numberStart <= |bytes| && bytes[numberStart..] == SkipSeparators(bytes[start..])
    requires numberStart == |bytes| || !IsDigit(bytes[numberStart])
    ensures Scan(bytes[start..], t) == Some(t)
  {
    hide SkipSeparators;
  }

  method ScanPiece(bytes: string, start: nat, t: Tally) returns (piece: Piece)
    requires start <= |bytes|
    ensures piece.Part? ==> start < piece.next <= |bytes|
    ensures Makes(bytes[start..], t, piece, if piece.Part? then bytes[piece.next..] else "")
  {
    hide Scan, SkipSeparators, SkipSpace, DigitRun, Number, Add;
    var numberStart := SkipWhile(bytes, start, true);
    if numberStart >= |bytes| || !IsDigit(bytes[numberStart]) {
      ScanStops(bytes, start, numberStart, t);
      return Stop;
    }
    var index := SkipDigits(bytes, numberStart);
    ScanAtNumber(bytes, start, numberStart, index, t);
    var number := Number(bytes[numberStart..index]);
    piece := ScanAfterNumber(bytes, number, index, t);
  }

  method ScanAfterNumber(bytes: string, number: nat, start: nat, t: Tally) returns (piece: Piece)
    requires start <= |bytes|
    ensures piece.Part? ==> start < piece.next <= |bytes|
    ensures match piece
            case Stop => ScanUnit(number, SkipSpace(bytes[start..]), t) == Some(t)
            case Overflow => ScanUnit(number, SkipSpace(bytes[start..]), t) == None
            case Part(tally, next) => ScanUnit(number, SkipSpace(bytes[start..]), t) == Scan(bytes[next..], tally)
  {
    hide Scan, SkipSpace, Add;
    if number > U128_MAX {
      return Overflow;
    }
    var index := SkipWhile(bytes, start, false);
    var unit := UnitAt(bytes[index..]);
    if unit.None? {
      return Stop;
    }
    var next := Add(t, number, unit.value);
    if next.None? {
      return Overflow;
    }
    assert bytes[index..][|UnitText(unit.value)|..] == bytes[index + |UnitText(unit.value)|..];
    return Part(next.value, index + |UnitText(unit.value)|);
  }

  method ParseRetryDuration(input: string) returns (r: Option<nat>)
    ensures r == ParseDuration(input)
  {
    var candidate := FindCandidate(Lower(input));
    candidate := TrimStart(candidate);
    if candidate != [] && candidate[0] == '-' {
      return None;
    }
    var index := 0;
    var tally := Tally(0, 0);
    assert candidate[0..] == candidate;
    while index < |candidate|
      invariant index <= |candidate| && Scan(candidate, Tally(0, 0)) == Scan(candidate[index..], tally)
      decreases |candidate| - index
    {
      var piece := ScanPiece(candidate, index, tally);
      hide Scan, TrimStart, Candidate;
      if piece.Overflow? {
        return None;
      }
      if piece.Stop? {
        ScanNothing(tally);
        return Conclude(tally);
      }
      index, tally := piece.next, piece.tally;
    }
    ScanNothing(tally);
    return Conclude(tally);
  }

  lemma ScanNothing(t: Tally)
    ensures Scan([], t) == Some(t)
  {
  }

  function Conclude(t: Tally): Option<nat> {
    if t.components == 0 || t.totalMs > U64_MAX then None else WithCap(t.totalMs)
  }

  // ---- statuses in a proxy's words ----

  const WRAPPER_STEMS: seq<string> := ["upstream returned", "upstream response status", "upstream status", "upstream error"]

  predicate IsMark(c: char) {
    IsAsciiSpace(c) || c in {':', '=', '-'}
  }

  function SkipMarks(s: string): (r: string)
    ensures |r| <= |s| && (r != [] ==> !IsMark(r[0]))
  {
    if s != [] && IsMark(s[0]) then SkipMarks(s[1..]) else s
  }

  predicate StartsHttp(s: string) {
    |s| >= 4 && Lower(s[..4]) == "http" && (|s| == 4 || IsAsciiSpace(s[4]))
  }

  /** Where the digits of a leading status start. */
  function AfterHttp(input: string): string {
    var a := SkipMarks(input);
    if StartsHttp(a) then SkipMarks(a[4..]) else a
  }

  /** The number a text leads with, after punctuation and perhaps the word HTTP; nothing if it needs more than 16 bits. */
  function LeadingStatus(input: string): Option<nat> {
    var b := AfterHttp(input);
    var n := DigitRun(b);
    if n == 0 || Number(b[..n]) > U16_MAX then None else Some(Number(b[..n]))
  }

  predicate ReportAt(text: string, stem: string, p: nat, status: nat) {
    OccursAt(text, stem, p) && LeadingStatus(text[p + |stem|..]) == Some(status)
  }

  /** Some occurrence of the stem is followed by the status. */
  predicate Reports(text: string, stem: string, status: nat) {
    exists p | 0 <= p <= |text| :: ReportAt(text, stem, p, status)
  }

  predicate AnyReports(text: string, status: nat) {
    exists k | 0 <= k < |WRAPPER_STEMS| :: Reports(text, WRAPPER_STEMS[k], status)
  }

  /** Two occurrences of a text can lie `d` apart only if it repeats its own beginning there. */
  predicate Repeats(stem: string, d: nat)
    requires d <= |stem|
  {
    stem[d..] == stem[..|stem| - d]
  }

  predicate NeverRepeats(stem: string) {
    stem != [] && forall d | 0 < d < |stem| :: !Repeats(stem, d)
  }

  /** A text that begins with "up" and has no other "up", nor a "u" at its end, never repeats its beginning. */
  lemma OneUp(stem: string)
    requires |stem| >= 2 && stem[0] == 'u' && stem[1] == 'p'
    requires forall d | 0 < d < |stem| :: stem[d] != 'u' || (d + 1 < |stem| && stem[d + 1] != 'p')
    ensures NeverRepeats(stem)
  {
    forall d | 0 < d < |stem| ensures !Repeats(stem, d) {
      if stem[d] == 'u' {
        assert stem[d..][1] == stem[d + 1];
      } else {
        assert stem[d..][0] == stem[d];
      }
    }
  }

  lemma StemsNeverRepeat(k: nat)
    requires k < |WRAPPER_STEMS|
    ensures NeverRepeats(WRAPPER_STEMS[k])
  {
    OneUp("upstream returned");
    OneUp("upstream response status");
    OneUp("upstream status");
    OneUp("upstream error");
  }

  lemma NoOverlap(text: string, stem: string, p: nat, q: nat)
    requires NeverRepeats(stem) && OccursAt(text, stem, p) && p < q < p + |stem|
    ensures !OccursAt(text, stem, q)
  {
    if OccursAt(text, stem, q) {
      var d := q - p;
      forall i | 0 <= i < |stem| - d ensures stem[d..][i] == stem[..|stem| - d][i] {
        assert text[p..p + |stem|][d + i] == text[q + i] == text[q..q + |stem|][i];
      }
      assert Repeats(stem, d);
    }
  }

  /** No report begins before `n`. */
  predicate NoneBefore(text: string, stem: string, n: nat, expected: nat) {
    forall p | 0 <= p < n :: !ReportAt(text, stem, p, expected)
  }

  /** After a match that is no report, nothing before its end is one, because no match can begin inside another. */
  lemma NoneBeforeEnd(text: string, stem: string, from: nat, p: nat, expected: nat)
    requires NeverRepeats(stem) && NoneBefore(text, stem, from, expected) && Find(text, stem, from) == Some(p)
    requires LeadingStatus(text[p + |stem|..]) != Some(expected)
    ensures NoneBefore(text, stem, p + |stem|, expected)
  {
    hide LeadingStatus, NeverRepeats;
    forall q | 0 <= q < p + |stem| ensures !ReportAt(text, stem, q, expected) {
      if p < q {
        NoOverlap(text, stem, p, q);
      }
    }
  }

  lemma NoneLeft(text: string, stem: string, from: nat, expected: nat)
    requires NoneBefore(text, stem, from, expected) && Find(text, stem, from).None?
    ensures !Reports(text, stem, expected)
  {
    hide LeadingStatus;
  }

  lemma ReportFound(text: string, stem: string, p: nat, expected: nat)
    requires OccursAt(text, stem, p) && LeadingStatus(text[p + |stem|..]) == Some(expected)
    ensures Reports(text, stem, expected)
  {
    assert ReportAt(text, stem, p, expected);
  }

  /** Scanning on only after each match finds every report. */
  method StemReports(text: string, stem: string, expected: nat) returns (found: bool)
    requires NeverRepeats(stem)
    ensures found == Reports(text, stem, expected)
  {
    var from := 0;
    var position := Find(text, stem, from);
    assert NoneBefore(text, stem, 0, expected) && |stem| > 0;
    hide LeadingStatus, Reports, NoneBefore, NeverRepeats, Find;
    while position.Some?
      invariant position == Find(text, stem, from) && from <= |text| && NoneBefore(text, stem, from, expected)
      decreases |text| - from
    {
      var p := position.value;
      var tail := text[p + |stem|..];
      if LeadingStatus(tail) == Some(expected) {
        ReportFound(text, stem, p, expected);
        return true;
      }
      NoneBeforeEnd(text, stem, from, p, expected);
      from := p + |stem|;
      position := Find(text, stem, from);
    }
    NoneLeft(text, stem, from, expected);
    return false;
  }

  method WrapperReportsStatus(text: string, expected: nat) returns (found: bool)
    ensures found == AnyReports(text, expected)
  {
    found := false;
    hide Reports;
    for k := 0 to |WRAPPER_STEMS|
      invariant forall j | 0 <= j < k :: !Reports(text, WRAPPER_STEMS[j], expected)
    {
      StemsNeverRepeat(k);
      var hit := StemReports(text, WRAPPER_STEMS[k], expected);
      if hit {
        return true;
      }
    }
  }

  lemma {:induction false} SkipsMarks(marks: string, rest: string)
    requires (forall i | 0 <= i < |marks| :: IsMark(marks[i])) && (rest == [] || !IsMark(rest[0]))
    ensures SkipMarks(marks + rest) == rest
  {
    if marks == [] {
      assert marks + rest == rest;
    } else {
      SkipsMarks(marks[1..], rest);
      assert (marks + rest)[1..] == marks[1..] + rest;
    }
  }

  lemma BareStatus(marks: string, b: string)
    requires (forall i | 0 <= i < |marks| :: IsMark(marks[i])) && b != [] && IsDigit(b[0])
    ensures AfterHttp(marks + b) == b
  {
    NoHttp(b);
    SkipsMarks(marks, b);
    hide SkipMarks, StartsHttp;
  }

  lemma HttpStatus(marks: string, http: string, more: string, b: string)
    requires (forall i | 0 <= i < |marks| :: IsMark(marks[i])) && forall i | 0 <= i < |more| :: IsMark(more[i])
    requires |http| == 4 && Lower(http) == "http" && more != "" && IsAsciiSpace(more[0]) && b != [] && IsDigit(b[0])
    ensures AfterHttp(marks + (http + (more + b))) == b
  {
    var c := more + b;
    var a := http + c;
    SkipsMarks(more, b);
    HttpIsInk(http);
    SkipsMarks(marks, a);
    hide SkipMarks, Lower, IsMark;
    assert a[..4] == http && a[4..] == c && a[4] == more[0];
  }

  /** A status written after punctuation, with or without the word HTTP before it, is read exactly. */
  lemma StatusIsRead(marks: string, http: string, more: string, digits: string, tail: string)
    requires (forall i | 0 <= i < |marks| :: IsMark(marks[i])) && forall i | 0 <= i < |more| :: IsMark(more[i])
    requires (http == "" && more == "") || (|http| == 4 && Lower(http) == "http" && more != "" && IsAsciiSpace(more[0]))
    requires digits != [] && (forall i | 0 <= i < |digits| :: IsDigit(digits[i])) && (tail == [] || !IsDigit(tail[0]))
    ensures LeadingStatus(marks + (http + (more + (digits + tail)))) == if Number(digits) <= U16_MAX then Some(Number(digits)) else None
  {
    var b := digits + tail;
    RunsDigits(digits, tail);
    assert b[..|digits|] == digits && IsDigit(b[0]);
    if http == "" {
      assert http + (more + b) == b;
      BareStatus(marks, b);
    } else {
      HttpStatus(marks, http, more, b);
    }
    hide AfterHttp, DigitRun, Number, Lower, IsMark;
  }

  lemma NoHttp(s: string)
    requires s != [] && IsDigit(s[0])
    ensures !StartsHttp(s) && !IsMark(s[0])
  {
    if |s| >= 4 {
      assert Lower(s[..4])[0] == s[0] && "http"[0] == 'h';
    }
  }

  lemma HttpIsInk(http: string)
    requires |http| == 4 && Lower(http) == "http"
    ensures !IsMark(http[0])
  {
    assert Lower(http)[0] == 'h';
  }

  // ---- statuses in structured errors ----

  function Dropped(s: string): string {
    if s == [] then [] else (if s[0] in {'-', '_'} then [] else [s[0]]) + Dropped(s[1..])
  }

  function Normal(key: string): string {
    Dropped(Lower(key))
  }

  predicate IsStatusKey(key: string) {
    Normal(key) in {"upstreamstatus", "statuscode", "httpstatus"}
  }

  function TrimEnd(s: string): string {
    if s != [] && IsWhitespace(s[|s| - 1]) then TrimEnd(s[..|s| - 1]) else s
  }

  predicate ValueIsStatus(v: Value, expected: nat) {
    match v
    case Num(token) => (token == [] || token[0] != '+') && ParseUnsigned(token, U64_MAX) == Some(expected)
    case Str(text) => ParseUnsigned(TrimEnd(TrimStart(text)), U64_MAX) == Some(expected)
    case _ => false
  }

  predicate IsErrorKey(key: string) {
    Normal(key) == "error"
  }

  predicate FieldReports(f: Field, insideError: bool, expected: nat) {
    (IsStatusKey(f.key) || (insideError && Normal(f.key) == "status")) && ValueIsStatus(f.value, expected)
  }

  predicate StructuredStatus(v: Value, insideError: bool, expected: nat)
    decreases v
  {
    match v
    case Obj(fields) =>
      exists i | 0 <= i < |fields| ::
        FieldReports(fields[i], insideError, expected)
        || StructuredStatus(fields[i].value, insideError || IsErrorKey(fields[i].key), expected)
    case Arr(items) => exists i | 0 <= i < |items| :: StructuredStatus(items[i], insideError, expected)
    case _ => false
  }

  /** The value a path of positions leads to. */
  function NodeAt(v: Value, path: seq<nat>): Option<Value>
    decreases path
  {
    if path == [] then Some(v)
    else if v.Obj? && path[0] < |v.fields| then NodeAt(v.fields[path[0]].value, path[1..])
    else if v.Arr? && path[0] < |v.items| then NodeAt(v.items[path[0]], path[1..])
    else None
  }

  /** Some key along the path is an error key. */
  predicate UnderError(v: Value, path: seq<nat>)
    decreases path
  {
    path != []
    && if v.Obj? && path[0] < |v.fields| then
         IsErrorKey(v.fields[path[0]].key) || UnderError(v.fields[path[0]].value, path[1..])
       else v.Arr? && path[0] < |v.items| && UnderError(v.items[path[0]], path[1..])
  }

  /** The path ends at a field that reports the status. */
  predicate ReportsAt(v: Value, insideError: bool, path: seq<nat>, expected: nat) {
    path != []
    && var n := |path| - 1; var parent := NodeAt(v, path[..n]);
    parent.Some? && parent.value.Obj? && path[n] < |parent.value.fields|
    && FieldReports(parent.value.fields[path[n]], insideError || UnderError(v, path[..n]), expected)
  }

  function Child(v: Value, i: nat): Option<Value> {
    if v.Obj? && i < |v.fields| then Some(v.fields[i].value)
    else if v.Arr? && i < |v.items| then Some(v.items[i])
    else None
  }

  predicate ErrorStep(v: Value, i: nat) {
    v.Obj? && i < |v.fields| && IsErrorKey(v.fields[i].key)
  }

  /** A path through a child reports exactly when its rest does from there. */
  lemma ReportsBelow(v: Value, insideError: bool, path: seq<nat>, expected: nat)
    requires |path| >= 2
    ensures var c := Child(v, path[0]);
            ReportsAt(v, insideError, path, expected)
            <==> c.Some? && ReportsAt(c.value, insideError || ErrorStep(v, path[0]), path[1..], expected)
  {
    var n := |path| - 1;
    assert path[1..][..n - 1] == path[..n][1..] && path[1..][n - 1] == path[n] && path[..n][0] == path[0];
    hide IsErrorKey, FieldReports;
  }

  lemma ReportsHere(v: Value, insideError: bool, i: nat, expected: nat)
    ensures ReportsAt(v, insideError, [i], expected)
       <==> v.Obj? && i < |v.fields| && FieldReports(v.fields[i], insideError, expected)
  {
    assert [i][..0] == [];
    hide FieldReports;
  }

  /** The recursive search finds a status exactly when some path leads to a field that reports it. */
  lemma {:induction false} SearchFindsPath(v: Value, insideError: bool, expected: nat) returns (path: seq<nat>)
    requires StructuredStatus(v, insideError, expected)
    ensures ReportsAt(v, insideError, path, expected)
    decreases v
  {
    hide FieldReports, IsErrorKey, ReportsAt;
    match v {
      case Obj(fields) =>
        var i: nat :| i < |fields| && (FieldReports(fields[i], insideError, expected)
                      || StructuredStatus(fields[i].value, insideError || IsErrorKey(fields[i].key), expected));
        if FieldReports(fields[i], insideError, expected) {
          path := [i];
          ReportsHere(v, insideError, i, expected);
        } else {
          var rest := SearchFindsPath(fields[i].value, insideError || IsErrorKey(fields[i].key), expected);
          path := Extended(v, insideError, i, rest, expected);
        }
      case Arr(items) =>
        var i: nat :| i < |items| && StructuredStatus(items[i], insideError, expected);
        var rest := SearchFindsPath(items[i], insideError, expected);
        path := Extended(v, insideError, i, rest, expected);
    }
  }

  lemma Extended(v: Value, insideError: bool, i: nat, rest: seq<nat>, expected: nat) returns (path: seq<nat>)
    requires Child(v, i).Some? && ReportsAt(Child(v, i).value, insideError || ErrorStep(v, i), rest, expected)
    ensures ReportsAt(v, insideError, path, expected)
  {
    path := [i] + rest;
    assert path[1..] == rest && rest != [];
    hide ReportsAt, ErrorStep;
    ReportsBelow(v, insideError, path, expected);
  }

  lemma {:induction false} PathIsFound(v: Value, insideError: bool, path: seq<nat>, expected: nat)
    requires ReportsAt(v, insideError, path, expected)
    ensures StructuredStatus(v, insideError, expected)
    decreases path
  {
    hide FieldReports, IsErrorKey;
    if |path| == 1 {
      assert path == [path[0]];
      ReportsHere(v, insideError, path[0], expected);
    } else {
      ReportsBelow(v, insideError, path, expected);
      hide ReportsAt;
      PathIsFound(Child(v, path[0]).value, insideError || ErrorStep(v, path[0]), path[1..], expected);
    }
  }

  // ---- classification ----

  const TOO_MANY_REQUESTS: nat := 429

  const PHRASES: seq<string> := [
    "daily free limit reached", "rate limit", "rate-limit", "rate limited", "rate-limited", "quota exceeded",
    "too many requests", "try again in", "retry after", "retry-after"]

  datatype Disposition = Success | DirectRateLimited429 | ProxyWrappedRateLimited429 | NonFailoverHttpError

  predicate AnyPhrase(text: string) {
    exists k | 0 <= k < |PHRASES| :: Occurs(text, PHRASES[k])
  }

  ghost predicate SomePathReports(json: Option<Value>, expected: nat) {
    json.Some? && exists path :: ReportsAt(json.value, false, path, expected)
  }

  method HasRateLimitSemantics(text: string) returns (found: bool)
    ensures found == AnyPhrase(text)
  {
    found := false;
    hide Occurs;
    for k := 0 to |PHRASES|
      invariant forall j | 0 <= j < k :: !Occurs(text, PHRASES[j])
    {
      var position := Find(text, PHRASES[k], 0);
      FoundOccurs(text, PHRASES[k]);
      if position.Some? {
        return true;
      }
    }
  }

  lemma FoundOccurs(text: string, part: string)
    ensures Find(text, part, 0).Some? <==> Occurs(text, part)
  {
  }

  /**
   A response counts as rate limited exactly when it is a 429, or a server error whose body has a field somewhere
   that reports a 429, or whose words report one and speak of rate limits.
   */
  method ClassifyUpstreamResponse(status: nat, json: Option<Value>, text: string) returns (d: Disposition)
    ensures d.Success? <==> 200 <= status < 300
    ensures d.DirectRateLimited429? <==> status == TOO_MANY_REQUESTS
    ensures d.ProxyWrappedRateLimited429? <==>
      && 500 <= status < 600
      && (SomePathReports(json, TOO_MANY_REQUESTS) || (AnyReports(Lower(text), TOO_MANY_REQUESTS) && AnyPhrase(Lower(text))))
  {
    hide ReportsAt, AnyReports, AnyPhrase, Lower, StructuredStatus;
    if 200 <= status < 300 {
      return Success;
    }
    if status == TOO_MANY_REQUESTS {
      return DirectRateLimited429;
    }
    if !(500 <= status < 600) {
      return NonFailoverHttpError;
    }
    if json.Some? {
      SearchIsExact(json.value, TOO_MANY_REQUESTS);
      if StructuredStatus(json.value, false, TOO_MANY_REQUESTS) {
        return ProxyWrappedRateLimited429;
      }
    }
    var wrapped := WrapperReportsStatus(Lower(text), TOO_MANY_REQUESTS);
    var spoken := HasRateLimitSemantics(Lower(text));
    return if wrapped && spoken then ProxyWrappedRateLimited429 else NonFailoverHttpError;
  }

  lemma SearchIsExact(v: Value, expected: nat)
    ensures StructuredStatus(v, false, expected) <==> exists path :: ReportsAt(v, false, path, expected)
  {
    hide StructuredStatus, ReportsAt;
    if StructuredStatus(v, false, expected) {
      var path := SearchFindsPath(v, false, expected);
    }
    if path :| ReportsAt(v, false, path, expected) {
      PathIsFound(v, false, path, expected);
    }
  }
}
