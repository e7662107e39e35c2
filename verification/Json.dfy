/**
 JSON values with their object keys in insertion order, the compact printer, and a parser that accepts what
 RFC 8259 sections 2 to 7 allow, to a bounded nesting depth. `numbers` is how a number token is read and
 rendered again; no value if it is out of range.
 */
module Json {
  import opened Prelude

  datatype Field = Field(key: string, value: Value)

  datatype Value =
    | Null
    | Bool(value: bool)
    | Num(token: string)
    | Str(text: string)
    | Arr(items: seq<Value>)
    | Obj(fields: seq<Field>)

  type Numbers = string -> Option<string>

  /** Nesting deeper than this is refused. */
  const DEPTH: nat := 128

  predicate HasKey(fs: seq<Field>, key: string) {
    exists i | 0 <= i < |fs| :: fs[i].key == key
  }

  predicate Distinct(fs: seq<Field>) {
    forall i, j | 0 <= i < j < |fs| :: fs[i].key != fs[j].key
  }

  function At(fs: seq<Field>, key: string): (i: nat)
    requires HasKey(fs, key)
    ensures i < |fs| && fs[i].key == key
  {
    if fs[0].key == key then 0 else 1 + At(fs[1..], key)
  }

  /** Inserting into an object: an existing key keeps its place. */
  function Put(fs: seq<Field>, key: string, value: Value): (r: seq<Field>)
    ensures forall i | 0 <= i < |fs| :: i < |r| && r[i].key == fs[i].key && (fs[i].key != key ==> r[i] == fs[i])
    ensures |r| == |fs| || (|r| == |fs| + 1 && r[|fs|] == Field(key, value) && !HasKey(fs, key))
  {
    if fs == [] then [Field(key, value)]
    else if fs[0].key == key then [Field(key, value)] + fs[1..]
    else [fs[0]] + Put(fs[1..], key, value)
  }

  // ---- printing ----

  function HexDigit(n: nat): char
    requires n < 16
  {
    "0123456789abcdef"[n]
  }

  function Escaped(c: char): string {
    if c == '"' then "\\\""
    else if c == '\\' then "\\\\"
    else if c == '\U{8}' then "\\b"
    else if c == '\t' then "\\t"
    else if c == '\n' then "\\n"
    else if c == '\U{c}' then "\\f"
    else if c == '\r' then "\\r"
    else if c < ' ' then "\\u00" + [HexDigit(c as int / 16), HexDigit(c as int % 16)]
    else [c]
  }

  function EscapedAll(text: string): string {
    if text == [] then "" else Escaped(text[0]) + EscapedAll(text[1..])
  }

  function Quoted(text: string): string {
    "\"" + EscapedAll(text) + "\""
  }

  function Printed(v: Value): string
    decreases v
  {
    match v
    case Null => "null"
    case Bool(b) => if b then "true" else "false"
    case Num(token) => token
    case Str(text) => Quoted(text)
    case Arr(items) => "[" + if items == [] then "]" else Printed(items[0]) + MoreItems(items[1..])
    case Obj(fields) => "{" + if fields == [] then "}" else PrintedField(fields[0]) + MoreFields(fields[1..])
  }

  function MoreItems(items: seq<Value>): string
    decreases items
  {
    if items == [] then "]" else "," + Printed(items[0]) + MoreItems(items[1..])
  }

  function PrintedField(f: Field): string
    decreases f
  {
    Quoted(f.key) + ":" + Printed(f.value)
  }

  function MoreFields(fields: seq<Field>): string
    decreases fields
  {
    if fields == [] then "}" else "," + PrintedField(fields[0]) + MoreFields(fields[1..])
  }

  // ---- parsing ----

  datatype Parsed<T> = Parsed(value: T, rest: string)

  predicate IsSpace(c: char) {
    c in {' ', '\n', '\t', '\r'}
  }

  function Skip(s: string): (r: string)
    ensures |r| <= |s|
    ensures s != [] && !IsSpace(s[0]) ==> r == s
  {
    if s != [] && IsSpace(s[0]) then Skip(s[1..]) else s
  }

  function HexValue(c: char): Option<nat> {
    if IsDigit(c) then Some(DigitValue(c))
    else if 'a' <= c <= 'f' then Some((c - 'a') as nat + 10)
    else if 'A' <= c <= 'F' then Some((c - 'A') as nat + 10)
    else None
  }

  function Hex(s: string, digits: nat): (n: Option<nat>)
    ensures n.Some? ==> digits <= |s| && n.value < Pow16(digits)
  {
    if digits == 0 then Some(0)
    else if |s| < digits then None
    else
      var high, low := Hex(s, digits - 1), HexValue(s[digits - 1]);
      if high.None? || low.None? then None else Some(16 * high.value + low.value)
  }

  function Pow16(n: nat): nat {
    if n == 0 then 1 else 16 * Pow16(n - 1)
  }

  /** What follows a backslash and a `u`: a code point, or a pair of surrogates; a lone surrogate is refused. */
  function ParseUnicode(s: string): (r: Option<Parsed<char>>)
    ensures r.Some? ==> |r.value.rest| < |s|
  {
    assert Pow16(4) == 0x10000 by { assert Pow16(2) == 256; }
    var high := Hex(s, 4);
    if high.None? || 0xDC00 <= high.value < 0xE000 then None
    else if high.value < 0xD800 || 0xE000 <= high.value then Some(Parsed(high.value as char, s[4..]))
    else if |s| < 6 || s[4..6] != "\\u" then None
    else
      var low := Hex(s[6..], 4);
      if low.None? || !(0xDC00 <= low.value < 0xE000) then None
      else Some(Parsed((0x10000 + (high.value - 0xD800) * 0x400 + (low.value - 0xDC00)) as char, s[10..]))
  }

  function ParseEscape(s: string): (r: Option<Parsed<char>>)
    ensures r.Some? ==> |r.value.rest| < |s|
  {
    if s == [] then None
    else if s[0] in {'"', '\\', '/'} then Some(Parsed(s[0], s[1..]))
    else if s[0] == 'b' then Some(Parsed('\U{8}', s[1..]))
    else if s[0] == 'f' then Some(Parsed('\U{c}', s[1..]))
    else if s[0] == 'n' then Some(Parsed('\n', s[1..]))
    else if s[0] == 'r' then Some(Parsed('\r', s[1..]))
    else if s[0] == 't' then Some(Parsed('\t', s[1..]))
    else if s[0] == 'u' then ParseUnicode(s[1..])
    else None
  }

  function Before(c: char, r: Option<Parsed<string>>): Option<Parsed<string>> {
    if r.None? then None else Some(Parsed([c] + r.value.value, r.value.rest))
  }

  /** A string after its opening quote. */
  function ParseChars(s: string): (r: Option<Parsed<string>>)
    ensures r.Some? ==> |r.value.rest| < |s|
    decreases |s|
  {
    if s == [] then None
    else if s[0] == '"' then Some(Parsed("", s[1..]))
    else if s[0] == '\\' then
      var e := ParseEscape(s[1..]);
      if e.None? then None else Before(e.value.value, ParseChars(e.value.rest))
    else if s[0] < ' ' then None
    else Before(s[0], ParseChars(s[1..]))
  }

  function DigitsEnd(s: string, i: nat): (j: nat)
    requires i <= |s|
    ensures i <= j <= |s|
    decreases |s| - i
  {
    if i < |s| && IsDigit(s[i]) then DigitsEnd(s, i + 1) else i
  }

  function ScanInt(s: string, i: nat): (j: Option<nat>)
    requires i <= |s|
    ensures j.Some? ==> i < j.value <= |s|
  {
    if i == |s| || !IsDigit(s[i]) then None
    else if s[i] == '0' then if i + 1 < |s| && IsDigit(s[i + 1]) then None else Some(i + 1)
    else Some(DigitsEnd(s, i + 1))
  }

  function SomeDigits(s: string, i: nat): (j: Option<nat>)
    requires i <= |s|
    ensures j.Some? ==> i < j.value <= |s|
  {
    if DigitsEnd(s, i) == i then None else Some(DigitsEnd(s, i))
  }

  function ScanFraction(s: string, i: nat): (j: Option<nat>)
    requires i <= |s|
    ensures j.Some? ==> i <= j.value <= |s|
  {
    if i < |s| && s[i] == '.' then SomeDigits(s, i + 1) else Some(i)
  }

  function ScanExponent(s: string, i: nat): (j: Option<nat>)
    requires i <= |s|
    ensures j.Some? ==> i <= j.value <= |s|
  {
    if i < |s| && s[i] in {'e', 'E'} then
      SomeDigits(s, if i + 1 < |s| && s[i + 1] in {'+', '-'} then i + 2 else i + 1)
    else Some(i)
  }

  /** Where the number at the front of `s` ends. */
  function ScanNumber(s: string): (j: Option<nat>)
    ensures j.Some? ==> 0 < j.value <= |s|
  {
    var i := ScanInt(s, if s != [] && s[0] == '-' then 1 else 0);
    var f := if i.None? then None else ScanFraction(s, i.value);
    if f.None? then None else ScanExponent(s, f.value)
  }

  predicate IsNumber(token: string) {
    ScanNumber(token) == Some(|token|)
  }

  predicate StartsWith(s: string, c: char) {
    s != [] && s[0] == c
  }

  function ParseValue(s: string, depth: nat, numbers: Numbers): (r: Option<Parsed<Value>>)
    ensures r.Some? ==> |r.value.rest| < |s|
    decreases |s|, 0
  {
    var t := Skip(s);
    if t == [] then None
    else if "null" <= t then Some(Parsed(Null, t[4..]))
    else if "true" <= t then Some(Parsed(Bool(true), t[4..]))
    else if "false" <= t then Some(Parsed(Bool(false), t[5..]))
    else if t[0] == '"' then
      var text := ParseChars(t[1..]);
      if text.None? then None else Some(Parsed(Str(text.value.value), text.value.rest))
    else if t[0] == '-' || IsDigit(t[0]) then
      var end := ScanNumber(t);
      if end.None? || numbers(t[..end.value]).None? then None
      else Some(Parsed(Num(numbers(t[..end.value]).value), t[end.value..]))
    else if t[0] == '[' && depth > 1 then
      var u := Skip(t[1..]);
      if StartsWith(u, ']') then Some(Parsed(Arr([]), u[1..]))
      else
        var items := ParseItems(u, depth - 1, numbers);
        if items.None? then None else Some(Parsed(Arr(items.value.value), items.value.rest))
    else if t[0] == '{' && depth > 1 then
      var u := Skip(t[1..]);
      if StartsWith(u, '}') then Some(Parsed(Obj([]), u[1..]))
      else
        var fields := ParseFields(u, [], depth - 1, numbers);
        if fields.None? then None else Some(Parsed(Obj(fields.value.value), fields.value.rest))
    else None
  }

  /** The rest of an array from an item on. */
  function ParseItems(s: string, depth: nat, numbers: Numbers): (r: Option<Parsed<seq<Value>>>)
    ensures r.Some? ==> |r.value.rest| < |s|
    decreases |s|, 1
  {
    var item := ParseValue(s, depth, numbers);
    var t := if item.None? then "" else Skip(item.value.rest);
    if StartsWith(t, ']') then Some(Parsed([item.value.value], t[1..]))
    else if StartsWith(t, ',') then
      var more := ParseItems(t[1..], depth, numbers);
      if more.None? then None else Some(Parsed([item.value.value] + more.value.value, more.value.rest))
    else None
  }

  /** The rest of an object from a key on, after the fields already read. */
  function ParseFields(s: string, before: seq<Field>, depth: nat, numbers: Numbers): (r: Option<Parsed<seq<Field>>>)
    ensures r.Some? ==> |r.value.rest| < |s|
    decreases |s|, 1
  {
    var field := ParseField(s, depth, numbers);
    var t := if field.None? then "" else Skip(field.value.rest);
    if StartsWith(t, '}') then Some(Parsed(Put(before, field.value.value.key, field.value.value.value), t[1..]))
    else if StartsWith(t, ',') then
      ParseFields(t[1..], Put(before, field.value.value.key, field.value.value.value), depth, numbers)
    else None
  }

  function ParseField(s: string, depth: nat, numbers: Numbers): (r: Option<Parsed<Field>>)
    ensures r.Some? ==> |r.value.rest| < |s|
    decreases |s|, 0
  {
    var t := Skip(s);
    var key := if StartsWith(t, '"') then ParseChars(t[1..]) else None;
    var c := if key.None? then "" else Skip(key.value.rest);
    var value := if StartsWith(c, ':') then ParseValue(c[1..], depth, numbers) else None;
    if value.None? then None else Some(Parsed(Field(key.value.value, value.value.value), value.value.rest))
  }

  /** A whole text: one value, then only white space. */
  function Parse(s: string, depth: nat, numbers: Numbers): Option<Value> {
    var v := ParseValue(s, depth, numbers);
    if v.None? || Skip(v.value.rest) != [] then None else Some(v.value.value)
  }

  // ---- the values a parser can return ----

  predicate Fits(v: Value, depth: nat)
    decreases v
  {
    match v
    case Arr(items) => depth > 1 && forall i | 0 <= i < |items| :: Fits(items[i], depth - 1)
    case Obj(fields) => depth > 1 && forall i | 0 <= i < |fields| :: Fits(fields[i].value, depth - 1)
    case _ => true
  }

  /** Keys are distinct, and number tokens are grammatical. */
  predicate WellFormed(v: Value)
    decreases v
  {
    match v
    case Num(token) => IsNumber(token)
    case Arr(items) => forall i | 0 <= i < |items| :: WellFormed(items[i])
    case Obj(fields) => Distinct(fields) && forall i | 0 <= i < |fields| :: WellFormed(fields[i].value)
    case _ => true
  }

  predicate FieldFits(f: Field, depth: nat) {
    Fits(f.value, depth) && WellFormed(f.value)
  }

  /** Every number token is in range. */
  predicate Readable(v: Value, numbers: Numbers)
    decreases v
  {
    match v
    case Num(token) => numbers(token).Some?
    case Arr(items) => forall i | 0 <= i < |items| :: Readable(items[i], numbers)
    case Obj(fields) => forall i | 0 <= i < |fields| :: Readable(fields[i].value, numbers)
    case _ => true
  }

  /** Every number token reads back as itself. */
  predicate Settled(v: Value, numbers: Numbers)
    decreases v
  {
    match v
    case Num(token) => numbers(token) == Some(token)
    case Arr(items) => forall i | 0 <= i < |items| :: Settled(items[i], numbers)
    case Obj(fields) => forall i | 0 <= i < |fields| :: Settled(fields[i].value, numbers)
    case _ => true
  }

  /** The value with every number token read and rendered once more. */
  function Reread(v: Value, numbers: Numbers): Value
    decreases v
  {
    match v
    case Num(token) => Num(numbers(token).GetOr(token))
    case Arr(items) => Arr(seq(|items|, i requires 0 <= i < |items| => Reread(items[i], numbers)))
    case Obj(fields) =>
      Obj(seq(|fields|, i requires 0 <= i < |fields| => Field(fields[i].key, Reread(fields[i].value, numbers))))
    case _ => v
  }

  /** A rendered number is a number. */
  ghost predicate Renders(numbers: Numbers) {
    forall t | IsNumber(t) && numbers(t).Some? :: IsNumber(numbers(t).value)
  }

  // ---- the parser inverts the printer ----

  predicate Stops(rest: string) {
    rest == [] || rest[0] in {',', ']', '}'}
  }

  lemma {:induction false} DigitsStop(token: string, rest: string, i: nat)
    requires Stops(rest) && i <= |token|
    ensures DigitsEnd(token + rest, i) == DigitsEnd(token, i)
    decreases |token| - i
  {
    if i < |token| && IsDigit(token[i]) {
      DigitsStop(token, rest, i + 1);
    }
  }

  lemma ExponentStops(token: string, rest: string, i: nat)
    requires Stops(rest) && i <= |token| && ScanExponent(token, i).Some?
    ensures ScanExponent(token + rest, i) == ScanExponent(token, i)
  {
    hide DigitsEnd;
    if i < |token| && token[i] in {'e', 'E'} {
      DigitsStop(token, rest, if i + 1 < |token| && token[i + 1] in {'+', '-'} then i + 2 else i + 1);
    }
  }

  lemma NumberStops(token: string, rest: string)
    requires IsNumber(token) && Stops(rest)
    ensures ScanNumber(token + rest) == Some(|token|)
  {
    var start := if token[0] == '-' then 1 else 0;
    var whole := ScanInt(token, start).value;
    hide DigitsEnd, ScanExponent;
    DigitsStop(token, rest, start + 1);
    assert ScanInt(token + rest, start) == Some(whole);
    if whole < |token| && token[whole] == '.' {
      DigitsStop(token, rest, whole + 1);
    }
    ExponentStops(token, rest, ScanFraction(token, whole).value);
  }

  lemma HexDigitValue(n: nat)
    requires n < 16
    ensures HexValue(HexDigit(n)) == Some(n)
  {
  }

  lemma ControlEscape(c: char, rest: string)
    requires c < ' '
    ensures ParseUnicode("00" + [HexDigit(c as int / 16), HexDigit(c as int % 16)] + rest) == Some(Parsed(c, rest))
  {
    var s := "00" + [HexDigit(c as int / 16), HexDigit(c as int % 16)] + rest;
    var high, low := c as int / 16, c as int % 16;
    HexDigitValue(high);
    HexDigitValue(low);
    HexZero();
    hide HexDigit, HexValue;
    assert s[0] == '0' && s[1] == '0' && s[2] == HexDigit(high) && s[3] == HexDigit(low);
    HexOneMore(s, 0);
    HexOneMore(s, 1);
    HexOneMore(s, 2);
    HexOneMore(s, 3);
    assert Hex(s, 0) == Some(0);
    hide Hex;
    assert Hex(s, 2) == Some(0);
    assert Hex(s, 3) == Some(high);
    assert Hex(s, 4) == Some(c as int);
    assert s[4..] == rest;
  }

  /** One more hexadecimal digit. */
  lemma HexOneMore(s: string, n: nat)
    requires n < |s| && HexValue(s[n]).Some?
    ensures Hex(s, n).Some? ==> Hex(s, n + 1) == Some(16 * Hex(s, n).value + HexValue(s[n]).value)
  {
    hide HexValue;
  }

  lemma HexZero()
    ensures HexValue('0') == Some(0)
  {
  }

  lemma EscapeStep(rest: string)
    ensures ParseChars("\\" + rest)
         == var e := ParseEscape(rest); if e.None? then None else Before(e.value.value, ParseChars(e.value.rest))
  {
    hide ParseEscape, Before;
    assert ("\\" + rest)[1..] == rest;
  }

  lemma ShortEscape(c: char, rest: string)
    requires Escaped(c)[0] == '\\' && |Escaped(c)| == 2
    ensures ParseEscape(Escaped(c)[1..] + rest) == Some(Parsed(c, rest))
  {
    hide ParseUnicode;
    assert (Escaped(c)[1..] + rest)[1..] == rest;
  }

  lemma LongEscape(c: char, rest: string)
    requires |Escaped(c)| > 2
    ensures Escaped(c)[0] == '\\'
    ensures ParseEscape(Escaped(c)[1..] + rest) == Some(Parsed(c, rest))
  {
    ControlEscape(c, rest);
    hide ParseUnicode, HexDigit;
    assert (Escaped(c)[1..] + rest)[1..] == "00" + [HexDigit(c as int / 16), HexDigit(c as int % 16)] + rest;
  }

  lemma PlainParses(c: char, rest: string)
    requires |Escaped(c)| == 1
    ensures ParseChars(Escaped(c) + rest) == Before(c, ParseChars(rest))
  {
    assert Escaped(c) == [c] && c != '"' && c != '\\' && !(c < ' ');
    hide Escaped, Before, ParseEscape;
    assert ([c] + rest)[1..] == rest;
  }

  lemma EscapedReads(c: char, rest: string)
    requires |Escaped(c)| > 1
    ensures Escaped(c)[0] == '\\' && ParseEscape(Escaped(c)[1..] + rest) == Some(Parsed(c, rest))
  {
    assert Escaped(c)[0] == '\\';
    if |Escaped(c)| == 2 {
      ShortEscape(c, rest);
    } else {
      LongEscape(c, rest);
    }
    hide ParseEscape, Escaped;
  }

  lemma EscapedParses(c: char, rest: string)
    requires |Escaped(c)| > 1
    ensures ParseChars(Escaped(c) + rest) == Before(c, ParseChars(rest))
  {
    hide *;
    EscapedReads(c, rest);
    EscapeStep(Escaped(c)[1..] + rest);
    assert Escaped(c) + rest == "\\" + (Escaped(c)[1..] + rest);
  }

  lemma EscapeParses(c: char, rest: string)
    ensures ParseChars(Escaped(c) + rest) == Before(c, ParseChars(rest))
  {
    assert |Escaped(c)| >= 1;
    hide *;
    if |Escaped(c)| == 1 {
      PlainParses(c, rest);
    } else {
      EscapedParses(c, rest);
    }
  }

  lemma {:induction false} CharsParse(text: string, rest: string)
    ensures ParseChars(EscapedAll(text) + "\"" + rest) == Some(Parsed(text, rest))
  {
    if text == [] {
      assert EscapedAll(text) + "\"" + rest == "\"" + rest;
    } else {
      var tail := EscapedAll(text[1..]) + "\"" + rest;
      assert EscapedAll(text) + "\"" + rest == Escaped(text[0]) + tail;
      CharsParse(text[1..], rest);
      EscapeParses(text[0], tail);
      assert [text[0]] + text[1..] == text;
    }
  }

  lemma QuotedParses(text: string, rest: string)
    ensures Quoted(text) + rest == "\"" + (EscapedAll(text) + "\"" + rest)
    ensures ParseChars((Quoted(text) + rest)[1..]) == Some(Parsed(text, rest))
  {
    assert Quoted(text) + rest == "\"" + (EscapedAll(text) + "\"" + rest);
    assert (Quoted(text) + rest)[1..] == EscapedAll(text) + "\"" + rest;
    CharsParse(text, rest);
  }

  lemma PrintedHead(v: Value)
    requires WellFormed(v)
    ensures Printed(v) != [] && !IsSpace(Printed(v)[0]) && Printed(v)[0] !in {']', '}'}
  {
  }

  lemma NotSpace(c: char, rest: string)
    requires !IsSpace(c)
    ensures Skip([c] + rest) == [c] + rest && ([c] + rest)[1..] == rest
  {
  }

  lemma NullStep(rest: string, depth: nat, numbers: Numbers)
    ensures ParseValue("null" + rest, depth, numbers) == Some(Parsed(Null, rest))
  {
    var s := "null" + rest;
    hide ParseItems, ParseFields, ParseChars, ScanNumber;
    assert "null" <= s && s[4..] == rest && Skip(s) == s;
  }

  lemma TrueStep(rest: string, depth: nat, numbers: Numbers)
    ensures ParseValue("true" + rest, depth, numbers) == Some(Parsed(Bool(true), rest))
  {
    var s := "true" + rest;
    hide ParseItems, ParseFields, ParseChars, ScanNumber;
    assert "true" <= s && s[4..] == rest && Skip(s) == s && s[0] == 't';
  }

  lemma FalseStep(rest: string, depth: nat, numbers: Numbers)
    ensures ParseValue("false" + rest, depth, numbers) == Some(Parsed(Bool(false), rest))
  {
    var s := "false" + rest;
    hide ParseItems, ParseFields, ParseChars, ScanNumber;
    assert "false" <= s && s[5..] == rest && Skip(s) == s && s[0] == 'f';
  }

  lemma StringStep(text: string, rest: string, depth: nat, numbers: Numbers)
    ensures ParseValue(Quoted(text) + rest, depth, numbers) == Some(Parsed(Str(text), rest))
  {
    var u := EscapedAll(text) + "\"" + rest;
    QuotedParses(text, rest);
    NotSpace('"', u);
    hide ParseItems, ParseFields, ParseChars, ScanNumber, Skip, Quoted;
    assert Quoted(text) + rest == ['"'] + u;
  }

  function Returned<T>(ok: bool, value: T, rest: string): Option<Parsed<T>> {
    if ok then Some(Parsed(value, rest)) else None
  }

  lemma NumberStep(token: string, rest: string, depth: nat, numbers: Numbers)
    requires IsNumber(token) && Stops(rest)
    ensures ParseValue(token + rest, depth, numbers)
         == Returned(numbers(token).Some?, Num(numbers(token).GetOr(token)), rest)
  {
    var s := token + rest;
    NumberStops(token, rest);
    assert (s[0] == '-' || IsDigit(s[0])) && s[..|token|] == token && s[|token|..] == rest;
    hide ScanNumber, ParseItems, ParseFields, ParseChars, Stops;
    assert Skip(s) == s;
    hide Skip, IsNumber;
  }

  function AsArray(r: Option<Parsed<seq<Value>>>): Option<Parsed<Value>> {
    if r.None? then None else Some(Parsed(Arr(r.value.value), r.value.rest))
  }

  function AsObject(r: Option<Parsed<seq<Field>>>): Option<Parsed<Value>> {
    if r.None? then None else Some(Parsed(Obj(r.value.value), r.value.rest))
  }

  lemma ArrayStep(u: string, depth: nat, numbers: Numbers)
    requires depth > 1 && u != [] && !IsSpace(u[0])
    ensures u[0] == ']' ==> ParseValue("[" + u, depth, numbers) == Some(Parsed(Arr([]), u[1..]))
    ensures u[0] != ']' ==> ParseValue("[" + u, depth, numbers) == AsArray(ParseItems(u, depth - 1, numbers))
  {
    NotSpace('[', u);
    hide ParseItems, ParseFields, ParseChars, ScanNumber;
    assert Skip(u) == u;
  }

  lemma ObjectStep(u: string, depth: nat, numbers: Numbers)
    requires depth > 1 && u != [] && !IsSpace(u[0])
    ensures u[0] == '}' ==> ParseValue("{" + u, depth, numbers) == Some(Parsed(Obj([]), u[1..]))
    ensures u[0] != '}' ==> ParseValue("{" + u, depth, numbers) == AsObject(ParseFields(u, [], depth - 1, numbers))
  {
    NotSpace('{', u);
    hide ParseItems, ParseFields, ParseChars, ScanNumber;
    assert Skip(u) == u;
  }

  lemma {:induction false} ValueParses(v: Value, rest: string, depth: nat, numbers: Numbers)
    requires WellFormed(v) && Fits(v, depth) && Stops(rest)
    ensures ParseValue(Printed(v) + rest, depth, numbers) == Returned(Readable(v, numbers), Reread(v, numbers), rest)
    decreases v
  {
    hide ParseValue, ParseItems, ParseFields;
    match v {
      case Null => NullStep(rest, depth, numbers);
      case Bool(b) => TrueStep(rest, depth, numbers); FalseStep(rest, depth, numbers);
      case Num(token) => NumberStep(token, rest, depth, numbers);
      case Str(text) => StringStep(text, rest, depth, numbers);
      case Arr(items) => ArrayParses(items, rest, depth, numbers);
      case Obj(fields) => ObjectParses(fields, rest, depth, numbers);
    }
  }

  lemma ArrayParses(items: seq<Value>, rest: string, depth: nat, numbers: Numbers)
    requires WellFormed(Arr(items)) && Fits(Arr(items), depth) && Stops(rest)
    ensures ParseValue(Printed(Arr(items)) + rest, depth, numbers)
         == Returned(Readable(Arr(items), numbers), Reread(Arr(items), numbers), rest)
    decreases items, 1
  {
    hide ParseValue, ParseItems;
    if items == [] {
      var u := "]" + rest;
      assert Printed(Arr(items)) + rest == "[" + u && u[1..] == rest;
      ArrayStep(u, depth, numbers);
      assert Reread(Arr(items), numbers) == Arr([]);
    } else {
      var u := Printed(items[0]) + MoreItems(items[1..]) + rest;
      assert Printed(Arr(items)) + rest == "[" + u;
      PrintedHead(items[0]);
      assert AllFit(items, depth - 1);
      ItemsParse(items, rest, depth - 1, numbers);
      ArrayStep(u, depth, numbers);
    }
  }

  lemma ObjectText(fields: seq<Field>, rest: string)
    ensures fields == [] ==> Printed(Obj(fields)) + rest == "{" + ("}" + rest) && ("}" + rest)[1..] == rest
    ensures fields != [] ==>
      var u := PrintedField(fields[0]) + MoreFields(fields[1..]) + rest;
      Printed(Obj(fields)) + rest == "{" + u && u != [] && u[0] == '"' && !IsSpace(u[0])
  {
    if fields != [] {
      assert Quoted(fields[0].key)[0] == '"';
      hide Quoted, Printed, MoreFields;
      assert PrintedField(fields[0])[0] == '"';
    }
  }

  lemma ObjectMeans(fields: seq<Field>, depth: nat, numbers: Numbers)
    requires WellFormed(Obj(fields)) && Fits(Obj(fields), depth)
    ensures depth > 1 && Distinct(fields) && AllFieldsFit(fields, depth - 1) && Reread(Obj(fields), numbers).Obj?
    ensures fields == [] ==> Readable(Obj(fields), numbers) && Reread(Obj(fields), numbers) == Obj([])
    ensures [] + fields == fields && [] + Reread(Obj(fields), numbers).fields == Reread(Obj(fields), numbers).fields
  {
    hide Distinct;
  }

  lemma ObjectReturned(ok: bool, v: Value, rest: string)
    requires v.Obj?
    ensures AsObject(Returned(ok, v.fields, rest)) == Returned(ok, v, rest)
    ensures Returned(true, v, rest) == Some(Parsed(v, rest))
  {
  }

  lemma ObjectParses(fields: seq<Field>, rest: string, depth: nat, numbers: Numbers)
    requires WellFormed(Obj(fields)) && Fits(Obj(fields), depth) && Stops(rest)
    ensures ParseValue(Printed(Obj(fields)) + rest, depth, numbers)
         == Returned(Readable(Obj(fields), numbers), Reread(Obj(fields), numbers), rest)
    decreases fields, 1
  {
    hide *;
    ObjectText(fields, rest);
    ObjectMeans(fields, depth, numbers);
    ObjectReturned(Readable(Obj(fields), numbers), Reread(Obj(fields), numbers), rest);
    if fields == [] {
      NotBlank('}');
      ObjectStep("}" + rest, depth, numbers);
    } else {
      FieldsParse(fields, rest, [], depth - 1, numbers);
      ObjectStep(PrintedField(fields[0]) + MoreFields(fields[1..]) + rest, depth, numbers);
    }
  }

  lemma NotBlank(c: char)
    requires c in {'}', ']'}
    ensures !IsSpace(c)
  {
  }

  function Prepended(item: Value, r: Option<Parsed<seq<Value>>>): Option<Parsed<seq<Value>>> {
    if r.None? then None else Some(Parsed([item] + r.value.value, r.value.rest))
  }

  lemma LastItem(ok: bool, item: Value, s: string, depth: nat, numbers: Numbers, rest: string)
    requires ParseValue(s, depth, numbers) == Returned(ok, item, "]" + rest)
    ensures ParseItems(s, depth, numbers) == Returned(ok, [item], rest)
  {
    hide ParseValue;
    NotSpace(']', rest);
  }

  lemma NextItem(ok: bool, item: Value, s: string, depth: nat, numbers: Numbers, rest: string)
    requires ParseValue(s, depth, numbers) == Returned(ok, item, "," + rest)
    ensures ParseItems(s, depth, numbers) == if ok then Prepended(item, ParseItems(rest, depth, numbers)) else None
  {
    hide ParseValue;
    NotSpace(',', rest);
  }

  lemma Associate(a: string, b: string, c: string)
    ensures a + b + c == a + (b + c)
  {
  }

  lemma MoreItemsText(more: seq<Value>, rest: string)
    ensures more == [] ==> MoreItems(more) + rest == "]" + rest
    ensures more != [] ==> MoreItems(more) + rest == "," + (Printed(more[0]) + MoreItems(more[1..]) + rest)
    ensures Stops(MoreItems(more) + rest)
  {
    hide Printed;
    if more != [] {
      Associate(",", Printed(more[0]), MoreItems(more[1..]));
      Associate(",", Printed(more[0]) + MoreItems(more[1..]), rest);
    }
  }

  predicate AllFit(items: seq<Value>, depth: nat) {
    forall i | 0 <= i < |items| :: WellFormed(items[i]) && Fits(items[i], depth)
  }

  lemma AllFitParts(items: seq<Value>, depth: nat)
    requires items != [] && AllFit(items, depth)
    ensures WellFormed(items[0]) && Fits(items[0], depth) && AllFit(items[1..], depth)
  {
    hide WellFormed, Fits;
  }

  lemma RereadParts(items: seq<Value>, numbers: Numbers)
    requires items != []
    ensures Reread(Arr(items[1..]), numbers).Arr?
    ensures Readable(Arr(items), numbers) <==> Readable(items[0], numbers) && Readable(Arr(items[1..]), numbers)
    ensures Reread(Arr(items), numbers).items == [Reread(items[0], numbers)] + Reread(Arr(items[1..]), numbers).items
    ensures |items| == 1 ==> Readable(Arr(items[1..]), numbers) && Reread(Arr(items[1..]), numbers).items == []
  {
    assert items == [items[0]] + items[1..];
  }

  lemma {:induction false} ItemsParse(items: seq<Value>, rest: string, depth: nat, numbers: Numbers)
    requires items != [] && Stops(rest) && AllFit(items, depth)
    ensures ParseItems(Printed(items[0]) + MoreItems(items[1..]) + rest, depth, numbers)
         == Returned(Readable(Arr(items), numbers), Reread(Arr(items), numbers).items, rest)
    decreases items, 0
  {
    hide *;
    var more := items[1..];
    var after := MoreItems(more) + rest;
    var s := Printed(items[0]) + MoreItems(more) + rest;
    var ok, item := Readable(items[0], numbers), Reread(items[0], numbers);
    AllFitParts(items, depth);
    RereadParts(items, numbers);
    Associate(Printed(items[0]), MoreItems(more), rest);
    MoreItemsText(more, rest);
    ValueParses(items[0], after, depth, numbers);
    if more == [] {
      assert [item] + [] == [item];
      LastItem(ok, item, s, depth, numbers, rest);
    } else {
      ItemsParse(more, rest, depth, numbers);
      NextItem(ok, item, s, depth, numbers, Printed(more[0]) + MoreItems(more[1..]) + rest);
      PrependedIs(ok, item, Readable(Arr(more), numbers), Reread(Arr(more), numbers).items, rest);
    }
  }

  lemma PrependedIs(ok: bool, item: Value, moreOk: bool, more: seq<Value>, rest: string)
    ensures (if ok then Prepended(item, Returned(moreOk, more, rest)) else None) == Returned(ok && moreOk, [item] + more, rest)
  {
  }

  function Keyed(key: string, r: Option<Parsed<Value>>): Option<Parsed<Field>> {
    if r.None? then None else Some(Parsed(Field(key, r.value.value), r.value.rest))
  }

  lemma FieldStep(key: string, c: string, depth: nat, numbers: Numbers)
    ensures ParseField(Quoted(key) + (":" + c), depth, numbers) == Keyed(key, ParseValue(c, depth, numbers))
  {
    var u := EscapedAll(key) + "\"" + (":" + c);
    hide ParseValue, ParseChars;
    QuotedParses(key, ":" + c);
    hide Quoted, EscapedAll;
    NotSpace('"', u);
    NotSpace(':', c);
    hide Skip;
    assert Quoted(key) + (":" + c) == ['"'] + u;
  }

  lemma FieldText(f: Field, rest: string)
    ensures PrintedField(f) + rest == Quoted(f.key) + (":" + (Printed(f.value) + rest))
  {
    hide Quoted, Printed;
    Associate(Quoted(f.key), ":", Printed(f.value));
    Associate(Quoted(f.key), ":" + Printed(f.value), rest);
    Associate(":", Printed(f.value), rest);
  }

  function RereadField(f: Field, numbers: Numbers): Field {
    Field(f.key, Reread(f.value, numbers))
  }

  lemma FieldParses(f: Field, rest: string, depth: nat, numbers: Numbers)
    requires Stops(rest) && FieldFits(f, depth)
    ensures ParseField(PrintedField(f) + rest, depth, numbers)
         == Returned(Readable(f.value, numbers), RereadField(f, numbers), rest)
    decreases f, 1
  {
    FieldText(f, rest);
    ValueParses(f.value, rest, depth, numbers);
    hide ParseValue, Printed, ParseField, FieldFits, Stops, Quoted, PrintedField, Readable, Reread;
    FieldStep(f.key, Printed(f.value) + rest, depth, numbers);
  }

  lemma PutFresh(before: seq<Field>, key: string, value: Value)
    requires !HasKey(before, key)
    ensures Put(before, key, value) == before + [Field(key, value)]
  {
    var r := Put(before, key, value);
    if |r| == |before| + 1 {
      assert forall i | 0 <= i < |before| :: r[i] == before[i];
    } else {
      NeverReplaced(before, key, value);
    }
  }

  lemma {:induction false} NeverReplaced(fs: seq<Field>, key: string, value: Value)
    requires !HasKey(fs, key)
    ensures |Put(fs, key, value)| == |fs| + 1
  {
    if fs != [] {
      assert fs[0].key != key;
      forall i | 0 <= i < |fs[1..]| ensures fs[1..][i].key != key {
        assert fs[1..][i] == fs[i + 1];
      }
      NeverReplaced(fs[1..], key, value);
    }
  }

  lemma LastField(ok: bool, f: Field, s: string, before: seq<Field>, depth: nat, numbers: Numbers, rest: string)
    requires ParseField(s, depth, numbers) == Returned(ok, f, "}" + rest)
    ensures ParseFields(s, before, depth, numbers) == Returned(ok, Put(before, f.key, f.value), rest)
  {
    hide ParseField, Put;
    NotSpace('}', rest);
  }

  lemma NextField(ok: bool, f: Field, s: string, before: seq<Field>, depth: nat, numbers: Numbers, rest: string)
    requires ParseField(s, depth, numbers) == Returned(ok, f, "," + rest)
    ensures ParseFields(s, before, depth, numbers)
         == if ok then ParseFields(rest, Put(before, f.key, f.value), depth, numbers) else None
  {
    hide ParseField, Put;
    NotSpace(',', rest);
  }

  lemma MoreFieldsText(more: seq<Field>, rest: string)
    ensures more == [] ==> MoreFields(more) + rest == "}" + rest
    ensures more != [] ==> MoreFields(more) + rest == "," + (PrintedField(more[0]) + MoreFields(more[1..]) + rest)
    ensures Stops(MoreFields(more) + rest)
  {
    hide PrintedField;
    if more != [] {
      Associate(",", PrintedField(more[0]), MoreFields(more[1..]));
      Associate(",", PrintedField(more[0]) + MoreFields(more[1..]), rest);
    }
  }

  predicate AllFieldsFit(fields: seq<Field>, depth: nat) {
    forall i | 0 <= i < |fields| :: FieldFits(fields[i], depth)
  }

  lemma FieldParts(before: seq<Field>, fields: seq<Field>, depth: nat, numbers: Numbers)
    requires fields != [] && AllFieldsFit(fields, depth) && Distinct(before + fields)
    ensures var f := RereadField(fields[0], numbers); var more := Obj(fields[1..]);
            && FieldFits(fields[0], depth) && AllFieldsFit(fields[1..], depth) && f.key == fields[0].key
            && Reread(more, numbers).Obj?
            && !HasKey(before, f.key) && Distinct(before + [f] + fields[1..])
            && (Readable(Obj(fields), numbers) <==> Readable(fields[0].value, numbers) && Readable(more, numbers))
            && before + Reread(Obj(fields), numbers).fields == before + [f] + Reread(more, numbers).fields
            && (|fields| == 1 ==> Readable(more, numbers) && Reread(more, numbers).fields == [])
  {
    var f := RereadField(fields[0], numbers);
    NewKey(before, fields);
    assert fields == [fields[0]] + fields[1..];
    assert Reread(Obj(fields), numbers).fields == [f] + Reread(Obj(fields[1..]), numbers).fields;
    var was, now := before + fields, before + [f] + fields[1..];
    hide Reread, Readable, FieldFits;
    forall i | 0 <= i < |now| ensures now[i].key == was[i].key {
    }
  }

  lemma {:induction false} FieldsParse(fields: seq<Field>, rest: string, before: seq<Field>, depth: nat, numbers: Numbers)
    requires fields != [] && Stops(rest) && Distinct(before + fields) && AllFieldsFit(fields, depth)
    ensures ParseFields(PrintedField(fields[0]) + MoreFields(fields[1..]) + rest, before, depth, numbers)
         == Returned(Readable(Obj(fields), numbers), before + Reread(Obj(fields), numbers).fields, rest)
    decreases fields, 0
  {
    hide *;
    var more := fields[1..];
    var s := PrintedField(fields[0]) + MoreFields(more) + rest;
    var after := MoreFields(more) + rest;
    var ok, f := Readable(fields[0].value, numbers), RereadField(fields[0], numbers);
    FieldParts(before, fields, depth, numbers);
    PutFresh(before, f.key, f.value);
    assert Field(f.key, f.value) == f;
    Associate(PrintedField(fields[0]), MoreFields(more), rest);
    MoreFieldsText(more, rest);
    FieldParses(fields[0], after, depth, numbers);
    if more == [] {
      assert before + [f] + [] == before + [f];
      LastField(ok, f, s, before, depth, numbers, rest);
    } else {
      FieldsParse(more, rest, before + [f], depth, numbers);
      NextField(ok, f, s, before, depth, numbers, PrintedField(more[0]) + MoreFields(more[1..]) + rest);
      FollowedIs(ok, Readable(Obj(more), numbers), before + [f] + Reread(Obj(more), numbers).fields, rest);
    }
  }

  lemma FollowedIs(ok: bool, moreOk: bool, all: seq<Field>, rest: string)
    ensures (if ok then Returned(moreOk, all, rest) else None) == Returned(ok && moreOk, all, rest)
  {
  }

  lemma NewKey(before: seq<Field>, fields: seq<Field>)
    requires fields != [] && Distinct(before + fields)
    ensures !HasKey(before, fields[0].key)
  {
    var all := before + fields;
    forall i | 0 <= i < |before| ensures before[i].key != fields[0].key {
      assert all[i] == before[i] && all[|before|] == fields[0];
    }
  }

  /** Reading back what was printed returns the value, key order included, with its numbers read and rendered once more. */
  lemma PrintedParses(v: Value, depth: nat, numbers: Numbers)
    requires WellFormed(v) && Fits(v, depth)
    ensures Parse(Printed(v), depth, numbers) == if Readable(v, numbers) then Some(Reread(v, numbers)) else None
  {
    ValueParses(v, "", depth, numbers);
    assert Printed(v) + "" == Printed(v);
  }

  lemma {:induction false} SettledExactly(v: Value, numbers: Numbers)
    ensures Settled(v, numbers) <==> Readable(v, numbers) && Reread(v, numbers) == v
    decreases v
  {
    match v {
      case Arr(items) =>
        var r := Reread(v, numbers).items;
        forall i | 0 <= i < |items|
          ensures Settled(items[i], numbers) <==> Readable(items[i], numbers) && r[i] == items[i]
        {
          SettledExactly(items[i], numbers);
        }
        assert (forall i | 0 <= i < |items| :: r[i] == items[i]) ==> r == items;
      case Obj(fields) =>
        var r := Reread(v, numbers).fields;
        forall i | 0 <= i < |fields|
          ensures Settled(fields[i].value, numbers) <==> Readable(fields[i].value, numbers) && r[i] == fields[i]
        {
          SettledExactly(fields[i].value, numbers);
        }
        assert (forall i | 0 <= i < |fields| :: r[i] == fields[i]) ==> r == fields;
      case _ =>
    }
  }

  /** Reading back what was printed returns the same value if and only if every number in it reads back as itself. */
  lemma RoundTripExactlyWhen(v: Value, depth: nat, numbers: Numbers)
    requires WellFormed(v) && Fits(v, depth)
    ensures Parse(Printed(v), depth, numbers) == Some(v) <==> Settled(v, numbers)
  {
    PrintedParses(v, depth, numbers);
    SettledExactly(v, numbers);
  }

  // ---- the parser returns only well-formed values ----

  lemma {:induction false} ParsedIsWellFormed(s: string, depth: nat, numbers: Numbers)
    requires Renders(numbers) && ParseValue(s, depth, numbers).Some?
    ensures var v := ParseValue(s, depth, numbers).value.value; WellFormed(v) && Fits(v, depth)
    decreases |s|, 0
  {
    var t := Skip(s);
    var v := ParseValue(s, depth, numbers).value.value;
    hide ParseItems, ParseFields, ParseChars, ScanNumber;
    if v.Num? {
      ReadNumber(t, numbers);
    } else if v.Arr? {
      var u := Skip(t[1..]);
      if !StartsWith(u, ']') {
        ParsedItems(u, depth - 1, numbers);
      }
    } else if v.Obj? {
      var u := Skip(t[1..]);
      if !StartsWith(u, '}') {
        ParsedFields(u, [], depth - 1, numbers);
        ObjectIsWellFormed(v.fields, depth);
      }
    }
  }

  lemma ObjectIsWellFormed(fields: seq<Field>, depth: nat)
    requires depth > 1 && Distinct(fields) && forall f | f in fields :: FieldFits(f, depth - 1)
    ensures WellFormed(Obj(fields)) && Fits(Obj(fields), depth)
  {
    forall i | 0 <= i < |fields| ensures WellFormed(fields[i].value) && Fits(fields[i].value, depth - 1) {
      assert fields[i] in fields;
    }
  }

  lemma ReadNumber(t: string, numbers: Numbers)
    requires Renders(numbers) && ScanNumber(t).Some? && numbers(t[..ScanNumber(t).value]).Some?
    ensures WellFormed(Num(numbers(t[..ScanNumber(t).value]).value))
  {
    PrefixIsNumber(t, ScanNumber(t).value);
    hide ScanNumber;
  }

  lemma {:induction false} DigitsPrefix(s: string, end: nat, i: nat)
    requires i <= |s| && DigitsEnd(s, i) <= end <= |s|
    ensures DigitsEnd(s[..end], i) == DigitsEnd(s, i)
    decreases |s| - i
  {
    if i < |s| && IsDigit(s[i]) {
      DigitsPrefix(s, end, i + 1);
    }
  }

  lemma IntPrefix(s: string, i: nat, end: nat)
    requires i <= |s| && ScanInt(s, i).Some? && ScanInt(s, i).value <= end <= |s|
    ensures ScanInt(s[..end], i) == ScanInt(s, i)
  {
    hide DigitsEnd;
    if s[i] != '0' {
      DigitsPrefix(s, end, i + 1);
    }
  }

  lemma FractionPrefix(s: string, i: nat, end: nat)
    requires i <= |s| && ScanFraction(s, i).Some? && ScanFraction(s, i).value <= end <= |s|
    ensures ScanFraction(s[..end], i) == ScanFraction(s, i)
  {
    hide DigitsEnd;
    if i < |s| && s[i] == '.' {
      DigitsPrefix(s, end, i + 1);
    }
  }

  lemma ExponentPrefix(s: string, i: nat, end: nat)
    requires i <= |s| && ScanExponent(s, i) == Some(end)
    ensures ScanExponent(s[..end], i) == Some(end)
  {
    hide DigitsEnd;
    if i < |s| && s[i] in {'e', 'E'} {
      DigitsPrefix(s, end, if i + 1 < |s| && s[i + 1] in {'+', '-'} then i + 2 else i + 1);
    }
  }

  lemma PrefixIsNumber(s: string, end: nat)
    requires ScanNumber(s) == Some(end)
    ensures IsNumber(s[..end])
  {
    var start := if s != [] && s[0] == '-' then 1 else 0;
    var whole := ScanInt(s, start).value;
    var fraction := ScanFraction(s, whole).value;
    hide ScanInt, ScanFraction, ScanExponent;
    IntPrefix(s, start, end);
    FractionPrefix(s, whole, end);
    ExponentPrefix(s, fraction, end);
  }

  lemma {:induction false} ParsedItems(s: string, depth: nat, numbers: Numbers)
    requires Renders(numbers) && ParseItems(s, depth, numbers).Some?
    ensures forall v | v in ParseItems(s, depth, numbers).value.value :: WellFormed(v) && Fits(v, depth)
    decreases |s|, 1
  {
    ParsedIsWellFormed(s, depth, numbers);
    hide ParseValue, WellFormed, Fits;
    var item := ParseValue(s, depth, numbers).value;
    var t := Skip(item.rest);
    if StartsWith(t, ',') {
      ParsedItems(t[1..], depth, numbers);
    }
  }

  lemma ParsedField(s: string, depth: nat, numbers: Numbers)
    requires Renders(numbers) && ParseField(s, depth, numbers).Some?
    ensures FieldFits(ParseField(s, depth, numbers).value.value, depth)
    decreases |s|, 0
  {
    var t := Skip(s);
    var c := Skip(ParseChars(t[1..]).value.rest);
    ParsedIsWellFormed(c[1..], depth, numbers);
  }

  lemma PutKeeps(fs: seq<Field>, f: Field, depth: nat)
    requires Distinct(fs) && FieldFits(f, depth)
    requires forall g | g in fs :: FieldFits(g, depth)
    ensures Distinct(Put(fs, f.key, f.value))
    ensures forall g | g in Put(fs, f.key, f.value) :: FieldFits(g, depth)
  {
    hide FieldFits;
    var r := Put(fs, f.key, f.value);
    PutValue(fs, f.key, f.value);
    forall g | g in r ensures FieldFits(g, depth) {
      var i :| 0 <= i < |r| && r[i] == g;
      if g != f {
        assert i < |fs| && r[i] == fs[i];
      }
    }
  }

  lemma {:induction false} PutValue(fs: seq<Field>, key: string, value: Value)
    requires Distinct(fs)
    ensures forall f | f in Put(fs, key, value) && f.key == key :: f.value == value
  {
    if fs != [] && fs[0].key != key {
      PutValue(fs[1..], key, value);
    }
  }

  lemma {:induction false} ParsedFields(s: string, before: seq<Field>, depth: nat, numbers: Numbers)
    requires Renders(numbers) && ParseFields(s, before, depth, numbers).Some?
    requires Distinct(before) && forall f | f in before :: FieldFits(f, depth)
    ensures var r := ParseFields(s, before, depth, numbers).value.value;
            Distinct(r) && forall f | f in r :: FieldFits(f, depth)
    decreases |s|, 1
  {
    ParsedField(s, depth, numbers);
    hide ParseField, FieldFits, Distinct, Put;
    var field := ParseField(s, depth, numbers).value;
    PutKeeps(before, field.value, depth);
    var t := Skip(field.rest);
    if StartsWith(t, ',') {
      ParsedFields(t[1..], Put(before, field.value.key, field.value.value), depth, numbers);
    }
  }
}
