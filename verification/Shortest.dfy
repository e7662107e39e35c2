/** The printer is compact: no text that is read as a value is shorter than the value's printed text. */
module Shortest {
  import opened Prelude
  import opened Json

  /** No number is rendered longer than it was written. */
  ghost predicate Curt(numbers: Numbers) {
    forall t | IsNumber(t) && numbers(t).Some? :: |numbers(t).value| <= |t|
  }

  // ---- strings ----

  lemma EscapeConsumes(s: string)
    requires ParseEscape(s).Some?
    ensures var e := ParseEscape(s).value; |Escaped(e.value)| + |e.rest| <= 1 + |s|
  {
    hide Hex;
  }

  lemma CharsMore(c: char, text: string)
    ensures |EscapedAll([c] + text)| == |Escaped(c)| + |EscapedAll(text)|
  {
    assert ([c] + text)[1..] == text;
    hide Escaped;
  }

  lemma PlainIsPrinted(c: char)
    requires c != '"' && c != '\\' && !(c < ' ')
    ensures Escaped(c) == [c]
  {
  }

  lemma {:induction false} CharsConsume(s: string)
    requires ParseChars(s).Some?
    ensures var r := ParseChars(s).value; |EscapedAll(r.value)| + 1 + |r.rest| <= |s|
    decreases |s|
  {
    hide Escaped, ParseEscape;
    if s[0] == '"' {
      return;
    }
    if s[0] == '\\' {
      var e := ParseEscape(s[1..]).value;
      EscapeConsumes(s[1..]);
      CharsConsume(e.rest);
      CharsMore(e.value, ParseChars(e.rest).value.value);
    } else {
      PlainIsPrinted(s[0]);
      CharsConsume(s[1..]);
      CharsMore(s[0], ParseChars(s[1..]).value.value);
    }
  }

  // ---- lists ----

  /** The fields of an object, each with a mark after it. */
  function FieldsLength(fields: seq<Field>): nat {
    if fields == [] then 0 else |PrintedField(fields[0])| + 1 + FieldsLength(fields[1..])
  }

  lemma {:induction false} MoreFieldsLength(fields: seq<Field>)
    ensures |MoreFields(fields)| == FieldsLength(fields) + 1
    decreases |fields|
  {
    hide PrintedField;
    if fields != [] {
      MoreFieldsLength(fields[1..]);
    }
  }

  lemma ObjectLength(fields: seq<Field>)
    ensures |Printed(Obj(fields))| == if fields == [] then 2 else 1 + FieldsLength(fields)
  {
    hide PrintedField, MoreFields, FieldsLength;
    if fields != [] {
      FieldsStep(fields[0], fields[1..], fields);
      MoreFieldsLength(fields[1..]);
    }
  }

  lemma FieldsStep(f: Field, rest: seq<Field>, fields: seq<Field>)
    requires fields == [f] + rest
    ensures FieldsLength(fields) == |PrintedField(f)| + 1 + FieldsLength(rest)
  {
    assert fields[1..] == rest;
    hide PrintedField;
  }

  lemma {:induction false} PutLength(fields: seq<Field>, key: string, value: Value)
    ensures FieldsLength(Put(fields, key, value)) <= FieldsLength(fields) + |PrintedField(Field(key, value))| + 1
    ensures Put(fields, key, value) != []
    decreases |fields|
  {
    var f := Field(key, value);
    hide FieldsLength, PrintedField;
    FieldsStep(f, [], [f]);
    if fields == [] {
      NoFields();
    } else {
      FieldsStep(fields[0], fields[1..], fields);
      FieldsStep(f, fields[1..], [f] + fields[1..]);
      PutLength(fields[1..], key, value);
      FieldsStep(fields[0], Put(fields[1..], key, value), [fields[0]] + Put(fields[1..], key, value));
    }
  }

  lemma NoFields()
    ensures FieldsLength([]) == 0
  {
  }

  lemma ItemsLength(item: Value, more: seq<Value>)
    ensures |Printed(Arr([item] + more))| == 1 + |Printed(item)| + |MoreItems(more)|
    ensures |MoreItems([item] + more)| == 1 + |Printed(item)| + |MoreItems(more)|
    ensures |Printed(Arr([]))| == 2 && |MoreItems([])| == 1
  {
    assert ([item] + more)[1..] == more;
    hide PrintedField, MoreFields;
  }

  // ---- values ----

  lemma {:induction false} ValueConsumes(s: string, depth: nat, numbers: Numbers)
    requires Curt(numbers) && ParseValue(s, depth, numbers).Some?
    ensures var r := ParseValue(s, depth, numbers).value; |Printed(r.value)| + |r.rest| <= |s|
    decreases |s|, 0
  {
    var t := Skip(s);
    if "null" <= t || "true" <= t || "false" <= t {
      return;
    }
    hide ParseChars, ScanNumber, ParseItems, ParseFields, PrintedField, MoreFields, MoreItems, Skip;
    if t[0] == '"' {
      CharsConsume(t[1..]);
    } else if t[0] == '-' || IsDigit(t[0]) {
      PrefixIsNumber(t, ScanNumber(t).value);
    } else if t[0] == '[' {
      var u := Skip(t[1..]);
      if StartsWith(u, ']') {
        ItemsLength(Null, []);
      } else {
        ItemsConsume(u, depth - 1, numbers);
      }
    } else {
      var u := Skip(t[1..]);
      if StartsWith(u, '}') {
        ObjectLength([]);
      } else {
        FieldsConsume(u, [], depth - 1, numbers);
        NoFields();
        ObjectLength(ParseFields(u, [], depth - 1, numbers).value.value);
      }
    }
  }

  lemma {:induction false} ItemsConsume(s: string, depth: nat, numbers: Numbers)
    requires Curt(numbers) && ParseItems(s, depth, numbers).Some?
    ensures var r := ParseItems(s, depth, numbers).value; |Printed(Arr(r.value))| + |r.rest| <= 1 + |s|
    decreases |s|, 1
  {
    hide Printed, MoreItems, ParseValue, Skip;
    ValueConsumes(s, depth, numbers);
    var item := ParseValue(s, depth, numbers).value;
    var t := Skip(item.rest);
    if StartsWith(t, ']') {
      ItemsLength(item.value, []);
      assert [item.value] + [] == [item.value];
    } else {
      ItemsConsume(t[1..], depth, numbers);
      var more := ParseItems(t[1..], depth, numbers).value.value;
      ItemsLength(item.value, more);
      ItemsMore(more);
    }
  }

  lemma ItemsMore(more: seq<Value>)
    requires more != []
    ensures |MoreItems(more)| == |Printed(Arr(more))|
  {
    ItemsLength(more[0], more[1..]);
    assert more == [more[0]] + more[1..];
    hide Printed, MoreItems;
  }

  lemma {:induction false} FieldsConsume(s: string, before: seq<Field>, depth: nat, numbers: Numbers)
    requires Curt(numbers) && ParseFields(s, before, depth, numbers).Some?
    ensures var r := ParseFields(s, before, depth, numbers).value;
            FieldsLength(r.value) + |r.rest| <= FieldsLength(before) + |s| && r.value != []
    decreases |s|, 1
  {
    hide FieldsLength, PrintedField, ParseField, Put, Skip;
    FieldConsumes(s, depth, numbers);
    var field := ParseField(s, depth, numbers).value;
    var t := Skip(field.rest);
    PutLength(before, field.value.key, field.value.value);
    if !StartsWith(t, '}') {
      FieldsConsume(t[1..], Put(before, field.value.key, field.value.value), depth, numbers);
    }
  }

  lemma {:induction false} FieldConsumes(s: string, depth: nat, numbers: Numbers)
    requires Curt(numbers) && ParseField(s, depth, numbers).Some?
    ensures var r := ParseField(s, depth, numbers).value; |PrintedField(r.value)| + |r.rest| <= |s|
    decreases |s|, 0
  {
    hide ParseChars, ParseValue, EscapedAll, Printed, Skip;
    var t := Skip(s);
    CharsConsume(t[1..]);
    var key := ParseChars(t[1..]).value;
    var c := Skip(key.rest);
    ValueConsumes(c[1..], depth, numbers);
  }

  /** Whatever text is read as a value is at least as long as the value's printed text. */
  lemma PrintedIsShortest(s: string, depth: nat, numbers: Numbers)
    requires Curt(numbers) && Parse(s, depth, numbers).Some?
    ensures |Printed(Parse(s, depth, numbers).value)| <= |s|
  {
    ValueConsumes(s, depth, numbers);
    hide ParseValue, Printed;
  }
}
