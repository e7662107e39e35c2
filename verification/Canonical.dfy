/**
 Canonical JSON text and the rewriting of historical tool arguments: object keys sorted by code point at every
 level, everything else kept.
 */
module Canonical {
  import opened Prelude
  import opened Json

  // ---- key order ----

  predicate Less(a: string, b: string) {
    b != [] && (a == [] || a[0] < b[0] || (a[0] == b[0] && Less(a[1..], b[1..])))
  }

  lemma {:induction false} LessTotal(a: string, b: string)
    ensures Less(a, b) || Less(b, a) || a == b
    ensures !(Less(a, b) && Less(b, a)) && !Less(a, a)
  {
    if a != [] && b != [] {
      LessTotal(a[1..], b[1..]);
      LessTotal(a[1..], a[1..]);
      assert a == [a[0]] + a[1..] && b == [b[0]] + b[1..];
    } else if a != [] {
      LessTotal(a[1..], a[1..]);
    }
  }

  lemma {:induction false} LessTransitive(a: string, b: string, c: string)
    requires Less(a, b) && Less(b, c)
    ensures Less(a, c)
  {
    if a != [] && a[0] == b[0] == c[0] {
      LessTransitive(a[1..], b[1..], c[1..]);
    }
  }

  predicate Ascending(keys: seq<string>) {
    forall i, j | 0 <= i < j < |keys| :: Less(keys[i], keys[j])
  }

  function Insert(key: string, keys: seq<string>): (r: seq<string>)
    ensures |r| == |keys| + 1 && forall k :: k in r <==> k == key || k in keys
  {
    if keys == [] || Less(key, keys[0]) then [key] + keys else [keys[0]] + Insert(key, keys[1..])
  }

  function SortedKeys(keys: seq<string>): (r: seq<string>)
    ensures |r| == |keys| && forall k :: k in r <==> k in keys
  {
    if keys == [] then [] else Insert(keys[0], SortedKeys(keys[1..]))
  }

  predicate AllAbove(key: string, keys: seq<string>) {
    forall k | k in keys :: Less(key, k)
  }

  lemma AscendingCons(key: string, keys: seq<string>)
    requires Ascending(keys) && AllAbove(key, keys)
    ensures Ascending([key] + keys)
  {
  }

  lemma AscendingTail(keys: seq<string>)
    requires keys != [] && Ascending(keys)
    ensures Ascending(keys[1..]) && AllAbove(keys[0], keys[1..])
  {
  }

  lemma {:induction false} InsertAscends(key: string, keys: seq<string>)
    requires Ascending(keys) && key !in keys
    ensures Ascending(Insert(key, keys))
  {
    if keys != [] {
      AscendingTail(keys);
      LessTotal(key, keys[0]);
      if Less(key, keys[0]) {
        forall k | k in keys ensures Less(key, k) {
          if k != keys[0] {
            LessTransitive(key, keys[0], k);
          }
        }
        AscendingCons(key, keys);
      } else {
        InsertAscends(key, keys[1..]);
        AscendingCons(keys[0], Insert(key, keys[1..]));
      }
    }
  }

  lemma {:induction false} SortedKeysAscend(keys: seq<string>)
    requires forall i, j | 0 <= i < j < |keys| :: keys[i] != keys[j]
    ensures Ascending(SortedKeys(keys))
  {
    if keys != [] {
      SortedKeysAscend(keys[1..]);
      InsertAscends(keys[0], SortedKeys(keys[1..]));
    }
  }

  /** An ascending list is determined by what it contains. */
  lemma {:induction false} AscendingUnique(a: seq<string>, b: seq<string>)
    requires Ascending(a) && Ascending(b) && forall k :: k in a <==> k in b
    ensures a == b
  {
    if a != [] {
      assert a[0] in b && b != [];
      assert b[0] in a;
      AscendingTail(a);
      AscendingTail(b);
      LessTotal(a[0], b[0]);
      forall k ensures k in a[1..] <==> k in b[1..] {
        SameTail(a, b, k);
        SameTail(b, a, k);
      }
      AscendingUnique(a[1..], b[1..]);
      assert a == [a[0]] + a[1..] && b == [b[0]] + b[1..];
    } else {
      SomeMember(b);
    }
  }

  lemma SomeMember(b: seq<string>)
    ensures b == [] || exists k :: k in b
  {
    if b != [] {
      assert b[0] in b;
    }
  }

  lemma SameTail(a: seq<string>, b: seq<string>, k: string)
    requires a != [] && b != [] && a[0] == b[0] && AllAbove(a[0], a[1..]) && forall x :: x in a <==> x in b
    ensures k in a[1..] ==> k in b[1..]
  {
    if k in a[1..] {
      LessTotal(k, k);
      assert k in b;
    }
  }

  // ---- the sorted value ----

  function Keys(fields: seq<Field>): (r: seq<string>)
    ensures |r| == |fields| && forall i | 0 <= i < |r| :: r[i] == fields[i].key
    ensures forall k :: k in r <==> HasKey(fields, k)
  {
    seq(|fields|, i requires 0 <= i < |fields| => fields[i].key)
  }

  function Sorted(v: Value): Value
    decreases v
  {
    match v
    case Arr(items) => Arr(seq(|items|, i requires 0 <= i < |items| => Sorted(items[i])))
    case Obj(fields) =>
      var keys := SortedKeys(Keys(fields));
      Obj(seq(|keys|, i requires 0 <= i < |keys| => Field(keys[i], Sorted(fields[At(fields, keys[i])].value))))
    case _ => v
  }

  function CanonicalJsonString(v: Value): string {
    Printed(Sorted(v))
  }

  /** What a value says, whatever the order of its keys. */
  datatype Meaning =
    | MNull
    | MBool(value: bool)
    | MNum(token: string)
    | MStr(text: string)
    | MArr(items: seq<Meaning>)
    | MObj(fields: map<string, Meaning>)

  function MeaningOf(v: Value): Meaning
    decreases v
  {
    match v
    case Null => MNull
    case Bool(b) => MBool(b)
    case Num(token) => MNum(token)
    case Str(text) => MStr(text)
    case Arr(items) => MArr(seq(|items|, i requires 0 <= i < |items| => MeaningOf(items[i])))
    case Obj(fields) => MObj(map k | k in Keys(fields) :: MeaningOf(fields[At(fields, k)].value))
  }

  predicate IsCanonical(v: Value)
    decreases v
  {
    match v
    case Arr(items) => forall i | 0 <= i < |items| :: IsCanonical(items[i])
    case Obj(fields) => Ascending(Keys(fields)) && forall i | 0 <= i < |fields| :: IsCanonical(fields[i].value)
    case _ => true
  }

  lemma {:induction false} AtIndex(fields: seq<Field>, i: nat)
    requires i < |fields| && Distinct(fields)
    ensures HasKey(fields, fields[i].key) && At(fields, fields[i].key) == i
  {
  }

  lemma {:induction false} SortedKeepsMeaning(v: Value)
    requires WellFormed(v)
    ensures MeaningOf(Sorted(v)) == MeaningOf(v)
    decreases v
  {
    match v {
      case Arr(items) =>
        forall i | 0 <= i < |items| ensures MeaningOf(Sorted(items[i])) == MeaningOf(items[i]) {
          SortedKeepsMeaning(items[i]);
        }
      case Obj(fields) =>
        var sorted := Sorted(v).fields;
        forall k | HasKey(fields, k) ensures MeaningOf(Sorted(fields[At(fields, k)].value)) == MeaningOf(fields[At(fields, k)].value) {
          SortedKeepsMeaning(fields[At(fields, k)].value);
        }
        ObjectMeaning(fields, sorted);
      case _ =>
    }
  }

  lemma SortedFields(fields: seq<Field>, i: nat)
    requires i < |fields|
    ensures var sorted := Sorted(Obj(fields)).fields; var keys := SortedKeys(Keys(fields));
            |sorted| == |fields| && HasKey(fields, keys[i]) && sorted[i] == Field(keys[i], Sorted(fields[At(fields, keys[i])].value))
  {
    hide SortedKeys, At;
  }

  lemma ObjectMeaning(fields: seq<Field>, sorted: seq<Field>)
    requires sorted == Sorted(Obj(fields)).fields
    requires forall k | HasKey(fields, k) :: MeaningOf(Sorted(fields[At(fields, k)].value)) == MeaningOf(fields[At(fields, k)].value)
    ensures MeaningOf(Obj(sorted)) == MeaningOf(Obj(fields))
  {
    var keys := SortedKeys(Keys(fields));
    hide SortedKeys, At, Sorted;
    forall i | 0 <= i < |fields| ensures |sorted| == |fields| && sorted[i].key == keys[i] {
      SortedFields(fields, i);
    }
    SameLength(fields);
    assert Keys(sorted) == keys;
    forall k | k in Keys(sorted) ensures k in Keys(fields) && MeaningOf(sorted[At(sorted, k)].value) == MeaningOf(fields[At(fields, k)].value) {
      SortedFields(fields, At(sorted, k));
    }
  }

  lemma SameLength(fields: seq<Field>)
    ensures Sorted(Obj(fields)).Obj? && |Sorted(Obj(fields)).fields| == |fields|
  {
    hide SortedKeys;
  }

  lemma {:induction false} SortedIsCanonical(v: Value)
    requires WellFormed(v)
    ensures IsCanonical(Sorted(v)) && WellFormed(Sorted(v))
    decreases v
  {
    match v {
      case Arr(items) =>
        forall i | 0 <= i < |items| ensures IsCanonical(Sorted(items[i])) && WellFormed(Sorted(items[i])) {
          SortedIsCanonical(items[i]);
        }
      case Obj(fields) =>
        var sorted := Sorted(v).fields;
        SameLength(fields);
        SortedKeysAscend(Keys(fields));
        forall i | 0 <= i < |fields|
          ensures sorted[i].key == SortedKeys(Keys(fields))[i]
          ensures IsCanonical(sorted[i].value) && WellFormed(sorted[i].value)
        {
          SortedFields(fields, i);
          SortedIsCanonical(fields[At(fields, SortedKeys(Keys(fields))[i])].value);
        }
        AscendingIsDistinct(sorted, SortedKeys(Keys(fields)));
      case _ =>
    }
  }

  lemma AscendingIsDistinct(fields: seq<Field>, keys: seq<string>)
    requires Ascending(keys) && |keys| == |fields| && forall i | 0 <= i < |fields| :: fields[i].key == keys[i]
    ensures Ascending(Keys(fields)) && Distinct(fields)
  {
    assert Keys(fields) == keys;
    forall i, j | 0 <= i < j < |fields| ensures fields[i].key != fields[j].key {
      assert Less(keys[i], keys[j]);
      LessTotal(keys[i], keys[i]);
    }
  }

  lemma {:induction false} SortedFits(v: Value, depth: nat)
    requires Fits(v, depth)
    ensures Fits(Sorted(v), depth)
    decreases v
  {
    match v {
      case Arr(items) =>
        forall i | 0 <= i < |items| ensures Fits(Sorted(items[i]), depth - 1) {
          SortedFits(items[i], depth - 1);
        }
      case Obj(fields) =>
        SameLength(fields);
        forall i | 0 <= i < |fields| ensures Fits(Sorted(v).fields[i].value, depth - 1) {
          SortedFields(fields, i);
          SortedFits(fields[At(fields, SortedKeys(Keys(fields))[i])].value, depth - 1);
        }
      case _ =>
    }
  }

  /** Canonical values with the same meaning are the same value. */
  lemma {:induction false} CanonicalUnique(v: Value, w: Value)
    requires IsCanonical(v) && IsCanonical(w) && MeaningOf(v) == MeaningOf(w)
    ensures v == w
    decreases v
  {
    if v.Arr? {
      assert |v.items| == |MeaningOf(v).items| && |w.items| == |MeaningOf(w).items|;
      forall i | 0 <= i < |v.items| ensures v.items[i] == w.items[i] {
        assert MeaningOf(v.items[i]) == MeaningOf(v).items[i] && MeaningOf(w.items[i]) == MeaningOf(w).items[i];
        CanonicalUnique(v.items[i], w.items[i]);
      }
    } else if v.Obj? {
      var f, g := v.fields, w.fields;
      SameKeys(f, g);
      forall i | 0 <= i < |f| ensures f[i] == g[i] {
        AscendingIsDistinct(f, Keys(f));
        AscendingIsDistinct(g, Keys(g));
        FieldMeaning(f, i);
        FieldMeaning(g, i);
        CanonicalUnique(f[i].value, g[i].value);
      }
    }
  }

  lemma SameKeys(f: seq<Field>, g: seq<Field>)
    requires Ascending(Keys(f)) && Ascending(Keys(g)) && MeaningOf(Obj(f)) == MeaningOf(Obj(g))
    ensures |f| == |g| && forall i | 0 <= i < |f| :: f[i].key == g[i].key
  {
    hide At;
    forall k ensures k in Keys(f) <==> k in Keys(g) {
      assert k in Keys(f) <==> k in MeaningOf(Obj(f)).fields;
      assert k in Keys(g) <==> k in MeaningOf(Obj(g)).fields;
    }
    AscendingUnique(Keys(f), Keys(g));
  }

  lemma FieldMeaning(f: seq<Field>, i: nat)
    requires i < |f| && Distinct(f)
    ensures f[i].key in MeaningOf(Obj(f)).fields && MeaningOf(Obj(f)).fields[f[i].key] == MeaningOf(f[i].value)
  {
    AtIndex(f, i);
    hide At;
  }

  ghost predicate FitsFrom(v: Value, depth: nat) {
    forall d: nat | d >= depth :: Fits(v, d)
  }

  /** Some depth is enough for any value. */
  lemma {:induction false} DeepEnough(v: Value) returns (depth: nat)
    ensures FitsFrom(v, depth)
    decreases v
  {
    depth := 2;
    if v.Arr? {
      for i := 0 to |v.items|
        invariant depth >= 2 && forall j | 0 <= j < i :: FitsFrom(v.items[j], depth - 1)
      {
        var inner := DeepEnough(v.items[i]);
        depth := if inner + 1 > depth then inner + 1 else depth;
      }
    } else if v.Obj? {
      for i := 0 to |v.fields|
        invariant depth >= 2 && forall j | 0 <= j < i :: FitsFrom(v.fields[j].value, depth - 1)
      {
        var inner := DeepEnough(v.fields[i].value);
        depth := if inner + 1 > depth then inner + 1 else depth;
      }
    }
  }

  const ANY_NUMBER: Numbers := token => Some(token)

  lemma {:induction false} AllSettled(v: Value)
    ensures Settled(v, ANY_NUMBER)
    decreases v
  {
    match v {
      case Arr(items) =>
        forall i | 0 <= i < |items| ensures Settled(items[i], ANY_NUMBER) {
          AllSettled(items[i]);
        }
      case Obj(fields) =>
        forall i | 0 <= i < |fields| ensures Settled(fields[i].value, ANY_NUMBER) {
          AllSettled(fields[i].value);
        }
      case _ =>
    }
  }

  /** Two values print the same only if they are the same. */
  lemma PrintedInjective(v: Value, w: Value)
    requires WellFormed(v) && WellFormed(w) && Printed(v) == Printed(w)
    ensures v == w
  {
    var a := DeepEnough(v);
    var b := DeepEnough(w);
    AllSettled(v);
    AllSettled(w);
    RoundTripExactlyWhen(v, a + b, ANY_NUMBER);
    RoundTripExactlyWhen(w, a + b, ANY_NUMBER);
  }

  /** The canonical text says what the value says: it is blind to key order and to nothing else. */
  lemma CanonicalExactlyMeaning(v: Value, w: Value)
    requires WellFormed(v) && WellFormed(w)
    ensures CanonicalJsonString(v) == CanonicalJsonString(w) <==> MeaningOf(v) == MeaningOf(w)
  {
    SortedKeepsMeaning(v);
    SortedKeepsMeaning(w);
    SortedIsCanonical(v);
    SortedIsCanonical(w);
    if CanonicalJsonString(v) == CanonicalJsonString(w) {
      PrintedInjective(Sorted(v), Sorted(w));
    } else if MeaningOf(v) == MeaningOf(w) {
      CanonicalUnique(Sorted(v), Sorted(w));
    }
  }

  lemma CanonicalIsSorted(v: Value)
    requires WellFormed(v) && IsCanonical(v)
    ensures Sorted(v) == v
  {
    SortedIsCanonical(v);
    SortedKeepsMeaning(v);
    CanonicalUnique(Sorted(v), v);
  }

  // ---- numbers read once more ----

  /** Every sorted field comes from some place of the original ones. */
  lemma SortedSource(fields: seq<Field>, j: nat) returns (i: nat)
    requires j < |fields|
    ensures Sorted(Obj(fields)).Obj? && i < |fields| == |Sorted(Obj(fields)).fields|
    ensures Sorted(Obj(fields)).fields[j].value == Sorted(fields[i].value)
  {
    SortedFields(fields, j);
    i := At(fields, SortedKeys(Keys(fields))[j]);
  }

  /** Every field is found at some place of the sorted ones. */
  lemma SortedPlace(fields: seq<Field>, i: nat) returns (j: nat)
    requires Distinct(fields) && i < |fields|
    ensures Sorted(Obj(fields)).Obj? && j < |fields| == |Sorted(Obj(fields)).fields|
    ensures Sorted(Obj(fields)).fields[j] == Field(fields[i].key, Sorted(fields[i].value))
  {
    var keys := SortedKeys(Keys(fields));
    assert Keys(fields)[i] in Keys(fields);
    assert fields[i].key in keys;
    j :| 0 <= j < |keys| && keys[j] == fields[i].key;
    SortedFields(fields, j);
    AtIndex(fields, i);
  }

  /** Two values whose number tokens answer both questions alike. */
  predicate SameNumbers(v: Value, w: Value, numbers: Numbers) {
    (Readable(v, numbers) <==> Readable(w, numbers)) && (Settled(v, numbers) <==> Settled(w, numbers))
  }

  lemma {:induction false} SortedNumbers(v: Value, numbers: Numbers)
    requires WellFormed(v)
    ensures SameNumbers(Sorted(v), v, numbers)
    decreases v
  {
    match v {
      case Arr(items) =>
        forall i | 0 <= i < |items| ensures SameNumbers(Sorted(items[i]), items[i], numbers) {
          SortedNumbers(items[i], numbers);
        }
        assert forall i | 0 <= i < |items| :: Sorted(v).items[i] == Sorted(items[i]);
      case Obj(fields) =>
        forall i | 0 <= i < |fields| ensures SameNumbers(Sorted(fields[i].value), fields[i].value, numbers) {
          SortedNumbers(fields[i].value, numbers);
        }
        hide Sorted, SameNumbers;
        SortedFieldNumbers(fields, numbers);
      case _ =>
    }
  }

  predicate AnyAlike(v: Value, g: seq<Field>, numbers: Numbers) {
    exists j :: 0 <= j < |g| && SameNumbers(v, g[j].value, numbers)
  }

  lemma OneIsAlike(v: Value, g: seq<Field>, j: nat, numbers: Numbers)
    requires j < |g| && SameNumbers(v, g[j].value, numbers)
    ensures AnyAlike(v, g, numbers)
  {
  }

  /** For every field of the first list there is one of the second with the same numbers. */
  predicate Follows(f: seq<Field>, g: seq<Field>, numbers: Numbers) {
    forall i | 0 <= i < |f| :: AnyAlike(f[i].value, g, numbers)
  }

  predicate SortsAlike(fields: seq<Field>, numbers: Numbers) {
    forall i | 0 <= i < |fields| :: SameNumbers(Sorted(fields[i].value), fields[i].value, numbers)
  }

  lemma SortedFollows(fields: seq<Field>, numbers: Numbers)
    requires SortsAlike(fields, numbers)
    ensures Sorted(Obj(fields)).Obj? && Follows(Sorted(Obj(fields)).fields, fields, numbers)
  {
    hide SameNumbers, Sorted, AnyAlike;
    SameLength(fields);
    var sorted := Sorted(Obj(fields)).fields;
    forall j | 0 <= j < |sorted| ensures AnyAlike(sorted[j].value, fields, numbers) {
      var i := SortedSource(fields, j);
      OneIsAlike(sorted[j].value, fields, i, numbers);
    }
  }

  lemma FollowsSorted(fields: seq<Field>, numbers: Numbers)
    requires Distinct(fields) && SortsAlike(fields, numbers)
    ensures Sorted(Obj(fields)).Obj? && Follows(fields, Sorted(Obj(fields)).fields, numbers)
  {
    hide SameNumbers, Sorted, Distinct, AnyAlike;
    SameLength(fields);
    var sorted := Sorted(Obj(fields)).fields;
    forall i | 0 <= i < |fields| ensures AnyAlike(fields[i].value, sorted, numbers) {
      var j := SortedPlace(fields, i);
      SameNumbersSymmetric(sorted[j].value, fields[i].value, numbers);
      OneIsAlike(fields[i].value, sorted, j, numbers);
    }
  }

  lemma SortedFieldNumbers(fields: seq<Field>, numbers: Numbers)
    requires Distinct(fields) && SortsAlike(fields, numbers)
    ensures SameNumbers(Sorted(Obj(fields)), Obj(fields), numbers)
  {
    hide *;
    SortedFollows(fields, numbers);
    FollowsSorted(fields, numbers);
    NumbersFollow(Sorted(Obj(fields)).fields, fields, numbers);
    NumbersFollow(fields, Sorted(Obj(fields)).fields, numbers);
    BothFollow(Sorted(Obj(fields)), Obj(fields), numbers);
  }

  lemma SameNumbersSymmetric(v: Value, w: Value, numbers: Numbers)
    requires SameNumbers(v, w, numbers)
    ensures SameNumbers(w, v, numbers)
  {
  }

  lemma BothFollow(v: Value, w: Value, numbers: Numbers)
    requires (Readable(v, numbers) <==> Readable(w, numbers)) && (Settled(v, numbers) <==> Settled(w, numbers))
    ensures SameNumbers(v, w, numbers)
  {
  }

  lemma NumbersFollow(f: seq<Field>, g: seq<Field>, numbers: Numbers)
    requires Follows(f, g, numbers)
    ensures Readable(Obj(g), numbers) ==> Readable(Obj(f), numbers)
    ensures Settled(Obj(g), numbers) ==> Settled(Obj(f), numbers)
  {
    hide SameNumbers;
    forall i | 0 <= i < |f|
      ensures Readable(Obj(g), numbers) ==> Readable(f[i].value, numbers)
      ensures Settled(Obj(g), numbers) ==> Settled(f[i].value, numbers)
    {
      var j :| 0 <= j < |g| && SameNumbers(f[i].value, g[j].value, numbers);
      SameNumbersMeans(f[i].value, g[j].value, numbers);
    }
  }

  lemma SameNumbersMeans(v: Value, w: Value, numbers: Numbers)
    requires SameNumbers(v, w, numbers)
    ensures (Readable(v, numbers) <==> Readable(w, numbers)) && (Settled(v, numbers) <==> Settled(w, numbers))
  {
  }

  lemma {:induction false} RereadKeeps(v: Value, numbers: Numbers)
    requires WellFormed(v) && Renders(numbers)
    ensures WellFormed(Reread(v, numbers)) && (IsCanonical(v) ==> IsCanonical(Reread(v, numbers)))
    decreases v
  {
    match v {
      case Arr(items) =>
        forall i | 0 <= i < |items|
          ensures WellFormed(Reread(items[i], numbers)) && (IsCanonical(items[i]) ==> IsCanonical(Reread(items[i], numbers)))
        {
          RereadKeeps(items[i], numbers);
        }
      case Obj(fields) =>
        forall i | 0 <= i < |fields|
          ensures WellFormed(Reread(fields[i].value, numbers))
          ensures IsCanonical(fields[i].value) ==> IsCanonical(Reread(fields[i].value, numbers))
        {
          RereadKeeps(fields[i].value, numbers);
        }
        assert Keys(Reread(v, numbers).fields) == Keys(fields);
      case _ =>
    }
  }

  /** Numbers that change when they are read once more change the meaning. */
  lemma {:induction false} RereadMeans(v: Value, numbers: Numbers)
    requires WellFormed(v) && MeaningOf(Reread(v, numbers)) == MeaningOf(v)
    ensures Reread(v, numbers) == v
    decreases v
  {
    if v.Arr? {
      var r := Reread(v, numbers).items;
      assert |r| == |v.items|;
      forall i | 0 <= i < |r| ensures r[i] == v.items[i] {
        assert MeaningOf(r[i]) == MeaningOf(Arr(r)).items[i] && MeaningOf(v.items[i]) == MeaningOf(v).items[i];
        RereadMeans(v.items[i], numbers);
      }
    } else if v.Obj? {
      var f, r := v.fields, Reread(v, numbers).fields;
      assert |r| == |f| && forall i | 0 <= i < |f| :: r[i].key == f[i].key;
      forall i | 0 <= i < |r| ensures r[i] == f[i] {
        FieldMeaning(f, i);
        FieldMeaning(r, i);
        RereadMeans(f[i].value, numbers);
      }
    }
  }

  /**
   Parsing the canonical text of a value returns its sorted form, with its numbers read and rendered once more; that
   means the same if and only if every number in it reads back as itself.
   */
  lemma CanonicalReads(v: Value, depth: nat, numbers: Numbers)
    requires WellFormed(v) && Fits(v, depth)
    ensures var r := Parse(CanonicalJsonString(v), depth, numbers);
            && r == (if Readable(v, numbers) then Some(Reread(Sorted(v), numbers)) else None)
            && (r.Some? && MeaningOf(r.value) == MeaningOf(v) <==> Settled(v, numbers))
    ensures Sorted(Sorted(v)) == Sorted(v)
  {
    SortedFits(v, depth);
    SortedIsCanonical(v);
    SortedKeepsMeaning(v);
    SortedNumbers(v, numbers);
    PrintedParses(Sorted(v), depth, numbers);
    SettledExactly(Sorted(v), numbers);
    CanonicalIsSorted(Sorted(v));
    hide *;
    if MeaningOf(Reread(Sorted(v), numbers)) == MeaningOf(v) {
      RereadMeans(Sorted(v), numbers);
    }
  }

  // ---- the writer as the program runs it ----

  function ItemsFrom(items: seq<Value>, i: nat): string
    requires i <= |items|
  {
    if i == 0 && items != [] then Printed(items[0]) + MoreItems(items[1..]) else MoreItems(items[i..])
  }

  function FieldsFrom(fields: seq<Field>, i: nat): string
    requires i <= |fields|
  {
    if i == 0 && fields != [] then PrintedField(fields[0]) + MoreFields(fields[1..]) else MoreFields(fields[i..])
  }

  lemma NextItemFrom(items: seq<Value>, i: nat)
    requires i < |items|
    ensures ItemsFrom(items, i) == (if i > 0 then "," else "") + Printed(items[i]) + ItemsFrom(items, i + 1)
  {
    hide Printed;
    assert items[i..][0] == items[i] && items[i..][1..] == items[i + 1..];
  }

  lemma NextFieldFrom(fields: seq<Field>, i: nat)
    requires i < |fields|
    ensures FieldsFrom(fields, i)
         == (if i > 0 then "," else "") + Quoted(fields[i].key) + ":" + Printed(fields[i].value) + FieldsFrom(fields, i + 1)
  {
    hide Printed, Quoted;
    assert fields[i..][0] == fields[i] && fields[i..][1..] == fields[i + 1..];
    var f := PrintedField(fields[i]);
    assert FieldsFrom(fields, i) == (if i > 0 then "," else "") + f + FieldsFrom(fields, i + 1);
    if i > 0 {
      Associate(",", Quoted(fields[i].key), ":");
      Associate(",", Quoted(fields[i].key) + ":", Printed(fields[i].value));
    } else {
      assert "" + Quoted(fields[i].key) == Quoted(fields[i].key);
    }
  }

  lemma Append(output: string, comma: string, item: string, after: string)
    ensures output + (comma + item + after) == output + comma + item + after
  {
  }

  lemma AppendField(output: string, comma: string, key: string, value: string, after: string)
    ensures output + (comma + key + ":" + value + after) == output + comma + key + ":" + value + after
  {
  }

  method WriteCanonical(value: Value, output: string) returns (r: string)
    ensures r == output + CanonicalJsonString(value)
    decreases value
  {
    match value {
      case Obj(fields) =>
        r := WriteObject(fields, output);
      case Arr(items) =>
        r := WriteArray(items, output);
      case Str(text) =>
        r := output + Quoted(text);
      case _ =>
        r := output + Printed(value);
    }
  }

  method WriteArray(items: seq<Value>, output: string) returns (r: string)
    ensures r == output + CanonicalJsonString(Arr(items))
    decreases items, 0
  {
    ghost var sorted := Sorted(Arr(items)).items;
    r := output + "[";
    assert r + ItemsFrom(sorted, 0) == output + CanonicalJsonString(Arr(items));
    hide Printed;
    for index := 0 to |items|
      invariant r + ItemsFrom(sorted, index) == output + CanonicalJsonString(Arr(items))
    {
      NextItemFrom(sorted, index);
      Append(r, if index > 0 then "," else "", Printed(sorted[index]), ItemsFrom(sorted, index + 1));
      hide ItemsFrom;
      if index > 0 {
        r := r + ",";
      } else {
        assert r + "" == r;
      }
      r := WriteCanonical(items[index], r);
    }
    r := r + "]";
  }

  method WriteObject(fields: seq<Field>, output: string) returns (r: string)
    ensures r == output + CanonicalJsonString(Obj(fields))
    decreases fields, 0
  {
    var keys := SortedKeys(Keys(fields));
    ghost var sorted := Sorted(Obj(fields)).fields;
    SameLength(fields);
    r := output + "{";
    assert r + FieldsFrom(sorted, 0) == output + CanonicalJsonString(Obj(fields));
    hide Printed, SortedKeys, Sorted, Quoted;
    for index := 0 to |keys|
      invariant r + FieldsFrom(sorted, index) == output + CanonicalJsonString(Obj(fields))
    {
      var key := keys[index];
      SortedFields(fields, index);
      NextFieldFrom(sorted, index);
      AppendField(r, if index > 0 then "," else "", Quoted(key), Printed(sorted[index].value), FieldsFrom(sorted, index + 1));
      hide FieldsFrom;
      if index > 0 {
        r := r + ",";
      } else {
        assert r + "" == r;
      }
      r := r + Quoted(key);
      r := r + ":";
      r := WriteCanonical(fields[At(fields, key)].value, r);
    }
    r := r + "}";
  }

  // ---- historical tool arguments ----

  function Get(v: Value, key: string): Option<Value> {
    if v.Obj? && HasKey(v.fields, key) then Some(v.fields[At(v.fields, key)].value) else None
  }

  /** The text of one argument string after the pass: canonical if it is JSON, else as it was. */
  function Rewritten(text: string, numbers: Numbers): string {
    var parsed := Parse(text, DEPTH, numbers);
    if parsed.Some? then CanonicalJsonString(parsed.value) else text
  }

  predicate HasArguments(call: Value) {
    var function_ := Get(call, "function");
    function_.Some? && function_.value.Obj?
    && Get(function_.value, "arguments").Some? && Get(function_.value, "arguments").value.Str?
  }

  function Arguments(call: Value): string
    requires HasArguments(call)
  {
    Get(Get(call, "function").value, "arguments").value.text
  }

  function WithArguments(call: Value, text: string): Value
    requires HasArguments(call)
  {
    Obj(Put(call.fields, "function", Obj(Put(Get(call, "function").value.fields, "arguments", Str(text)))))
  }

  predicate CallChanges(call: Value, numbers: Numbers) {
    HasArguments(call) && Rewritten(Arguments(call), numbers) != Arguments(call)
  }

  function CanonicalCall(call: Value, numbers: Numbers): Value {
    if CallChanges(call, numbers) then WithArguments(call, Rewritten(Arguments(call), numbers)) else call
  }

  function CanonicalCalls(calls: seq<Value>, numbers: Numbers): (r: seq<Value>)
    ensures |r| == |calls| && forall j | 0 <= j < |r| :: r[j] == CanonicalCall(calls[j], numbers)
  {
    seq(|calls|, j requires 0 <= j < |calls| => CanonicalCall(calls[j], numbers))
  }

  function CallsChanged(calls: seq<Value>, numbers: Numbers): nat {
    if calls == [] then 0
    else CallsChanged(calls[..|calls| - 1], numbers) + if CallChanges(calls[|calls| - 1], numbers) then 1 else 0
  }

  predicate HasCalls(message: Value) {
    Get(message, "tool_calls").Some? && Get(message, "tool_calls").value.Arr?
  }

  function Calls(message: Value): seq<Value> {
    if HasCalls(message) then Get(message, "tool_calls").value.items else []
  }

  function CanonicalMessage(message: Value, numbers: Numbers): Value {
    if HasCalls(message) then Obj(Put(message.fields, "tool_calls", Arr(CanonicalCalls(Calls(message), numbers)))) else message
  }

  predicate HasRole(message: Value, role: string) {
    Get(message, "role") == Some(Str(role))
  }

  predicate IsAction(message: Value) {
    HasRole(message, "user") || HasRole(message, "tool")
  }

  /** One past the last user or tool message; 0 if there is none. */
  function ActionEnd(messages: seq<Value>): (end: nat)
    ensures end <= |messages|
    ensures end > 0 ==> IsAction(messages[end - 1])
    ensures forall i | end <= i < |messages| :: !IsAction(messages[i])
  {
    if messages == [] then 0
    else if IsAction(messages[|messages| - 1]) then |messages|
    else ActionEnd(messages[..|messages| - 1])
  }

  /** An assistant message with a user or tool message after it. */
  predicate IsHistorical(messages: seq<Value>, i: nat)
    requires i < |messages|
  {
    i + 1 < ActionEnd(messages) && HasRole(messages[i], "assistant")
  }

  function CanonicalMessages(messages: seq<Value>, numbers: Numbers): (r: seq<Value>)
    ensures |r| == |messages|
    ensures forall i | 0 <= i < |r| ::
      r[i] == if IsHistorical(messages, i) then CanonicalMessage(messages[i], numbers) else messages[i]
  {
    seq(|messages|, i requires 0 <= i < |messages| =>
      if IsHistorical(messages, i) then CanonicalMessage(messages[i], numbers) else messages[i])
  }

  /** How many argument strings of the first `n` messages change. */
  function ChangedBefore(messages: seq<Value>, n: nat, numbers: Numbers): nat
    requires n <= |messages|
  {
    if n == 0 then 0
    else
      var last := if IsHistorical(messages, n - 1) then CallsChanged(Calls(messages[n - 1]), numbers) else 0;
      ChangedBefore(messages, n - 1, numbers) + last
  }

  method CanonicalizeCall(call: Value, numbers: Numbers) returns (r: Value, changed: bool)
    ensures r == CanonicalCall(call, numbers) && changed == CallChanges(call, numbers)
  {
    r, changed := call, false;
    if HasArguments(call) {
      var parsed := Parse(Arguments(call), DEPTH, numbers);
      if parsed.Some? {
        var canonical := WriteCanonical(parsed.value, "");
        hide Parse, WithArguments, HasArguments, Arguments, CanonicalJsonString;
        assert "" + CanonicalJsonString(parsed.value) == CanonicalJsonString(parsed.value);
        if canonical != Arguments(call) {
          r := WithArguments(call, canonical);
          changed := true;
        }
      }
    }
  }

  lemma CallsOneMore(calls: seq<Value>, call: Value, numbers: Numbers)
    ensures CanonicalCalls(calls + [call], numbers) == CanonicalCalls(calls, numbers) + [CanonicalCall(call, numbers)]
    ensures CallsChanged(calls + [call], numbers) == CallsChanged(calls, numbers) + if CallChanges(call, numbers) then 1 else 0
  {
    assert (calls + [call])[..|calls|] == calls;
    hide CanonicalCall, CallChanges;
  }

  lemma NoCalls(numbers: Numbers)
    ensures CanonicalCalls([], numbers) == [] && CallsChanged([], numbers) == 0
  {
  }

  method CanonicalizeCalls(calls: seq<Value>, numbers: Numbers) returns (r: seq<Value>, count: nat)
    ensures r == CanonicalCalls(calls, numbers) && count == CallsChanged(calls, numbers)
  {
    hide *;
    r, count := [], 0;
    NoCalls(numbers);
    assert calls[..0] == [];
    for j := 0 to |calls|
      invariant r == CanonicalCalls(calls[..j], numbers) && count == CallsChanged(calls[..j], numbers)
    {
      CallsOneMore(calls[..j], calls[j], numbers);
      assert calls[..j] + [calls[j]] == calls[..j + 1];
      var call, changed := CanonicalizeCall(calls[j], numbers);
      if changed {
        count := count + 1;
      }
      r := r + [call];
    }
    assert calls[..|calls|] == calls;
  }

  /** The pass, in place; no array stands for a body without messages. */
  method CanonicalizeToolArguments(messages: array?<Value>, numbers: Numbers) returns (count: nat)
    modifies messages
    ensures messages == null ==> count == 0
    ensures messages != null ==> messages[..] == CanonicalMessages(old(messages[..]), numbers)
    ensures messages != null ==> count == ChangedBefore(old(messages[..]), messages.Length, numbers)
  {
    hide *;
    count := 0;
    if messages == null {
      return;
    }
    ghost var before := messages[..];
    var end := LastAction(messages);
    NoProgress(before, numbers);
    for index := 0 to messages.Length
      invariant Progress(before, messages[..], index, numbers)
      invariant count == ChangedBefore(before, index, numbers)
    {
      var more := CanonicalizeAt(messages, index, end, before, numbers);
      count := count + more;
    }
    AllProgress(before, messages[..], numbers);
  }

  method CanonicalizeAt(messages: array<Value>, index: nat, end: nat, ghost before: seq<Value>, numbers: Numbers) returns (more: nat)
    requires index < messages.Length == |before| && Progress(before, messages[..], index, numbers) && end == ActionEnd(before)
    modifies messages
    ensures Progress(before, messages[..], index + 1, numbers)
    ensures ChangedBefore(before, index + 1, numbers) == ChangedBefore(before, index, numbers) + more
  {
    Progresses(before, messages[..], index, numbers);
    hide *;
    more := 0;
    if HasRole(messages[index], "assistant") && index + 1 < end {
      more := CanonicalizeMessage(messages, index, numbers);
    }
  }

  lemma NoProgress(before: seq<Value>, numbers: Numbers)
    ensures Progress(before, before, 0, numbers) && ChangedBefore(before, 0, numbers) == 0
  {
  }

  lemma AllProgress(before: seq<Value>, now: seq<Value>, numbers: Numbers)
    requires Progress(before, now, |before|, numbers)
    ensures now == CanonicalMessages(before, numbers)
  {
  }

  /** What doing message `n` amounts to. */
  lemma Progresses(before: seq<Value>, now: seq<Value>, n: nat, numbers: Numbers)
    requires n < |before| && |now| == |before| && Progress(before, now, n, numbers)
    ensures now[n] == before[n]
    ensures var done := if IsHistorical(before, n) then CanonicalMessage(before[n], numbers) else before[n];
            Progress(before, now[n := done], n + 1, numbers)
    ensures ChangedBefore(before, n + 1, numbers)
         == ChangedBefore(before, n, numbers) + if IsHistorical(before, n) then CallsChanged(Calls(before[n]), numbers) else 0
    ensures IsHistorical(before, n) <==> HasRole(before[n], "assistant") && n + 1 < ActionEnd(before)
    ensures now[n := now[n]] == now
  {
    hide CanonicalMessage, ActionEnd, HasRole, CallsChanged, Calls;
  }

  /** The messages before `n` are done, the rest are as they were. */
  ghost predicate Progress(before: seq<Value>, now: seq<Value>, n: nat, numbers: Numbers)
    requires n <= |before|
  {
    && |now| == |before|
    && (forall k | 0 <= k < n :: now[k] == CanonicalMessages(before, numbers)[k])
    && (forall k | n <= k < |before| :: now[k] == before[k])
  }

  method LastAction(messages: array<Value>) returns (end: nat)
    ensures end == ActionEnd(messages[..])
  {
    ghost var all := messages[..];
    end := messages.Length;
    assert all[..end] == all;
    while end > 0 && !IsAction(messages[end - 1])
      invariant end <= messages.Length && ActionEnd(all) == ActionEnd(all[..end])
    {
      assert all[..end][..end - 1] == all[..end - 1];
      end := end - 1;
    }
    hide IsAction;
    assert end > 0 ==> all[..end][end - 1] == messages[end - 1];
  }

  method CanonicalizeMessage(messages: array<Value>, index: nat, numbers: Numbers) returns (count: nat)
    requires index < messages.Length
    modifies messages
    ensures messages[..] == old(messages[..])[index := CanonicalMessage(old(messages[index]), numbers)]
    ensures count == CallsChanged(Calls(old(messages[index])), numbers)
  {
    count := 0;
    if HasCalls(messages[index]) {
      var calls, more := CanonicalizeCalls(Calls(messages[index]), numbers);
      messages[index] := Obj(Put(messages[index].fields, "tool_calls", Arr(calls)));
      count := more;
    }
  }

  // ---- what the pass does not touch ----

  /** Two objects with the same keys in the same order, and the same values but for one key. */
  predicate SameBut(a: Value, b: Value, key: string) {
    && a.Obj? && b.Obj? && |a.fields| == |b.fields|
    && forall i | 0 <= i < |a.fields| :: a.fields[i].key == b.fields[i].key && (a.fields[i].key != key ==> a.fields[i] == b.fields[i])
  }

  /** Both texts mean the same JSON value, or neither is JSON and they are equal. */
  predicate SameArgument(a: string, b: string, numbers: Numbers) {
    var v, w := Parse(a, DEPTH, numbers), Parse(b, DEPTH, numbers);
    if v.Some? then w.Some? && MeaningOf(v.value) == MeaningOf(w.value) else a == b
  }

  /** The text is not JSON, or each number in it, once read and rendered, reads back as itself. */
  predicate SettledText(text: string, numbers: Numbers) {
    var v := Parse(text, DEPTH, numbers);
    v.Some? ==> Settled(v.value, numbers)
  }

  /** The same, or some number in it, once read and rendered, is out of range. */
  predicate IdleText(text: string, numbers: Numbers) {
    var v := Parse(text, DEPTH, numbers);
    v.Some? ==> Settled(v.value, numbers) || !Readable(v.value, numbers)
  }

  /** The call with its argument text rewritten and all else in place. */
  predicate CallRewritten(a: Value, b: Value, numbers: Numbers) {
    if HasArguments(a) then
      && HasArguments(b) && SameBut(a, b, "function")
      && SameBut(Get(a, "function").value, Get(b, "function").value, "arguments")
      && Arguments(b) == Rewritten(Arguments(a), numbers)
    else b == a
  }

  /** The message with the argument texts of its calls rewritten and all else in place. */
  predicate MessageRewritten(a: Value, b: Value, numbers: Numbers) {
    if HasCalls(a) then
      && HasCalls(b) && SameBut(a, b, "tool_calls") && |Calls(a)| == |Calls(b)|
      && forall j | 0 <= j < |Calls(a)| :: CallRewritten(Calls(a)[j], Calls(b)[j], numbers)
    else b == a
  }

  /** Every argument text of the message still means what it meant. */
  predicate MessageKeepsMeaning(a: Value, b: Value, numbers: Numbers) {
    |Calls(a)| == |Calls(b)| && forall j | 0 <= j < |Calls(a)| && HasArguments(Calls(a)[j]) ::
      HasArguments(Calls(b)[j]) && SameArgument(Arguments(Calls(a)[j]), Arguments(Calls(b)[j]), numbers)
  }

  predicate SettledMessage(m: Value, numbers: Numbers) {
    forall j | 0 <= j < |Calls(m)| && HasArguments(Calls(m)[j]) :: SettledText(Arguments(Calls(m)[j]), numbers)
  }

  predicate IdleMessage(m: Value, numbers: Numbers) {
    forall j | 0 <= j < |Calls(m)| && HasArguments(Calls(m)[j]) :: IdleText(Arguments(Calls(m)[j]), numbers)
  }

  lemma {:induction false} Replaced(fs: seq<Field>, key: string, value: Value)
    requires HasKey(fs, key)
    ensures var r := Put(fs, key, value);
            HasKey(r, key) && At(r, key) == At(fs, key) && r[At(r, key)].value == value && |r| == |fs|
  {
    if fs[0].key != key {
      HasKeyLater(fs, key);
      Replaced(fs[1..], key, value);
      assert Put(fs, key, value)[1..] == Put(fs[1..], key, value);
      hide HasKey;
      assert HasKey(Put(fs, key, value), key) by { HasKeyEarlier(Put(fs, key, value), key); }
    }
    assert Put(fs, key, value)[At(fs, key)].key == key;
  }

  lemma HasKeyLater(fs: seq<Field>, key: string)
    requires HasKey(fs, key) && fs[0].key != key
    ensures HasKey(fs[1..], key)
  {
    var i :| 0 <= i < |fs| && fs[i].key == key;
    assert fs[1..][i - 1].key == key;
  }

  lemma HasKeyEarlier(fs: seq<Field>, key: string)
    requires fs != [] && HasKey(fs[1..], key)
    ensures HasKey(fs, key)
  {
    var i :| 0 <= i < |fs[1..]| && fs[1..][i].key == key;
    assert fs[i + 1].key == key;
  }

  lemma {:induction false} OtherKey(fs: seq<Field>, key: string, value: Value, other: string)
    requires HasKey(fs, key) && other != key
    ensures Get(Obj(Put(fs, key, value)), other) == Get(Obj(fs), other)
  {
    var r := Put(fs, key, value);
    Replaced(fs, key, value);
    SameHasKey(fs, r, other);
    SameHasKey(r, fs, other);
    if HasKey(fs, other) {
      SameAt(fs, r, other);
    }
  }

  lemma SameHasKey(a: seq<Field>, b: seq<Field>, key: string)
    requires |a| == |b| && forall i | 0 <= i < |a| :: a[i].key == b[i].key
    ensures HasKey(a, key) ==> HasKey(b, key)
  {
  }

  lemma {:induction false} SameAt(a: seq<Field>, b: seq<Field>, key: string)
    requires |a| == |b| && (forall i | 0 <= i < |a| :: a[i].key == b[i].key) && HasKey(a, key) && HasKey(b, key)
    ensures At(a, key) == At(b, key)
  {
    if a[0].key != key {
      assert HasKey(a[1..], key) by { assert a[1..][At(a, key) - 1].key == key; }
      assert HasKey(b[1..], key) by { assert b[1..][At(b, key) - 1].key == key; }
      SameAt(a[1..], b[1..], key);
    }
  }

  lemma PutSameBut(fs: seq<Field>, key: string, value: Value)
    requires HasKey(fs, key)
    ensures SameBut(Obj(fs), Obj(Put(fs, key, value)), key) && Get(Obj(Put(fs, key, value)), key) == Some(value)
  {
    Replaced(fs, key, value);
  }

  lemma NewArguments(call: Value, text: string)
    requires HasArguments(call)
    ensures var now := WithArguments(call, text);
            && HasArguments(now) && Arguments(now) == text && SameBut(call, now, "function")
            && SameBut(Get(call, "function").value, Get(now, "function").value, "arguments")
  {
    var inner := Get(call, "function").value;
    hide Put, At;
    PutSameBut(inner.fields, "arguments", Str(text));
    PutSameBut(call.fields, "function", Obj(Put(inner.fields, "arguments", Str(text))));
  }

  /** Rewriting an argument keeps what it means if and only if each number in it is settled. */
  lemma RewrittenKeepsExactlyWhen(text: string, numbers: Numbers)
    requires Renders(numbers)
    ensures SameArgument(text, Rewritten(text, numbers), numbers) <==> SettledText(text, numbers)
  {
    var parsed := Parse(text, DEPTH, numbers);
    if parsed.Some? {
      ParsedIsWellFormed(text, DEPTH, numbers);
      hide ParseValue, Printed, Sorted, MeaningOf, WellFormed, Fits, Renders, Settled, Readable, Reread;
      CanonicalReads(parsed.value, DEPTH, numbers);
    }
  }

  lemma CanonicalTwice(v: Value, numbers: Numbers)
    requires WellFormed(v) && Fits(v, DEPTH) && Renders(numbers)
    ensures Rewritten(CanonicalJsonString(v), numbers) == CanonicalJsonString(v)
       <==> Settled(v, numbers) || !Readable(v, numbers)
  {
    var s := Sorted(v);
    var r := Reread(s, numbers);
    CanonicalReads(v, DEPTH, numbers);
    hide Parse, Settled, Readable, Reread, Sorted, MeaningOf, WellFormed, Fits, IsCanonical, Renders, Printed;
    SortedIsCanonical(v);
    SortedNumbers(v, numbers);
    SettledExactly(s, numbers);
    RereadKeeps(s, numbers);
    CanonicalIsSorted(r);
    if Readable(v, numbers) && Printed(r) == Printed(s) {
      PrintedInjective(r, s);
    }
  }

  /** Rewriting it again changes nothing if and only if each number is settled or some number is out of range by then. */
  lemma RewrittenTwiceExactlyWhen(text: string, numbers: Numbers)
    requires Renders(numbers)
    ensures Rewritten(Rewritten(text, numbers), numbers) == Rewritten(text, numbers) <==> IdleText(text, numbers)
  {
    var parsed := Parse(text, DEPTH, numbers);
    if parsed.Some? {
      ParsedIsWellFormed(text, DEPTH, numbers);
      hide ParseValue, CanonicalJsonString, WellFormed, Fits, Renders, Settled, Readable;
      CanonicalTwice(parsed.value, numbers);
    }
  }

  /** A lone number is rendered, and keeps its meaning if and only if what is rendered reads back as itself. */
  lemma LoneNumber(text: string, numbers: Numbers)
    requires IsNumber(text) && numbers(text).Some? && Renders(numbers)
    ensures Rewritten(text, numbers) == numbers(text).value
    ensures SameArgument(text, Rewritten(text, numbers), numbers) <==> numbers(numbers(text).value) == numbers(text)
  {
    assert text + "" == text;
    NumberStep(text, "", DEPTH, numbers);
    RewrittenKeepsExactlyWhen(text, numbers);
    hide ParseValue, IsNumber, Renders, SameArgument;
    assert Parse(text, DEPTH, numbers) == Some(Num(numbers(text).value));
  }

  /**
   With a reader that scales by a rounded power of ten, 30e22 is rendered as 3e23, and that reads back as something less:
   the argument changes what it means, and changes again the next time.
   */
  lemma ScaledFloatDrifts(numbers: Numbers)
    requires Renders(numbers) && numbers("30e22") == Some("3e23") && numbers("3e23") == Some("2.9999999999999997e23")
    ensures !SameArgument("30e22", Rewritten("30e22", numbers), numbers)
    ensures Rewritten(Rewritten("30e22", numbers), numbers) != Rewritten("30e22", numbers)
  {
    ShortFloats();
    hide IsNumber, Renders, Rewritten, SameArgument;
    LoneNumber("30e22", numbers);
    LoneNumber("3e23", numbers);
    assert |"3e23"| != |"2.9999999999999997e23"|;
  }

  lemma ShortFloats()
    ensures IsNumber("30e22") && IsNumber("3e23")
  {
    assert DigitsEnd("30e22", 2) == 2 && DigitsEnd("30e22", 1) == 2 && DigitsEnd("30e22", 5) == 5;
    assert DigitsEnd("30e22", 4) == 5 && DigitsEnd("30e22", 3) == 5;
    assert DigitsEnd("3e23", 1) == 1 && DigitsEnd("3e23", 4) == 4 && DigitsEnd("3e23", 3) == 4 && DigitsEnd("3e23", 2) == 4;
  }

  lemma CallIsRewritten(call: Value, numbers: Numbers)
    ensures CallRewritten(call, CanonicalCall(call, numbers), numbers)
  {
    hide Rewritten, WithArguments;
    if CallChanges(call, numbers) {
      NewArguments(call, Rewritten(Arguments(call), numbers));
    }
  }

  lemma CallTwice(call: Value, numbers: Numbers)
    requires Renders(numbers)
    ensures CallChanges(CanonicalCall(call, numbers), numbers) <==> HasArguments(call) && !IdleText(Arguments(call), numbers)
  {
    CallIsRewritten(call, numbers);
    hide Rewritten, CanonicalCall, HasArguments, Arguments, SameBut, IdleText, Renders, Get;
    if HasArguments(call) {
      RewrittenTwiceExactlyWhen(Arguments(call), numbers);
    }
  }

  lemma ChangedCallDiffers(call: Value, numbers: Numbers)
    ensures CallChanges(call, numbers) <==> CanonicalCall(call, numbers) != call
  {
    CallIsRewritten(call, numbers);
    hide Rewritten, WithArguments, HasArguments, Arguments, SameBut, Get;
  }

  lemma {:induction false} NoneChanged(calls: seq<Value>, numbers: Numbers)
    ensures CallsChanged(calls, numbers) == 0 <==> forall j | 0 <= j < |calls| :: !CallChanges(calls[j], numbers)
  {
    hide CallChanges;
    if calls != [] {
      var n := |calls| - 1;
      NoneChanged(calls[..n], numbers);
      assert forall j | 0 <= j < n :: calls[..n][j] == calls[j];
      assert (forall j | 0 <= j < n :: !CallChanges(calls[..n][j], numbers)) <==> (forall j | 0 <= j < n :: !CallChanges(calls[j], numbers));
    }
  }

  lemma CanonicalCallsSame(calls: seq<Value>, numbers: Numbers)
    ensures CanonicalCalls(calls, numbers) == calls <==> CallsChanged(calls, numbers) == 0
  {
    NoneChanged(calls, numbers);
    var r := CanonicalCalls(calls, numbers);
    hide CallChanges, CanonicalCall, CallsChanged;
    forall j | 0 <= j < |calls| ensures CallChanges(calls[j], numbers) <==> r[j] != calls[j] {
      ChangedCallDiffers(calls[j], numbers);
    }
  }

  lemma PutSame(fs: seq<Field>, key: string)
    requires HasKey(fs, key)
    ensures Put(fs, key, fs[At(fs, key)].value) == fs
  {
    var r := Put(fs, key, fs[At(fs, key)].value);
    Replaced(fs, key, fs[At(fs, key)].value);
    PutPoint(fs, key, fs[At(fs, key)].value);
    forall i | 0 <= i < |fs| ensures r[i] == fs[i] {
    }
  }

  lemma PutStep(fs: seq<Field>, key: string, value: Value)
    requires HasKey(fs, key) && fs[0].key != key
    ensures HasKey(fs[1..], key) && At(fs, key) == At(fs[1..], key) + 1
    ensures Put(fs, key, value) == [fs[0]] + Put(fs[1..], key, value)
  {
    HasKeyLater(fs, key);
    hide HasKey;
  }

  /** Only the first field with the key changes. */
  lemma {:induction false} PutPoint(fs: seq<Field>, key: string, value: Value)
    requires HasKey(fs, key)
    ensures |Put(fs, key, value)| == |fs|
    ensures forall i | 0 <= i < |fs| && i != At(fs, key) :: Put(fs, key, value)[i] == fs[i]
  {
    Replaced(fs, key, value);
    if fs[0].key == key {
      assert At(fs, key) == 0;
    } else {
      PutStep(fs, key, value);
      hide *;
      PutPoint(fs[1..], key, value);
      ShiftedPoint(fs, Put(fs[1..], key, value), At(fs[1..], key));
    }
  }

  lemma ShiftedPoint(fs: seq<Field>, rest: seq<Field>, at: nat)
    requires fs != [] && |rest| == |fs| - 1 && forall i | 0 <= i < |rest| && i != at :: rest[i] == fs[1..][i]
    ensures forall i | 0 <= i < |fs| && i != at + 1 :: ([fs[0]] + rest)[i] == fs[i]
  {
  }

  lemma MessageIsRewritten(message: Value, numbers: Numbers)
    ensures var now := CanonicalMessage(message, numbers);
            && MessageRewritten(message, now, numbers) && Calls(now) == CanonicalCalls(Calls(message), numbers)
            && forall role :: HasRole(now, role) <==> HasRole(message, role)
  {
    hide CanonicalCall, CallRewritten, Put, At;
    var calls := Calls(message);
    forall j | 0 <= j < |calls| ensures CallRewritten(calls[j], CanonicalCall(calls[j], numbers), numbers) {
      CallIsRewritten(calls[j], numbers);
    }
    if HasCalls(message) {
      PutSameBut(message.fields, "tool_calls", Arr(CanonicalCalls(calls, numbers)));
      OtherKey(message.fields, "tool_calls", Arr(CanonicalCalls(calls, numbers)), "role");
    }
  }

  lemma CallMeaning(a: Value, b: Value, numbers: Numbers)
    requires CallRewritten(a, b, numbers) && HasArguments(a) && Renders(numbers)
    ensures HasArguments(b) && (SameArgument(Arguments(a), Arguments(b), numbers) <==> SettledText(Arguments(a), numbers))
  {
    hide Rewritten, HasArguments, Arguments, SameBut, Get, SameArgument, SettledText, Renders;
    RewrittenKeepsExactlyWhen(Arguments(a), numbers);
  }

  lemma MessageMeaning(message: Value, numbers: Numbers)
    requires Renders(numbers)
    ensures MessageKeepsMeaning(message, CanonicalMessage(message, numbers), numbers) <==> SettledMessage(message, numbers)
  {
    MessageIsRewritten(message, numbers);
    var was, now := Calls(message), Calls(CanonicalMessage(message, numbers));
    hide CallRewritten, CanonicalMessage, CanonicalCalls, CanonicalCall, HasArguments, Arguments, Renders, Calls, SameArgument, SettledText, HasRole;
    forall j | 0 <= j < |was| && HasArguments(was[j])
      ensures HasArguments(now[j])
      ensures SameArgument(Arguments(was[j]), Arguments(now[j]), numbers) <==> SettledText(Arguments(was[j]), numbers)
    {
      CallIsRewritten(was[j], numbers);
      CallMeaning(was[j], now[j], numbers);
    }
  }

  /** Whether a message would change, and whether a call in it would, is the same question. */
  lemma MessageSame(message: Value, numbers: Numbers)
    ensures CanonicalMessage(message, numbers) == message <==> CallsChanged(Calls(message), numbers) == 0
  {
    var calls := Calls(message);
    CanonicalCallsSame(calls, numbers);
    hide CanonicalCalls, CallsChanged, Put, At, HasKey;
    if HasCalls(message) {
      PutSame(message.fields, "tool_calls");
      PutSameBut(message.fields, "tool_calls", Arr(CanonicalCalls(calls, numbers)));
    } else {
      NoCalls(numbers);
    }
  }

  lemma MessageTwice(message: Value, numbers: Numbers)
    requires Renders(numbers)
    ensures var now := CanonicalMessage(message, numbers);
            && (CanonicalMessage(now, numbers) == now <==> IdleMessage(message, numbers))
            && (CallsChanged(Calls(now), numbers) == 0 <==> IdleMessage(message, numbers))
  {
    var now := CanonicalMessage(message, numbers);
    MessageIsRewritten(message, numbers);
    MessageSame(now, numbers);
    NoneChanged(Calls(now), numbers);
    hide CanonicalMessage, CanonicalCall, CallChanges, Renders, Calls, CallsChanged, HasArguments, Arguments, IdleText, MessageRewritten, HasRole;
    forall j | 0 <= j < |Calls(message)|
      ensures CallChanges(Calls(now)[j], numbers)
         <==> HasArguments(Calls(message)[j]) && !IdleText(Arguments(Calls(message)[j]), numbers)
    {
      CallTwice(Calls(message)[j], numbers);
    }
  }

  lemma {:induction false} SameActionEnd(a: seq<Value>, b: seq<Value>)
    requires |a| == |b| && forall i | 0 <= i < |a| :: IsAction(a[i]) == IsAction(b[i])
    ensures ActionEnd(a) == ActionEnd(b)
  {
    hide IsAction;
    if a != [] {
      SameActionEnd(a[..|a| - 1], b[..|b| - 1]);
    }
  }

  /** The pass rewrites the argument texts of historical assistant calls and nothing else. */
  lemma PassTouchesOnlyArguments(messages: seq<Value>, numbers: Numbers)
    ensures var now := CanonicalMessages(messages, numbers);
            forall i | 0 <= i < |messages| ::
              if IsHistorical(messages, i) then MessageRewritten(messages[i], now[i], numbers) else now[i] == messages[i]
  {
    hide CanonicalMessage, MessageRewritten, IsHistorical;
    forall i | 0 <= i < |messages| ensures MessageRewritten(messages[i], CanonicalMessage(messages[i], numbers), numbers) {
      MessageIsRewritten(messages[i], numbers);
    }
  }

  predicate Historical(messages: seq<Value>, i: int) {
    0 <= i < |messages| && IsHistorical(messages, i)
  }

  /** Every argument text still means what it meant, if and only if each number in a rewritten text is settled. */
  lemma PassKeepsMeaningExactlyWhen(messages: seq<Value>, numbers: Numbers)
    requires Renders(numbers)
    ensures (forall i | Historical(messages, i) :: MessageKeepsMeaning(messages[i], CanonicalMessages(messages, numbers)[i], numbers))
       <==> (forall i | Historical(messages, i) :: SettledMessage(messages[i], numbers))
  {
    hide CanonicalMessage, IsHistorical, MessageKeepsMeaning, SettledMessage, Renders;
    forall i | Historical(messages, i)
      ensures MessageKeepsMeaning(messages[i], CanonicalMessages(messages, numbers)[i], numbers) <==> SettledMessage(messages[i], numbers)
    {
      MessageMeaning(messages[i], numbers);
    }
  }

  lemma SameHistory(messages: seq<Value>, numbers: Numbers)
    ensures forall i | 0 <= i < |messages| ::
      IsHistorical(CanonicalMessages(messages, numbers), i) == IsHistorical(messages, i)
  {
    var now := CanonicalMessages(messages, numbers);
    hide CanonicalMessage, ActionEnd;
    forall i | 0 <= i < |messages|
      ensures HasRole(now[i], "assistant") == HasRole(messages[i], "assistant") && IsAction(now[i]) == IsAction(messages[i])
    {
      hide HasRole;
      MessageIsRewritten(messages[i], numbers);
    }
    SameActionEnd(messages, now);
  }

  /** A second pass changes nothing, and counts nothing, if and only if every rewritten text is idle. */
  lemma SecondPassIsIdleExactlyWhen(messages: seq<Value>, numbers: Numbers)
    requires Renders(numbers)
    ensures var now := CanonicalMessages(messages, numbers);
            && (CanonicalMessages(now, numbers) == now <==> forall i | Historical(messages, i) :: IdleMessage(messages[i], numbers))
            && (ChangedBefore(now, |now|, numbers) == 0 <==> forall i | Historical(messages, i) :: IdleMessage(messages[i], numbers))
  {
    var now := CanonicalMessages(messages, numbers);
    var again := CanonicalMessages(now, numbers);
    SameHistory(messages, numbers);
    hide CanonicalMessage, IsHistorical, IdleMessage, Renders, CallsChanged, Calls;
    forall i | 0 <= i < |messages|
      ensures IsHistorical(messages, i) ==> (again[i] == now[i] <==> IdleMessage(messages[i], numbers))
      ensures IsHistorical(messages, i) ==> (CallsChanged(Calls(now[i]), numbers) == 0 <==> IdleMessage(messages[i], numbers))
    {
      MessageTwice(messages[i], numbers);
    }
    NothingChanged(now, |now|, numbers);
    AllOrNothing(messages, now, again, numbers);
  }

  lemma AllOrNothing(messages: seq<Value>, now: seq<Value>, again: seq<Value>, numbers: Numbers)
    requires |messages| == |now| == |again| && forall i | 0 <= i < |now| && !Historical(messages, i) :: again[i] == now[i]
    requires forall i | Historical(messages, i) :: again[i] == now[i] <==> IdleMessage(messages[i], numbers)
    ensures again == now <==> forall i | Historical(messages, i) :: IdleMessage(messages[i], numbers)
  {
    hide IdleMessage, IsHistorical;
  }

  lemma {:induction false} NothingChanged(messages: seq<Value>, n: nat, numbers: Numbers)
    requires n <= |messages|
    ensures ChangedBefore(messages, n, numbers) == 0
       <==> forall i | 0 <= i < n && IsHistorical(messages, i) :: CallsChanged(Calls(messages[i]), numbers) == 0
  {
    hide IsHistorical, CallsChanged, Calls;
    if n > 0 {
      NothingChanged(messages, n - 1, numbers);
    }
  }

  // ---- what the pass achieves ----

  /** Text that is not JSON as it was; else the text of a value with sorted keys at every level and the same meaning. */
  ghost predicate CanonicalTextOf(was: string, now: string, numbers: Numbers) {
    var v := Parse(was, DEPTH, numbers);
    if v.None? then now == was
    else exists c :: now == Printed(c) && IsCanonical(c) && WellFormed(c) && MeaningOf(c) == MeaningOf(v.value)
  }

  lemma RewrittenIsCanonical(text: string, numbers: Numbers)
    requires Renders(numbers)
    ensures CanonicalTextOf(text, Rewritten(text, numbers), numbers)
  {
    var parsed := Parse(text, DEPTH, numbers);
    if parsed.Some? {
      ParsedIsWellFormed(text, DEPTH, numbers);
      hide ParseValue, Printed, Sorted, MeaningOf, WellFormed, Fits, IsCanonical;
      SortedIsCanonical(parsed.value);
      SortedKeepsMeaning(parsed.value);
      assert Rewritten(text, numbers) == Printed(Sorted(parsed.value));
    }
  }

  /** What decides is what is said: two texts of one meaning become the same text. */
  lemma CanonicalTextUnique(a: string, b: string, x: string, y: string, numbers: Numbers)
    requires CanonicalTextOf(a, x, numbers) && CanonicalTextOf(b, y, numbers) && SameArgument(a, b, numbers)
    requires Parse(a, DEPTH, numbers).Some?
    ensures x == y
  {
    hide Parse, Printed, IsCanonical, WellFormed, MeaningOf;
    var c :| x == Printed(c) && IsCanonical(c) && WellFormed(c) && MeaningOf(c) == MeaningOf(Parse(a, DEPTH, numbers).value);
    var d :| y == Printed(d) && IsCanonical(d) && WellFormed(d) && MeaningOf(d) == MeaningOf(Parse(b, DEPTH, numbers).value);
    CanonicalUnique(c, d);
  }

  predicate FromUserOrTool(message: Value) {
    Get(message, "role") in {Some(Str("user")), Some(Str("tool"))}
  }

  /** The assistant messages that some user or tool message follows. */
  predicate Answered(messages: seq<Value>, i: int) {
    && 0 <= i < |messages| && Get(messages[i], "role") == Some(Str("assistant"))
    && exists k :: i < k < |messages| && FromUserOrTool(messages[k])
  }

  lemma HistoricalIsAnswered(messages: seq<Value>, i: nat)
    requires i < |messages|
    ensures IsHistorical(messages, i) <==> Answered(messages, i)
  {
    var end := ActionEnd(messages);
    assert "assistant"[0] != "user"[0] && "assistant"[0] != "tool"[0];
    hide ActionEnd, Get;
    forall k | 0 <= k < |messages| ensures FromUserOrTool(messages[k]) <==> IsAction(messages[k]) {
    }
    if i + 1 < end {
      assert FromUserOrTool(messages[end - 1]);
    }
  }

  /** The argument texts of one message before and after: every one canonical now, and nothing else touched. */
  ghost predicate ArgumentsCanonical(was: Value, now: Value, numbers: Numbers) {
    if HasCalls(was) then
      && HasCalls(now) && SameBut(was, now, "tool_calls") && |Calls(now)| == |Calls(was)|
      && forall j | 0 <= j < |Calls(was)| :: CallCanonical(Calls(was)[j], Calls(now)[j], numbers)
    else now == was
  }

  ghost predicate CallCanonical(was: Value, now: Value, numbers: Numbers) {
    if HasArguments(was) then
      && HasArguments(now) && SameBut(was, now, "function")
      && SameBut(Get(was, "function").value, Get(now, "function").value, "arguments")
      && CanonicalTextOf(Arguments(was), Arguments(now), numbers)
    else now == was
  }

  lemma CallIsCanonical(call: Value, numbers: Numbers)
    requires Renders(numbers)
    ensures CallCanonical(call, CanonicalCall(call, numbers), numbers)
  {
    CallIsRewritten(call, numbers);
    hide CanonicalCall, HasArguments, Arguments, SameBut, Get, Rewritten, CanonicalTextOf, Renders;
    if HasArguments(call) {
      RewrittenIsCanonical(Arguments(call), numbers);
    }
  }

  lemma MessageIsCanonical(message: Value, numbers: Numbers)
    requires Renders(numbers)
    ensures ArgumentsCanonical(message, CanonicalMessage(message, numbers), numbers)
  {
    MessageIsRewritten(message, numbers);
    hide CanonicalMessage, CanonicalCall, CallCanonical, CallRewritten, SameBut, HasCalls, Calls, HasRole, Renders;
    forall j | 0 <= j < |Calls(message)| ensures CallCanonical(Calls(message)[j], CanonicalCall(Calls(message)[j], numbers), numbers) {
      CallIsCanonical(Calls(message)[j], numbers);
    }
  }

  /** How many argument texts of the calls differ. */
  function Differing(was: seq<Value>, now: seq<Value>): nat
    requires |was| == |now|
  {
    if was == [] then 0
    else
      var n := |was| - 1;
      Differing(was[..n], now[..n])
      + if HasArguments(was[n]) && HasArguments(now[n]) && Arguments(was[n]) != Arguments(now[n]) then 1 else 0
  }

  function DifferingBefore(was: seq<Value>, now: seq<Value>, n: nat): nat
    requires n <= |was| == |now|
  {
    if n == 0 then 0
    else
      var a, b := Calls(was[n - 1]), Calls(now[n - 1]);
      DifferingBefore(was, now, n - 1) + if |a| == |b| then Differing(a, b) else 0
  }

  lemma OneDiffers(was: seq<Value>, now: seq<Value>, a: Value, b: Value)
    requires |was| == |now|
    ensures Differing(was + [a], now + [b])
         == Differing(was, now) + if HasArguments(a) && HasArguments(b) && Arguments(a) != Arguments(b) then 1 else 0
  {
    assert (was + [a])[..|was|] == was && (now + [b])[..|now|] == now;
    hide HasArguments, Arguments;
  }

  lemma CallDiffers(call: Value, numbers: Numbers)
    ensures var now := CanonicalCall(call, numbers);
            CallChanges(call, numbers) <==> HasArguments(call) && HasArguments(now) && Arguments(call) != Arguments(now)
  {
    CallIsRewritten(call, numbers);
    hide CanonicalCall, Rewritten, HasArguments, Arguments, SameBut, Get;
  }

  lemma NoneDiffers()
    ensures Differing([], []) == 0
  {
  }

  lemma {:induction false} CountedCalls(calls: seq<Value>, numbers: Numbers)
    ensures |CanonicalCalls(calls, numbers)| == |calls|
    ensures Differing(calls, CanonicalCalls(calls, numbers)) == CallsChanged(calls, numbers)
    ensures Differing(calls, calls) == 0
  {
    hide *;
    if calls == [] {
      NoCalls(numbers);
      NoneDiffers();
    } else {
      var front, last := calls[..|calls| - 1], calls[|calls| - 1];
      assert calls == front + [last];
      CountedCalls(front, numbers);
      CallsOneMore(front, last, numbers);
      CallDiffers(last, numbers);
      OneDiffers(front, CanonicalCalls(front, numbers), last, CanonicalCall(last, numbers));
      OneDiffers(front, front, last, last);
    }
  }

  lemma OneMessageDiffers(messages: seq<Value>, i: nat, numbers: Numbers)
    requires i < |messages|
    ensures var a, b := Calls(messages[i]), Calls(CanonicalMessages(messages, numbers)[i]);
            (if |a| == |b| then Differing(a, b) else 0)
            == if IsHistorical(messages, i) then CallsChanged(Calls(messages[i]), numbers) else 0
  {
    MessageIsRewritten(messages[i], numbers);
    CountedCalls(Calls(messages[i]), numbers);
    assert CanonicalMessages(messages, numbers)[i] == if IsHistorical(messages, i) then CanonicalMessage(messages[i], numbers) else messages[i];
    hide *;
  }

  lemma BeforeOneMore(messages: seq<Value>, now: seq<Value>, n: nat, numbers: Numbers)
    requires 0 < n <= |messages| == |now|
    ensures var a, b := Calls(messages[n - 1]), Calls(now[n - 1]);
            DifferingBefore(messages, now, n) == DifferingBefore(messages, now, n - 1) + if |a| == |b| then Differing(a, b) else 0
    ensures ChangedBefore(messages, n, numbers)
         == ChangedBefore(messages, n - 1, numbers) + if IsHistorical(messages, n - 1) then CallsChanged(Calls(messages[n - 1]), numbers) else 0
  {
    hide Calls, Differing, IsHistorical, CallsChanged;
  }

  lemma NothingBefore(messages: seq<Value>, now: seq<Value>, numbers: Numbers)
    requires |messages| == |now|
    ensures DifferingBefore(messages, now, 0) == 0 == ChangedBefore(messages, 0, numbers)
  {
  }

  lemma {:induction false} CountedBefore(messages: seq<Value>, n: nat, numbers: Numbers)
    requires n <= |messages|
    ensures DifferingBefore(messages, CanonicalMessages(messages, numbers), n) == ChangedBefore(messages, n, numbers)
  {
    hide *;
    if n == 0 {
      NothingBefore(messages, CanonicalMessages(messages, numbers), numbers);
    } else {
      CountedBefore(messages, n - 1, numbers);
      OneMessageDiffers(messages, n - 1, numbers);
      BeforeOneMore(messages, CanonicalMessages(messages, numbers), n, numbers);
    }
  }

  /**
   What the pass does, read off the messages before and after: in every assistant message that a user or tool message
   follows, each argument text that is JSON is now the text of a value with sorted keys and the same meaning; every
   other text, message and place is as it was; and the count is the number of argument texts that differ.
   */
  lemma PassIsCanonical(messages: seq<Value>, numbers: Numbers)
    requires Renders(numbers)
    ensures var now := CanonicalMessages(messages, numbers);
            && (forall i | 0 <= i < |messages| ::
                  if Answered(messages, i) then ArgumentsCanonical(messages[i], now[i], numbers) else now[i] == messages[i])
            && ChangedBefore(messages, |messages|, numbers) == DifferingBefore(messages, now, |messages|)
  {
    CountedBefore(messages, |messages|, numbers);
    hide CanonicalMessage, ArgumentsCanonical, IsHistorical, Answered, DifferingBefore, ChangedBefore, Renders;
    forall i | 0 <= i < |messages|
      ensures IsHistorical(messages, i) <==> Answered(messages, i)
      ensures ArgumentsCanonical(messages[i], CanonicalMessage(messages[i], numbers), numbers)
    {
      HistoricalIsAnswered(messages, i);
      MessageIsCanonical(messages[i], numbers);
    }
  }

  /** Two historical argument texts of one meaning leave the pass as one text. */
  lemma SameMeaningSameText(a: Value, b: Value, x: Value, y: Value, numbers: Numbers)
    requires CallCanonical(a, x, numbers) && CallCanonical(b, y, numbers) && HasArguments(a) && HasArguments(b)
    requires Parse(Arguments(a), DEPTH, numbers).Some? && SameArgument(Arguments(a), Arguments(b), numbers)
    ensures HasArguments(x) && HasArguments(y) && Arguments(x) == Arguments(y)
  {
    hide HasArguments, Arguments, SameBut, Get, CanonicalTextOf, SameArgument, Parse;
    CanonicalTextUnique(Arguments(a), Arguments(b), Arguments(x), Arguments(y), numbers);
  }
}
