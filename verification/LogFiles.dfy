/**
 The rolling log writer: segments numbered upwards, a byte quota over all of them, and a running total kept beside
 the list. The directory is shared: other processes may have created files in it.
 */
module LogFiles {
  import opened Prelude

  const U32_MAX: nat := 0xFFFF_FFFF

  const PREFIX: string := "events-"
  const SUFFIX: string := ".jsonl"

  datatype Segment = Segment(path: string, bytes: nat)

  datatype Quota = Quota(maxFileBytes: nat, maxTotalBytes: nat, cleanupTarget: nat)

  /** The writer's own state; `disk` holds the file names in the directory. */
  datatype Log = Log(segments: seq<Segment>, totalBytes: nat, open: bool, active: Option<string>, degraded: bool, disk: set<string>)

  // ---- segment names ----

  function Padded(digits: string): string
    decreases 6 - |digits|
  {
    if |digits| >= 6 then digits else Padded("0" + digits)
  }

  function NameOf(index: nat): string {
    PREFIX + Padded(Digits(index)) + SUFFIX
  }

  /** The index in a file name; every segment's name ends in the suffix. */
  function IndexOf(name: string): Option<nat> {
    if |name| >= |PREFIX| + |SUFFIX| && name[..|PREFIX|] == PREFIX && name[|name| - |SUFFIX|..] == SUFFIX then
      ParseUnsigned(name[|PREFIX|..|name| - |SUFFIX|], U32_MAX)
    else None
  }

  lemma {:induction false} LeadingZero(s: string)
    requires forall i | 0 <= i < |s| :: IsDigit(s[i])
    ensures Number("0" + s) == Number(s)
  {
    if s == [] {
      assert ("0" + s)[..0] == [];
    } else {
      LeadingZero(s[..|s| - 1]);
      assert ("0" + s)[..|s|] == "0" + s[..|s| - 1];
    }
  }

  lemma {:induction false} PaddedNumber(s: string)
    requires s != [] && forall i | 0 <= i < |s| :: IsDigit(s[i])
    ensures Padded(s) != [] && (forall i | 0 <= i < |Padded(s)| :: IsDigit(Padded(s)[i])) && Number(Padded(s)) == Number(s)
    decreases 6 - |s|
  {
    if |s| < 6 {
      LeadingZero(s);
      PaddedNumber("0" + s);
    }
  }

  /** A segment's name gives back its index, so different indices have different names. */
  lemma NameRoundTrip(index: nat)
    requires index <= U32_MAX
    ensures IndexOf(NameOf(index)) == Some(index)
  {
    var digits := Digits(index);
    NumberOfDigits(index);
    PaddedNumber(digits);
    hide Digits, Padded, Number;
    var name := NameOf(index);
    assert name[..|PREFIX|] == PREFIX && name[|name| - |SUFFIX|..] == SUFFIX;
    assert name[|PREFIX|..|name| - |SUFFIX|] == Padded(digits);
    assert IsDigit(Padded(digits)[0]);
  }

  // ---- opening ----

  /** The largest index in use, 0 if there is none. */
  function LargestIndex(segments: seq<Segment>): nat {
    if segments == [] then 0
    else
      var rest, own := LargestIndex(segments[..|segments| - 1]), IndexOf(segments[|segments| - 1].path);
      if own.Some? && own.value > rest then own.value else rest
  }

  predicate SomeIndex(segments: seq<Segment>) {
    exists i | 0 <= i < |segments| :: IndexOf(segments[i].path).Some?
  }

  function SaturatingNext(index: nat): nat {
    if index < U32_MAX then index + 1 else U32_MAX
  }

  function NextIndex(segments: seq<Segment>): nat {
    if SomeIndex(segments) then SaturatingNext(LargestIndex(segments)) else 1
  }

  /** The index the search looks at after `n` taken names. */
  function Candidate(start: nat, n: nat): nat {
    if start + n <= U32_MAX then start + n else U32_MAX
  }

  predicate Free(disk: set<string>, index: nat) {
    NameOf(index) !in disk
  }

  predicate HasFree(disk: set<string>, start: nat) {
    exists i | start <= i <= U32_MAX :: Free(disk, i)
  }

  /**
   The search for a name ends exactly when some index from the start on is free. The counter sticks at its largest
   value, so when none is free it never ends; the overflow test in the program cannot fire.
   */
  lemma SearchEndsExactlyWhen(disk: set<string>, start: nat)
    requires start <= U32_MAX
    ensures (exists n: nat :: Free(disk, Candidate(start, n))) <==> HasFree(disk, start)
    ensures forall n: nat :: Candidate(start, n + 1) == SaturatingNext(Candidate(start, n)) && (start > 0 ==> Candidate(start, n) != 0)
  {
    hide NameOf;
    if HasFree(disk, start) {
      var i :| start <= i <= U32_MAX && Free(disk, i);
      assert Candidate(start, i - start) == i;
    }
    if n: nat :| Free(disk, Candidate(start, n)) {
      assert start <= Candidate(start, n) <= U32_MAX;
    }
  }

  /** The least free index from `start` on. */
  function FirstFree(disk: set<string>, start: nat): (r: nat)
    requires HasFree(disk, start)
    ensures start <= r <= U32_MAX && Free(disk, r) && forall i | start <= i < r :: !Free(disk, i)
    decreases U32_MAX - start
  {
    assert start <= U32_MAX;
    if Free(disk, start) then start
    else
      FreeFurtherOn(disk, start);
      FirstFree(disk, start + 1)
  }

  lemma FreeFurtherOn(disk: set<string>, start: nat)
    requires HasFree(disk, start) && !Free(disk, start)
    ensures HasFree(disk, start + 1)
  {
    var i :| start <= i <= U32_MAX && Free(disk, i);
    assert start + 1 <= i;
  }

  /** A taken index passes the search on to the next one, or for ever to itself. */
  lemma FreeStep(disk: set<string>, index: nat)
    requires index <= U32_MAX && NameOf(index) in disk
    ensures if index == U32_MAX then !HasFree(disk, index)
            else (HasFree(disk, index) <==> HasFree(disk, index + 1))
                 && (HasFree(disk, index) ==> FirstFree(disk, index) == FirstFree(disk, index + 1))
  {
    hide NameOf;
    assert index < U32_MAX && HasFree(disk, index + 1) ==> HasFree(disk, index);
    if HasFree(disk, index) {
      FirstFreeFrom(disk, index);
    }
  }

  /** One file left behind under the largest number is enough: the next number is that one again, and it is taken. */
  lemma LastNumberTakenIsEndless(l: Log, denied: set<string>)
    requires l.segments == [Segment("events-4294967295.jsonl", 0)] && l.disk == {"events-4294967295.jsonl"}
    ensures NextIndex(l.segments) == U32_MAX && !HasFree(l.disk, NextIndex(l.segments)) && Opened(l, denied) == Err(Endless)
  {
    LastName();
    NameRoundTrip(U32_MAX);
    var path := l.segments[0].path;
    assert l.segments[..0] == [] && IndexOf(path) == Some(U32_MAX);
    hide NameOf, IndexOf;
    assert SomeIndex(l.segments) && LargestIndex(l.segments) == U32_MAX;
    FreeStep(l.disk, U32_MAX);
  }

  lemma LastName()
    ensures NameOf(U32_MAX) == "events-4294967295.jsonl"
  {
    FirstDigits();
    hide Digits;
    Appends(42949, 6);
    Appends(429496, 7);
    Appends(4294967, 2);
    Appends(42949672, 9);
    Appends(429496729, 5);
    var digits := Digits(U32_MAX);
    assert digits == "4294967295";
    LongIsPadded(digits);
  }

  lemma FirstDigits()
    ensures Digits(42949) == "42949"
  {
    assert Digits(4) == "4";
    hide Digits;
    Appends(4, 2);
    Appends(42, 9);
    Appends(429, 4);
    Appends(4294, 9);
  }

  lemma LongIsPadded(digits: string)
    requires |digits| >= 6
    ensures Padded(digits) == digits
  {
  }

  lemma Appends(n: nat, d: nat)
    requires 0 < n && d < 10
    ensures Digits(10 * n + d) == Digits(n) + [DigitChar(d)]
  {
  }

  lemma FirstFreeFrom(disk: set<string>, start: nat)
    requires HasFree(disk, start)
    ensures start <= U32_MAX
    ensures NameOf(start) !in disk ==> FirstFree(disk, start) == start
    ensures NameOf(start) in disk ==> start < U32_MAX && HasFree(disk, start + 1) && FirstFree(disk, start) == FirstFree(disk, start + 1)
  {
    hide NameOf;
    if NameOf(start) in disk {
      FreeFurtherOn(disk, start);
    }
  }

  /** Why no segment was opened. An endless search is a call that does not return. */
  datatype OpenError = Denied | Endless

  /** Opening a fresh segment; `denied` holds names that cannot be created for another reason. */
  function Opened(l: Log, denied: set<string>): Result<Log, OpenError> {
    if !HasFree(l.disk, NextIndex(l.segments)) then Err(Endless)
    else
      var name := NameOf(FirstFree(l.disk, NextIndex(l.segments)));
      if name in denied then Err(Denied)
      else Ok(l.(segments := l.segments + [Segment(name, 0)], open := true, active := Some(name), disk := l.disk + {name}))
  }

  // ---- rotation and quota ----

  function BytesOf(segments: seq<Segment>, path: string): nat {
    if segments == [] then 0
    else if segments[0].path == path then segments[0].bytes
    else BytesOf(segments[1..], path)
  }

  predicate Has(segments: seq<Segment>, path: string) {
    exists i | 0 <= i < |segments| :: segments[i].path == path
  }

  predicate ActiveFull(l: Log, q: Quota) {
    l.active.Some? && Has(l.segments, l.active.value) && BytesOf(l.segments, l.active.value) >= q.maxFileBytes
  }

  predicate MustRotate(l: Log, q: Quota) {
    !l.open || ActiveFull(l, q)
  }

  predicate IsActive(l: Log, s: Segment) {
    l.active == Some(s.path)
  }

  /** The oldest segment forgotten; its file goes too unless it is one of the `stuck` ones. */
  function WithoutOldest(l: Log, stuck: set<string>): Log
    requires l.segments != []
  {
    var oldest := l.segments[0];
    l.(segments := l.segments[1..], totalBytes := SaturatingSub(l.totalBytes, oldest.bytes),
       disk := if oldest.path in stuck then l.disk else l.disk - {oldest.path})
  }

  /** Deleting the oldest segments down to the quota, never the active one; the watermark ends it early. */
  function Enforced(l: Log, q: Quota, stuck: set<string>): Log
    decreases |l.segments|
  {
    if l.totalBytes <= q.maxTotalBytes || l.segments == [] || IsActive(l, l.segments[0]) then l
    else if WithoutOldest(l, stuck).totalBytes <= q.cleanupTarget then WithoutOldest(l, stuck)
    else Enforced(WithoutOldest(l, stuck), q, stuck)
  }

  // ---- writing ----

  /** How the file system behaves during one write. */
  datatype Env = Env(denied: set<string>, stuck: set<string>, writeFails: bool)

  function Rotated(l: Log, q: Quota, denied: set<string>): Result<Log, OpenError> {
    if MustRotate(l, q) then Opened(l.(open := false, active := None), denied) else Ok(l)
  }

  function Appended(l: Log, size: nat): Log
    requires l.segments != []
  {
    var last := |l.segments| - 1;
    l.(segments := l.segments[last := l.segments[last].(bytes := l.segments[last].bytes + size)], totalBytes := l.totalBytes + size)
  }

  /**
   One line written: rotate, append the line and its line feed, enforce the quota; any failure ends all logging.
   `None` when the call does not return.
   */
  function Written(l: Log, q: Quota, line: nat, env: Env): Option<Log>
    requires Valid(l)
  {
    if l.degraded then Some(l)
    else
      match Rotated(l, q, env.denied)
      case Err(Endless) => None
      case Err(Denied) => Some(l.(open := false, active := None, degraded := true))
      case Ok(r) =>
        if env.writeFails then Some(r.(degraded := true))
        else
          RotatedKeeps(l, q, env.denied);
          Some(Enforced(Appended(r, line + 1), q, env.stuck))
  }

  /** A write fails to return exactly when logging is on, a segment has to be opened and no number is left for it. */
  lemma ReturnsExactlyWhen(l: Log, q: Quota, line: nat, env: Env)
    requires Valid(l)
    ensures Written(l, q, line, env).None? <==> !l.degraded && MustRotate(l, q) && !HasFree(l.disk, NextIndex(l.segments))
  {
    hide HasFree, NextIndex, Enforced, Valid, MustRotate;
  }

  // ---- what holds ----

  function Total(segments: seq<Segment>): nat {
    if segments == [] then 0 else segments[0].bytes + Total(segments[1..])
  }

  predicate DistinctPaths(segments: seq<Segment>) {
    forall i, j | 0 <= i < j < |segments| :: segments[i].path != segments[j].path
  }

  /** The total is right, and an open writer is on the last segment. */
  predicate Valid(l: Log) {
    && l.totalBytes == Total(l.segments) && DistinctPaths(l.segments)
    && (forall i | 0 <= i < |l.segments| :: l.segments[i].path in l.disk)
    && (l.open <==> l.active.Some?)
    && (l.open ==> l.segments != [] && IsActive(l, l.segments[|l.segments| - 1]))
  }

  lemma {:induction false} TotalConcat(a: seq<Segment>, b: seq<Segment>)
    ensures Total(a + b) == Total(a) + Total(b)
  {
    if a == [] {
      assert a + b == b;
    } else {
      TotalConcat(a[1..], b);
      assert (a + b)[1..] == a[1..] + b;
    }
  }

  lemma OpenedKeeps(l: Log, denied: set<string>)
    requires Valid(l) && Opened(l, denied).Ok?
    ensures Valid(Opened(l, denied).value)
  {
    hide HasFree, Free;
    TotalConcat(l.segments, [Segment(NameOf(FirstFree(l.disk, NextIndex(l.segments))), 0)]);
    assert Free(l.disk, FirstFree(l.disk, NextIndex(l.segments)));
    FreeMeans(l.disk, FirstFree(l.disk, NextIndex(l.segments)));
    hide NameOf, NextIndex;
  }

  lemma FreeMeans(disk: set<string>, index: nat)
    requires Free(disk, index)
    ensures NameOf(index) !in disk
  {
  }

  /** After rotation the writer is open on a segment that was below the size limit, or is empty. */
  lemma RotatedKeeps(l: Log, q: Quota, denied: set<string>)
    requires Valid(l) && Rotated(l, q, denied).Ok?
    ensures var r := Rotated(l, q, denied).value;
            && Valid(r) && r.open && r.segments != []
            && (r.segments[|r.segments| - 1].bytes == 0 || r.segments[|r.segments| - 1].bytes < q.maxFileBytes)
  {
    if MustRotate(l, q) {
      OpenedKeeps(l.(open := false, active := None), denied);
      hide HasFree, FirstFree, NextIndex, NameOf, Valid, Total;
    } else {
      LastBytes(l.segments, |l.segments| - 1);
    }
  }

  lemma {:induction false} LastBytes(segments: seq<Segment>, i: nat)
    requires DistinctPaths(segments) && i < |segments|
    ensures Has(segments, segments[i].path) && BytesOf(segments, segments[i].path) == segments[i].bytes
  {
    if i > 0 {
      LastBytes(segments[1..], i - 1);
    }
  }

  lemma AppendedKeeps(l: Log, size: nat)
    requires Valid(l) && l.segments != []
    ensures Valid(Appended(l, size))
  {
    var n := |l.segments| - 1;
    var last := l.segments[n];
    TotalConcat(l.segments[..n], [last]);
    TotalConcat(l.segments[..n], [last.(bytes := last.bytes + size)]);
    assert l.segments == l.segments[..n] + [last];
    assert Appended(l, size).segments == l.segments[..n] + [last.(bytes := last.bytes + size)];
  }

  lemma WithoutOldestKeeps(l: Log, stuck: set<string>)
    requires Valid(l) && l.segments != [] && !IsActive(l, l.segments[0])
    ensures Valid(WithoutOldest(l, stuck)) && WithoutOldest(l, stuck).totalBytes == Total(l.segments[1..])
  {
    var m := WithoutOldest(l, stuck);
    forall i | 0 <= i < |m.segments| ensures m.segments[i].path in m.disk {
      assert m.segments[i] == l.segments[i + 1] && l.segments[i + 1].path != l.segments[0].path;
    }
  }

  /** The files of these segments, except those that cannot be removed. */
  function Files(segments: seq<Segment>, stuck: set<string>): set<string> {
    set i | 0 <= i < |segments| && segments[i].path !in stuck :: segments[i].path
  }

  /** The log after its `k` oldest segments are gone from the list, and their files from the disk. */
  predicate Dropped(l: Log, m: Log, k: nat, stuck: set<string>) {
    && k <= |l.segments| && m.segments == l.segments[k..] && m.active == l.active && m.open == l.open && m.degraded == l.degraded
    && m.disk == l.disk - Files(l.segments[..k], stuck)
  }

  /** Only the first `k` need to go: with fewer gone the total is above the quota. */
  predicate Needed(l: Log, q: Quota, k: nat) {
    forall j | 0 <= j < k && j <= |l.segments| :: Total(l.segments[j..]) > q.maxTotalBytes
  }

  lemma {:induction false} EnforcedIsShortest(l: Log, q: Quota, stuck: set<string>) returns (k: nat)
    requires Valid(l) && q.cleanupTarget <= q.maxTotalBytes
    ensures var m := Enforced(l, q, stuck);
            && Valid(m) && Dropped(l, m, k, stuck) && Needed(l, q, k)
            && (m.totalBytes <= q.maxTotalBytes || m.segments == [] || IsActive(m, m.segments[0]))
    decreases |l.segments|
  {
    hide *;
    k := 0;
    EnforcedStep(l, q, stuck);
    NothingDropped(l, q, stuck);
    if l.totalBytes > q.maxTotalBytes && l.segments != [] && !IsActive(l, l.segments[0]) {
      var w := WithoutOldest(l, stuck);
      WithoutOldestKeeps(l, stuck);
      OldestIsDropped(l, stuck);
      DroppedMeans(l, w, 1, stuck);
      if w.totalBytes <= q.cleanupTarget {
        k := 1;
        NothingDropped(w, q, stuck);
        NeededNext(l, w, q, 0);
      } else {
        var inner := EnforcedIsShortest(w, q, stuck);
        k := inner + 1;
        NeededNext(l, w, q, inner);
        DroppedTwice(l, w, Enforced(w, q, stuck), inner, stuck);
      }
    }
  }

  lemma EnforcedStep(l: Log, q: Quota, stuck: set<string>)
    ensures Enforced(l, q, stuck)
         == if l.totalBytes <= q.maxTotalBytes || l.segments == [] || IsActive(l, l.segments[0]) then l
            else if WithoutOldest(l, stuck).totalBytes <= q.cleanupTarget then WithoutOldest(l, stuck)
            else Enforced(WithoutOldest(l, stuck), q, stuck)
    ensures l.segments != [] ==> |WithoutOldest(l, stuck).segments| < |l.segments|
  {
  }

  lemma NothingDropped(l: Log, q: Quota, stuck: set<string>)
    ensures Dropped(l, l, 0, stuck) && Needed(l, q, 0)
  {
    assert l.segments[0..] == l.segments && Files(l.segments[..0], stuck) == {} && l.disk - {} == l.disk;
  }

  lemma DroppedMeans(l: Log, m: Log, k: nat, stuck: set<string>)
    requires Dropped(l, m, k, stuck)
    ensures k <= |l.segments| && m.segments == l.segments[k..]
  {
  }

  lemma OldestIsDropped(l: Log, stuck: set<string>)
    requires l.segments != []
    ensures Dropped(l, WithoutOldest(l, stuck), 1, stuck)
  {
    assert l.segments[..1] == [l.segments[0]];
    assert Files([l.segments[0]], stuck) == if l.segments[0].path in stuck then {} else {l.segments[0].path};
  }

  lemma DroppedTwice(l: Log, w: Log, m: Log, k: nat, stuck: set<string>)
    requires Dropped(l, w, 1, stuck) && Dropped(w, m, k, stuck)
    ensures Dropped(l, m, k + 1, stuck)
  {
    assert w.segments[k..] == l.segments[k + 1..] && l.segments[..k + 1] == l.segments[..1] + w.segments[..k];
    FilesConcat(l.segments[..1], w.segments[..k], stuck);
    hide Files;
    assert l.disk - Files(l.segments[..1], stuck) - Files(w.segments[..k], stuck)
        == l.disk - (Files(l.segments[..1], stuck) + Files(w.segments[..k], stuck));
  }

  lemma FilesConcat(a: seq<Segment>, b: seq<Segment>, stuck: set<string>)
    ensures Files(a + b, stuck) == Files(a, stuck) + Files(b, stuck)
  {
    var all := a + b;
    forall p | p in Files(a, stuck) + Files(b, stuck) ensures p in Files(all, stuck) {
      if i :| 0 <= i < |a| && a[i].path !in stuck && a[i].path == p {
        assert all[i].path == p;
      } else {
        var j :| 0 <= j < |b| && b[j].path !in stuck && b[j].path == p;
        assert all[|a| + j].path == p;
      }
    }
  }

  lemma TotalMeans(l: Log)
    requires Valid(l)
    ensures Total(l.segments[0..]) == l.totalBytes
  {
    assert l.segments[0..] == l.segments;
  }

  lemma NeededNext(l: Log, w: Log, q: Quota, k: nat)
    requires Valid(l) && l.totalBytes > q.maxTotalBytes && l.segments != [] && w.segments == l.segments[1..] && Needed(w, q, k)
    ensures Needed(l, q, k + 1)
  {
    TotalMeans(l);
    hide Valid, Total;
    forall j | 0 <= j < k + 1 && j <= |l.segments| ensures Total(l.segments[j..]) > q.maxTotalBytes {
      if j > 0 {
        assert l.segments[j..] == w.segments[j - 1..];
      }
    }
  }

  function Max(a: nat, b: nat): nat {
    if a >= b then a else b
  }

  /**
   Every write that succeeds leaves the total equal to the sum of the segments, the writer on the last segment,
   which holds the new line and was not deleted, and at most the quota or one full segment and the line.
   */
  lemma WriteKeeps(l: Log, q: Quota, line: nat, env: Env)
    requires Valid(l) && q.cleanupTarget <= q.maxTotalBytes
    requires Written(l, q, line, env).Some?
    ensures var m := Written(l, q, line, env).value;
            && Valid(m)
            && (!m.degraded ==>
                 && m.open && m.totalBytes == Total(m.segments) <= Max(q.maxTotalBytes, q.maxFileBytes + line + 1)
                 && m.segments[|m.segments| - 1].bytes >= line + 1)
  {
    if !l.degraded && Rotated(l, q, env.denied).Ok? {
      RotatedKeeps(l, q, env.denied);
      var r := Rotated(l, q, env.denied).value;
      if !env.writeFails {
        AppendedKeeps(r, line + 1);
        var a := Appended(r, line + 1);
        var k := EnforcedIsShortest(a, q, env.stuck);
        var m := Enforced(a, q, env.stuck);
        assert Written(l, q, line, env) == Some(m);
        hide Rotated, Enforced, Appended, HasFree, NextIndex, MustRotate, Needed;
        DroppedMeans(a, m, k, env.stuck);
        LastStays(a, m, k);
        AloneIsSmall(a, m, q, line);
      }
    }
  }

  lemma LastStays(a: Log, m: Log, k: nat)
    requires Valid(a) && a.open && k <= |a.segments| && m.segments == a.segments[k..] && m.open == a.open && Valid(m)
    ensures m.open && m.segments != [] && m.segments[|m.segments| - 1] == a.segments[|a.segments| - 1]
  {
    hide Total;
  }

  lemma AloneIsSmall(a: Log, m: Log, q: Quota, line: nat)
    requires Valid(m) && m.open && m.segments != [] && a.segments != []
    requires m.segments[|m.segments| - 1] == a.segments[|a.segments| - 1]
    requires a.segments[|a.segments| - 1].bytes <= Max(q.maxFileBytes, 0) + line + 1
    requires m.totalBytes <= q.maxTotalBytes || IsActive(m, m.segments[0])
    ensures Total(m.segments) <= Max(q.maxTotalBytes, q.maxFileBytes + line + 1)
  {
    if m.totalBytes > q.maxTotalBytes {
      assert |m.segments| == 1;
      assert m.segments[1..] == [];
    }
  }

  // ---- the watermark ----

  /** Enforcement as it would be without the watermark. */
  function Plain(l: Log, max: nat, stuck: set<string>): Log
    decreases |l.segments|
  {
    if l.totalBytes <= max || l.segments == [] || IsActive(l, l.segments[0]) then l
    else Plain(WithoutOldest(l, stuck), max, stuck)
  }

  lemma {:induction false} NoWatermark(l: Log, q: Quota, stuck: set<string>)
    requires q.cleanupTarget <= q.maxTotalBytes
    ensures Enforced(l, q, stuck) == Plain(l, q.maxTotalBytes, stuck)
    decreases |l.segments|
  {
    if l.totalBytes > q.maxTotalBytes && l.segments != [] && !IsActive(l, l.segments[0]) {
      NoWatermark(WithoutOldest(l, stuck), q, stuck);
    }
  }

  /** Three idle segments, of which the first two must go. */
  function Crowded(max: nat): Log {
    Log([Segment("a", 1), Segment("b", 1), Segment("c", max)], max + 2, false, None, false, {"a", "b", "c"})
  }

  lemma WatermarkBites(q: Quota)
    requires q.cleanupTarget > q.maxTotalBytes
    ensures Valid(Crowded(q.maxTotalBytes)) && Enforced(Crowded(q.maxTotalBytes), q, {}) != Plain(Crowded(q.maxTotalBytes), q.maxTotalBytes, {})
  {
    var l := Crowded(q.maxTotalBytes);
    assert "a"[0] != "b"[0] && "b"[0] != "c"[0] && "a"[0] != "c"[0];
    assert l.segments[1..] == [Segment("b", 1), Segment("c", q.maxTotalBytes)];
    assert l.segments[1..][1..] == [Segment("c", q.maxTotalBytes)] && [Segment("c", q.maxTotalBytes)][1..] == [];
    assert Total(l.segments[1..][1..]) == q.maxTotalBytes && Total(l.segments[1..]) == q.maxTotalBytes + 1;
    var one := WithoutOldest(l, {});
    var two := WithoutOldest(one, {});
    assert Enforced(l, q, {}) == one;
    assert Plain(two, q.maxTotalBytes, {}) == two && Plain(one, q.maxTotalBytes, {}) == two;
    assert Plain(l, q.maxTotalBytes, {}) == Plain(one, q.maxTotalBytes, {});
  }

  /** The watermark never changes an outcome exactly when it is not above the quota. */
  lemma WatermarkInertExactlyWhen(q: Quota)
    ensures (forall l: Log, stuck: set<string> :: Enforced(l, q, stuck) == Plain(l, q.maxTotalBytes, stuck))
       <==> q.cleanupTarget <= q.maxTotalBytes
  {
    if q.cleanupTarget <= q.maxTotalBytes {
      forall l: Log, stuck: set<string> ensures Enforced(l, q, stuck) == Plain(l, q.maxTotalBytes, stuck) {
        NoWatermark(l, q, stuck);
      }
    } else {
      WatermarkBites(q);
    }
  }

  const U64_MAX: nat := 0xFFFF_FFFF_FFFF_FFFF

  function Saturated(n: nat): (r: nat)
    ensures r <= n
  {
    if n <= U64_MAX then n else U64_MAX
  }

  /** The watermark as it is configured: a percentage of the quota. */
  function CleanupTarget(max: nat, percent: nat): (r: nat)
    ensures r <= max
  {
    Percent(max, if percent < 100 then percent else 100)
  }

  function Percent(max: nat, percent: nat): (r: nat)
    requires percent <= 100
    ensures r <= max
  {
    AtMostHundred(max, percent);
    Saturated(max * percent) / 100
  }

  lemma AtMostHundred(max: nat, percent: nat)
    requires percent <= 100
    ensures 0 <= max * percent <= max * 100
  {
  }

  /** Whatever percentage is configured, the watermark changes no outcome. */
  lemma ConfiguredWatermarkIsInert(q: Quota, percent: nat)
    requires q.cleanupTarget == CleanupTarget(q.maxTotalBytes, percent)
    ensures forall l: Log, stuck: set<string> :: Enforced(l, q, stuck) == Plain(l, q.maxTotalBytes, stuck)
  {
    WatermarkInertExactlyWhen(q);
  }

  // ---- a fresh segment is the newest ----

  lemma {:induction false} LargestMeans(segments: seq<Segment>, i: nat)
    requires i < |segments| && IndexOf(segments[i].path).Some?
    ensures IndexOf(segments[i].path).value <= LargestIndex(segments)
  {
    hide IndexOf;
    if i < |segments| - 1 {
      LargestMeans(segments[..|segments| - 1], i);
    }
  }

  /** Unless the numbers are used up, a fresh segment's number is above that of every segment listed. */
  lemma OpenedIsNewest(l: Log, denied: set<string>, i: nat)
    requires Opened(l, denied).Ok? && LargestIndex(l.segments) < U32_MAX
    requires i < |l.segments| && IndexOf(l.segments[i].path).Some?
    ensures var now := Opened(l, denied).value.active;
            now.Some? && IndexOf(now.value).Some? && IndexOf(l.segments[i].path).value < IndexOf(now.value).value
  {
    LargestMeans(l.segments, i);
    NameRoundTrip(FirstFree(l.disk, NextIndex(l.segments)));
    hide IndexOf, NameOf, LargestIndex, HasFree;
  }

  // ---- the writer as the program runs it ----

  class FileWriter {
    const quota: Quota
    var segments: seq<Segment>
    var totalBytes: nat
    var open: bool
    var activePath: Option<string>
    var degraded: bool
    /** The directory. */
    var disk: set<string>

    function View(): Log
      reads this
    {
      Log(segments, totalBytes, open, activePath, degraded, disk)
    }

    /** A writer over the segments found at start. */
    constructor (found: seq<Segment>, disk: set<string>, quota: Quota)
      requires DistinctPaths(found) && forall i | 0 <= i < |found| :: found[i].path in disk
      ensures Valid(View()) && View() == Log(found, Total(found), false, None, false, disk) && this.quota == quota
    {
      this.quota := quota;
      segments, totalBytes, open, activePath, degraded := found, Total(found), false, None, false;
      this.disk := disk;
    }

    method NextSegmentIndex() returns (index: nat)
      ensures index == NextIndex(segments) && 1 <= index <= U32_MAX
    {
      hide *;
      var largest: Option<nat> := None;
      NoLargest(segments);
      for i := 0 to |segments|
        invariant IsLargest(segments[..i], largest)
      {
        var own := IndexOf(segments[i].path);
        LargerOf(segments, i, largest);
        if own.Some? && (largest.None? || own.value > largest.value) {
          largest := own;
        }
      }
      assert segments[..|segments|] == segments;
      LargestGivesNext(segments, largest);
      index := if largest.None? then 1 else SaturatingNext(largest.value);
    }

    method OpenFreshSegment(denied: set<string>) returns (error: Option<OpenError>)
      modifies this`segments, this`open, this`activePath, this`disk
      ensures match Opened(old(View()), denied)
              case Ok(l) => error == None && View() == l
              case Err(e) => error == Some(e) && View() == old(View())
    {
      var start := NextSegmentIndex();
      var next := FindFree(start);
      hide NameOf, NextIndex, HasFree, FirstFree;
      if next.None? {
        return Some(Endless);
      }
      var path := NameOf(next.value);
      if path in denied {
        return Some(Denied);
      }
      disk := disk + {path};
      segments := segments + [Segment(path, 0)];
      open, activePath := true, Some(path);
      return None;
    }

    /**
     Counts up past the names taken. The counter sticks at its largest value: if that name is taken too, the
     program looks at it for ever, which is reported as `None`.
     */
    method FindFree(start: nat) returns (next: Option<nat>)
      requires start <= U32_MAX
      ensures next == if HasFree(disk, start) then Some(FirstFree(disk, start)) else None
    {
      var index := start;
      while NameOf(index) in disk
        invariant index <= U32_MAX && (HasFree(disk, index) <==> HasFree(disk, start))
        invariant HasFree(disk, start) ==> FirstFree(disk, index) == FirstFree(disk, start)
        decreases U32_MAX - index
      {
        FreeStep(disk, index);
        hide HasFree, NameOf, FirstFree;
        if SaturatingNext(index) == index {
          return None;
        }
        index := SaturatingNext(index);
      }
      assert Free(disk, index);
      FirstFreeFrom(disk, index);
      next := Some(index);
    }

    method RotateIfNeeded(denied: set<string>) returns (error: Option<OpenError>)
      modifies this`segments, this`open, this`activePath, this`disk
      ensures match Rotated(old(View()), quota, denied)
              case Ok(l) => error == None && View() == l
              case Err(e) => error == Some(e) && View() == old(View()).(open := false, active := None)
    {
      hide HasFree, FirstFree, NameOf;
      var activeFull := ActiveFull(View(), quota);
      if !open || activeFull {
        open, activePath := false, None;
        error := OpenFreshSegment(denied);
      } else {
        error := None;
      }
    }

    method EnforceQuota(stuck: set<string>)
      modifies this`segments, this`totalBytes, this`disk
      ensures View() == Enforced(old(View()), quota, stuck)
    {
      ghost var goal := Enforced(View(), quota, stuck);
      while totalBytes > quota.maxTotalBytes
        invariant Enforced(View(), quota, stuck) == goal
        invariant open == old(open) && activePath == old(activePath) && degraded == old(degraded)
        decreases |segments|
      {
        if segments == [] || activePath == Some(segments[0].path) {
          break;
        }
        var oldest := segments[0];
        segments := segments[1..];
        totalBytes := SaturatingSub(totalBytes, oldest.bytes);
        if oldest.path !in stuck {
          disk := disk - {oldest.path};
        }
        if totalBytes <= quota.cleanupTarget {
          return;
        }
      }
    }

    /** `returned` is false when the call would not return; then nothing is promised about the state. */
    method WriteLine(line: nat, env: Env) returns (returned: bool)
      requires Valid(View())
      modifies this
      ensures returned == Written(old(View()), quota, line, env).Some?
      ensures returned ==> Some(View()) == Written(old(View()), quota, line, env)
      ensures returned && quota.cleanupTarget <= quota.maxTotalBytes ==> Valid(View())
    {
      hide Valid, Written, Rotated, Opened, Appended, Enforced, ActiveFull, HasFree, FirstFree, NextIndex, NameOf, IndexOf;
      ghost var before := View();
      WrittenIs(before, quota, line, env);
      if quota.cleanupTarget <= quota.maxTotalBytes && Written(before, quota, line, env).Some? {
        WriteKeeps(before, quota, line, env);
      }
      if degraded {
        return true;
      }
      var error := RotateIfNeeded(env.denied);
      if error.Some? {
        degraded := true;
        return error.value != Endless;
      }
      if env.writeFails {
        degraded := true;
        return true;
      }
      var last := |segments| - 1;
      AppendedIs(View(), line + 1);
      segments := segments[last := segments[last].(bytes := segments[last].bytes + line + 1)];
      totalBytes := totalBytes + line + 1;
      EnforceQuota(env.stuck);
      returned := true;
    }
  }

  /** The cases of a write. */
  lemma WrittenIs(l: Log, q: Quota, line: nat, env: Env)
    requires Valid(l)
    ensures l.degraded ==> Written(l, q, line, env) == Some(l)
    ensures !l.degraded ==>
      match Rotated(l, q, env.denied)
      case Err(e) => Written(l, q, line, env) == if e == Endless then None else Some(l.(open := false, active := None, degraded := true))
      case Ok(r) =>
        && r.segments != []
        && Written(l, q, line, env)
           == Some(if env.writeFails then r.(degraded := true) else Enforced(Appended(r, line + 1), q, env.stuck))
  {
    if Rotated(l, q, env.denied).Ok? {
      RotatedKeeps(l, q, env.denied);
    }
    hide Rotated, Enforced, Appended, Valid;
  }

  lemma AppendedIs(l: Log, size: nat)
    requires l.segments != []
    ensures var n := |l.segments| - 1;
            Appended(l, size)
            == l.(segments := l.segments[n := l.segments[n].(bytes := l.segments[n].bytes + size)], totalBytes := l.totalBytes + size)
  {
  }

  /** The largest index in use, if one is. */
  predicate IsLargest(segments: seq<Segment>, largest: Option<nat>) {
    (largest.Some? <==> SomeIndex(segments)) && largest.GetOr(0) == LargestIndex(segments) <= U32_MAX
  }

  lemma NoLargest(segments: seq<Segment>)
    ensures IsLargest(segments[..0], None)
  {
    assert segments[..0] == [];
  }

  lemma LargerOf(segments: seq<Segment>, i: nat, largest: Option<nat>)
    requires i < |segments| && IsLargest(segments[..i], largest)
    ensures var own := IndexOf(segments[i].path);
            IsLargest(segments[..i + 1], if own.Some? && (largest.None? || own.value > largest.value) then own else largest)
  {
    assert segments[..i + 1][..i] == segments[..i];
    SomeIndexStep(segments, i);
    hide IndexOf, SomeIndex;
  }

  lemma LargestGivesNext(segments: seq<Segment>, largest: Option<nat>)
    requires IsLargest(segments, largest)
    ensures NextIndex(segments) == if largest.None? then 1 else SaturatingNext(largest.value)
    ensures 1 <= NextIndex(segments) <= U32_MAX
  {
    hide SomeIndex, LargestIndex;
  }

  lemma SomeIndexStep(segments: seq<Segment>, i: nat)
    requires i < |segments|
    ensures SomeIndex(segments[..i + 1]) <==> SomeIndex(segments[..i]) || IndexOf(segments[i].path).Some?
    ensures IndexOf(segments[i].path).Some? ==> IndexOf(segments[i].path).value <= U32_MAX
  {
    var front, all := segments[..i], segments[..i + 1];
    assert IndexOf(segments[i].path).Some? ==> IndexOf(segments[i].path).value <= U32_MAX;
    hide IndexOf;
    if SomeIndex(front) {
      var j :| 0 <= j < i && IndexOf(front[j].path).Some?;
      assert all[j] == front[j];
    }
    if SomeIndex(all) {
      var j :| 0 <= j < i + 1 && IndexOf(all[j].path).Some?;
      assert j < i ==> front[j] == all[j];
    }
    assert all[i] == segments[i];
  }
}
