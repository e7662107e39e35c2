/**
 What a session gains or loses by sharing the store: every run against the run of its own operations alone. For
 lookups of one id, others only ever turn its hits into misses, if and only if it never grows past the byte limit with
 a store that fits by itself.
 */
module Neighbours {
  import opened Prelude
  import opened ShadowStore

  /** All operations name the session. */
  predicate Own(ops: seq<Op>, name: string) {
    forall i | 0 <= i < |ops| :: ops[i].name == name
  }

  function Size(op: Op): nat
    requires op.StoreOp?
  {
    |op.ids| * Bytes(op.reasoning)
  }

  /** The operation stores something that would fit alone, and takes its session's bytes past the limit. */
  predicate Crowds(limits: Limits, s: Store, op: Op) {
    && op.StoreOp? && Accepted(op.ids, op.reasoning, limits) && limits.maxSessions >= 1
    && Size(op) <= limits.maxTotalBytes < SessionOf(s, op.name).bytes + Size(op)
  }

  /** The operation stores something that fits by itself. */
  predicate Fits(limits: Limits, op: Op) {
    op.StoreOp? && Accepted(op.ids, op.reasoning, limits) && limits.maxSessions >= 1 && Size(op) <= limits.maxTotalBytes
  }

  predicate NeverCrowds(limits: Limits, ops: seq<Op>) {
    forall i | 0 <= i < |ops| :: !Crowds(limits, Run(limits, ops[..i]), ops[i])
  }

  /** What one store holds for the session the other holds too. */
  predicate Within(f: Store, o: Store, name: string) {
    name in f.sessions ==>
      && name in o.sessions
      && forall id | id in f.sessions[name].entries ::
           id in o.sessions[name].entries && o.sessions[name].entries[id] == f.sessions[name].entries[id]
  }

  predicate Alone(s: Store, name: string) {
    forall n | n in s.sessions :: n == name
  }

  // ---- own stores ----

  lemma {:induction false} OwnRunIsLone(limits: Limits, ops: seq<Op>, name: string)
    requires Own(ops, name)
    ensures Alone(Run(limits, ops), name)
  {
    if ops != [] {
      var before, op := ops[..|ops| - 1], ops[|ops| - 1];
      OwnRunIsLone(limits, before, name);
      RunKeeps(limits, before);
      hide Run, Valid, Applied;
      LoneStays(Run(limits, before), limits, op, name);
      LastRun(limits, ops);
    }
  }

  lemma LoneStays(s: Store, limits: Limits, op: Op, name: string)
    requires Valid(s) && Alone(s, name) && op.name == name
    ensures Alone(Applied(s, limits, op), name)
  {
    if op.StoreOp? && Accepted(op.ids, op.reasoning, limits) {
      InsertKeeps(s, name, op.ids, op.reasoning, op.now);
      EnforcedOnlyLoses(Inserted(s, name, op.ids, op.reasoning, op.now), limits, op.now);
    }
    hide Enforced, FirstHeld, Valid;
  }

  lemma FreshIsNotStale(s: Store, limits: Limits, op: Op)
    requires op.StoreOp? && Accepted(op.ids, op.reasoning, limits)
    ensures var t := Inserted(s, op.name, op.ids, op.reasoning, op.now);
            op.name in t.sessions && !AllExpired(t.sessions[op.name], op.now, limits.ttl)
  {
    InsertAllAt(SessionOf(s, op.name).entries, op.ids, Entry(op.reasoning, op.now), op.ids[0]);
    assert op.ids[0] in op.ids;
    hide InsertAll;
  }

  lemma LoneTotal(s: Store, name: string)
    requires Valid(s) && Alone(s, name)
    ensures s.totalBytes == SessionOf(s, name).bytes && |s.lru| <= 1
    ensures name in s.sessions ==> s.lru == [name]
  {
    hide Bounded;
    AtMostOne(s.lru, name);
    assert [name][1..] == [];
    assert name in s.sessions ==> Sum(s.sessions, [name]) == s.sessions[name].bytes + Sum(s.sessions, []);
  }

  lemma AtMostOne(names: seq<string>, name: string)
    requires DistinctNames(names) && forall n | n in names :: n == name
    ensures names == [] || names == [name]
    ensures name in names ==> names == [name]
  {
    FirstTwo(names);
  }

  lemma FirstTwo(names: seq<string>)
    ensures |names| > 0 ==> names[0] in names
    ensures |names| > 1 ==> names[1] in names
  {
  }

  /** A session that fits is kept by its own store operation. */
  lemma RoomyStays(s: Store, limits: Limits, op: Op)
    requires Valid(s) && Alone(s, op.name) && op.StoreOp? && Accepted(op.ids, op.reasoning, limits)
    requires limits.maxSessions >= 1 && SessionOf(s, op.name).bytes + Size(op) <= limits.maxTotalBytes
    ensures Stored(s, limits, op.name, op.ids, op.reasoning, op.now) == Inserted(s, op.name, op.ids, op.reasoning, op.now)
  {
    var t := Inserted(s, op.name, op.ids, op.reasoning, op.now);
    LoneTotal(s, op.name);
    InsertKeeps(s, op.name, op.ids, op.reasoning, op.now);
    FreshIsNotStale(s, limits, op);
    assert Alone(t, op.name);
    LoneTotal(t, op.name);
    SessionCount(t);
    hide Valid, InsertAll, AllExpired, Bytes;
    NothingStale(t, limits, op.now);
  }

  /** Sums are at least each part. */
  lemma {:induction false} PartOfSum(sessions: map<string, Session>, names: seq<string>, name: string)
    requires name in names && name in sessions
    ensures sessions[name].bytes <= Sum(sessions, names)
  {
    if names[0] != name {
      PartOfSum(sessions, names[1..], name);
    }
  }

  /** A session past the limit, or any when none may stay, is gone after its own store operation. */
  lemma CrowdedLeaves(s: Store, limits: Limits, op: Op)
    requires Valid(s) && op.StoreOp? && Accepted(op.ids, op.reasoning, limits)
    requires limits.maxSessions == 0 || SessionOf(s, op.name).bytes + Size(op) > limits.maxTotalBytes
    ensures op.name !in Stored(s, limits, op.name, op.ids, op.reasoning, op.now).sessions
  {
    var t := Inserted(s, op.name, op.ids, op.reasoning, op.now);
    var e := Enforced(t, limits, op.now);
    InsertKeeps(s, op.name, op.ids, op.reasoning, op.now);
    assert t.sessions[op.name].bytes == SessionOf(s, op.name).bytes + Size(op);
    var k := EnforcedIsShortest(t, limits, op.now);
    EnforcedOnlyLoses(t, limits, op.now);
    hide Enforced, InsertAll, Inserted, Sum, Bounded, Without, Stale, Suffices, Trimmed, Bytes;
    SomeSession(e, op.name);
    if op.name in e.sessions {
      PartOfSum(e.sessions, e.lru, op.name);
    }
  }

  lemma SomeSession(s: Store, name: string)
    ensures name in s.sessions ==> |s.sessions| > 0
  {
  }

  // ---- the full run against the own run ----

  lemma RestoreWithin(f: Store, o: Store, limits: Limits, name: string, ids: seq<string>, now: nat)
    requires Within(f, o, name)
    ensures Within(Restored(f, limits, name, ids, now).store, Restored(o, limits, name, ids, now).store, name)
  {
    if name in f.sessions {
      var a, b := FirstHeld(f.sessions[name].entries, ids), FirstHeld(o.sessions[name].entries, ids);
      if b.Some? && b.value in f.sessions[name].entries {
        FirstOfFewer(f.sessions[name].entries, o.sessions[name].entries, ids);
      }
    }
    hide FirstHeld;
  }

  /** If the first id a larger map holds is in the smaller one too, it is the first there. */
  lemma {:induction false} FirstOfFewer(few: map<string, Entry>, many: map<string, Entry>, ids: seq<string>)
    requires forall id | id in few :: id in many
    requires FirstHeld(many, ids).Some? && FirstHeld(many, ids).value in few
    ensures FirstHeld(few, ids) == FirstHeld(many, ids)
  {
    if ids[0] !in many {
      FirstOfFewer(few, many, ids[1..]);
    }
  }

  lemma InsertWithin(f: Store, o: Store, op: Op)
    requires Within(f, o, op.name) && op.StoreOp?
    ensures Within(Inserted(f, op.name, op.ids, op.reasoning, op.now), Inserted(o, op.name, op.ids, op.reasoning, op.now), op.name)
  {
    var e := Entry(op.reasoning, op.now);
    var a, b := SessionOf(f, op.name).entries, SessionOf(o, op.name).entries;
    forall id | id in InsertAll(a, op.ids, e)
      ensures id in InsertAll(b, op.ids, e) && InsertAll(b, op.ids, e)[id] == InsertAll(a, op.ids, e)[id]
    {
      InsertAllAt(a, op.ids, e, id);
      InsertAllAt(b, op.ids, e, id);
    }
    hide InsertAll;
  }

  lemma StoreWithin(f: Store, o: Store, limits: Limits, op: Op)
    requires Valid(f) && Valid(o) && Alone(o, op.name) && Within(f, o, op.name) && op.StoreOp? && !Crowds(limits, o, op)
    ensures Within(Stored(f, limits, op.name, op.ids, op.reasoning, op.now), Stored(o, limits, op.name, op.ids, op.reasoning, op.now), op.name)
  {
    if Accepted(op.ids, op.reasoning, limits) {
      hide Valid, Inserted, Enforced, Bytes;
      if limits.maxSessions == 0 || Size(op) > limits.maxTotalBytes {
        CrowdedLeaves(f, limits, op);
      } else {
        RoomyStays(o, limits, op);
        InsertWithin(f, o, op);
        InsertKeeps(f, op.name, op.ids, op.reasoning, op.now);
        EnforcedOnlyLoses(Inserted(f, op.name, op.ids, op.reasoning, op.now), limits, op.now);
      }
    }
  }

  lemma OwnIsOwn(ops: seq<Op>, name: string)
    ensures Own(OwnOps(ops, name), name)
  {
  }

  lemma NeverCrowdsPrefix(limits: Limits, ops: seq<Op>, n: nat)
    requires NeverCrowds(limits, ops) && n <= |ops|
    ensures NeverCrowds(limits, ops[..n])
    ensures n < |ops| ==> !Crowds(limits, Run(limits, ops[..n]), ops[n])
  {
    hide Crowds, Run;
    assert forall i | 0 <= i < n :: ops[..n][..i] == ops[..i];
  }

  lemma OwnOneMore(ops: seq<Op>, op: Op, name: string)
    ensures OwnOps(ops + [op], name) == if op.name == name then OwnOps(ops, name) + [op] else OwnOps(ops, name)
  {
    assert (ops + [op])[..|ops|] == ops;
  }

  lemma RunOneMore(limits: Limits, ops: seq<Op>, op: Op)
    ensures Run(limits, ops + [op]) == Applied(Run(limits, ops), limits, op)
  {
    LastRun(limits, ops + [op]);
    assert (ops + [op])[..|ops|] == ops;
    hide Applied;
  }

  /** As long as a session never crowds its own run, the shared store holds no more for it than the store of its own. */
  lemma {:induction false} OwnRunCovers(limits: Limits, ops: seq<Op>, name: string)
    requires NeverCrowds(limits, OwnOps(ops, name))
    ensures Within(Run(limits, ops), Run(limits, OwnOps(ops, name)), name)
  {
    hide *;
    if ops == [] {
      NothingWithin(limits, name);
    } else {
      var before, op := ops[..|ops| - 1], ops[|ops| - 1];
      var own := OwnOps(before, name);
      assert ops == before + [op];
      OwnOneMore(before, op, name);
      RunOneMore(limits, before, op);
      RunOneMore(limits, own, op);
      RunKeeps(limits, before);
      RunKeeps(limits, own);
      OwnIsOwn(before, name);
      OwnRunIsLone(limits, own, name);
      if op.name == name {
        assert (own + [op])[..|own|] == own;
        NeverCrowdsPrefix(limits, own + [op], |own|);
        OwnRunCovers(limits, before, name);
        OwnStep(limits, Run(limits, before), Run(limits, own), op);
      } else {
        OwnRunCovers(limits, before, name);
        OthersSpare(Run(limits, before), limits, op, name);
        GoneWithin(Run(limits, before), Applied(Run(limits, before), limits, op), Run(limits, own), name);
      }
    }
  }

  lemma NothingWithin(limits: Limits, name: string)
    ensures Within(Run(limits, []), Run(limits, OwnOps([], name)), name)
  {
  }

  lemma GoneWithin(f: Store, f': Store, o: Store, name: string)
    requires Within(f, o, name) && UntouchedOrGone(f, f', name)
    ensures Within(f', o, name)
  {
  }

  lemma OwnStep(limits: Limits, f: Store, o: Store, op: Op)
    requires Valid(f) && Valid(o) && Alone(o, op.name) && Within(f, o, op.name) && !Crowds(limits, o, op)
    ensures Within(Applied(f, limits, op), Applied(o, limits, op), op.name)
  {
    hide Valid, Stored, Restored, Crowds;
    match op {
      case StoreOp(name, ids, reasoning, now) => StoreWithin(f, o, limits, op);
      case RestoreOp(name, ids, now) => RestoreWithin(f, o, limits, name, ids, now);
      case ClearOp(name) =>
    }
  }

  // ---- hits ----

  function Hit(s: Store, limits: Limits, name: string, ids: seq<string>, now: nat): Option<string> {
    Restored(s, limits, name, ids, now).hit
  }

  /** With the same first held id, a lookup that hits in the smaller store hits alike in the larger. */
  lemma WithinHits(f: Store, o: Store, limits: Limits, name: string, ids: seq<string>, now: nat)
    requires Within(f, o, name) && Hit(f, limits, name, ids, now).Some?
    ensures name in f.sessions && name in o.sessions && FirstHeld(o.sessions[name].entries, ids).Some?
    ensures FirstHeld(o.sessions[name].entries, ids) == FirstHeld(f.sessions[name].entries, ids) ==>
              Hit(o, limits, name, ids, now) == Hit(f, limits, name, ids, now)
    ensures |ids| == 1 ==> Hit(o, limits, name, ids, now) == Hit(f, limits, name, ids, now)
  {
    var a := FirstHeld(f.sessions[name].entries, ids);
    assert a.value in ids && a.value in o.sessions[name].entries;
    if |ids| == 1 {
      assert ids[1..] == [];
    }
  }

  /** Every lookup of one id that hits in the run hits alike in the session's own run. */
  ghost predicate OnlyLosesOneId(limits: Limits, ops: seq<Op>, name: string) {
    forall id: string, now: nat ::
      var shared := Hit(Run(limits, ops), limits, name, [id], now);
      shared == None || shared == Hit(Run(limits, OwnOps(ops, name)), limits, name, [id], now)
  }

  /** At every point of every run in which the session does `own`, the others cost its lookups of one id hits at most. */
  ghost predicate OthersNeverHelpOneId(limits: Limits, own: seq<Op>, name: string) {
    forall ops | OwnOps(ops, name) <= own :: OnlyLosesOneId(limits, ops, name)
  }

  lemma CoveredOnlyLoses(limits: Limits, ops: seq<Op>, name: string)
    requires NeverCrowds(limits, OwnOps(ops, name))
    ensures OnlyLosesOneId(limits, ops, name)
  {
    OwnRunCovers(limits, ops, name);
    var f, o := Run(limits, ops), Run(limits, OwnOps(ops, name));
    hide Run, Within, Restored, OwnOps;
    forall id: string, now: nat | Hit(f, limits, name, [id], now) != None
      ensures Hit(f, limits, name, [id], now) == Hit(o, limits, name, [id], now)
    {
      WithinHits(f, o, limits, name, [id], now);
    }
  }

  // ---- a neighbour that helps ----

  /** A name other than the session's. */
  function Other(name: string): (other: string)
    ensures other != name
  {
    name + "'"
  }

  /** A neighbour's store of exactly the limit. */
  function Filler(limits: Limits, name: string, now: nat): Op {
    StoreOp(Other(name), seq(limits.maxTotalBytes, i => "f"), "x", now)
  }

  lemma FillerFills(limits: Limits, op: Op)
    requires op.StoreOp? && Accepted(op.ids, op.reasoning, limits) && Size(op) <= limits.maxTotalBytes
    ensures var f := Filler(limits, op.name, op.now); Accepted(f.ids, f.reasoning, limits) && Size(f) == limits.maxTotalBytes
  {
    assert "x"[..0] == "" && Bytes("x") == Bytes("x"[..0]) + 1;
    SomeBytes(op.reasoning);
    Product(|op.ids|, Bytes(op.reasoning));
  }

  lemma Product(a: nat, b: nat)
    requires a >= 1 && b >= 1
    ensures a * b >= 1
  {
  }

  lemma SomeBytes(text: string)
    requires text != ""
    ensures Bytes(text) >= 1
  {
  }

  /** The neighbour evicts a session it finds alone, if that holds anything at all. */
  lemma FillerEvicts(s: Store, limits: Limits, op: Op)
    requires Valid(s) && Alone(s, op.name) && Fits(limits, op) && SessionOf(s, op.name).bytes > 0
    ensures op.name !in Applied(s, limits, Filler(limits, op.name, op.now)).sessions
  {
    var f := Filler(limits, op.name, op.now);
    var t := Inserted(s, f.name, f.ids, f.reasoning, f.now);
    FillerFills(limits, op);
    LoneTotal(s, op.name);
    InsertKeeps(s, f.name, f.ids, f.reasoning, f.now);
    FreshIsNotStale(s, limits, f);
    assert op.name in s.sessions && t.lru == [op.name, f.name] && t.sessions[f.name].bytes >= limits.maxTotalBytes;
    assert t.sessions[op.name].bytes > 0;
    var gone := Stale(t, f.now, limits.ttl);
    var w := Without(t, gone);
    var k := EnforcedIsShortest(t, limits, f.now);
    assert Applied(s, limits, f) == Trimmed(w, k);
    if op.name !in gone {
      assert w.lru == [op.name, f.name] by { KeepBoth(op.name, f.name, gone); }
      assert w.sessions[op.name] == t.sessions[op.name] && w.sessions[f.name] == t.sessions[f.name];
      hide Inserted, InsertAll, Enforced, Valid, Without, Stale, Applied, Filler, Fits;
      TwoAreTooMuch(w, limits, op.name, f.name, k);
    }
  }

  lemma KeepBoth(a: string, b: string, gone: set<string>)
    requires a !in gone && b !in gone
    ensures Keep([a, b], gone) == [a, b]
  {
    assert [a, b][1..] == [b] && [b][1..] == [] && Keep([b], gone) == [b] + Keep([], gone);
  }

  lemma TwoAreTooMuch(w: Store, limits: Limits, a: string, b: string, k: nat)
    requires w.lru == [a, b] && a in w.sessions && b in w.sessions && k <= 2 && Suffices(w, limits, k)
    requires w.sessions[a].bytes + w.sessions[b].bytes > limits.maxTotalBytes
    ensures a !in Trimmed(w, k).sessions
  {
    assert w.lru[0..] == w.lru && w.lru[1..] == [b] && [b][1..] == [] && Sum(w.sessions, [b]) == w.sessions[b].bytes;
    assert Sum(w.sessions, w.lru) == w.sessions[a].bytes + w.sessions[b].bytes;
    assert k > 0;
    assert a == w.lru[..k][0];
  }

  /** A store that fits by itself is kept where its session was not. */
  lemma AloneFits(s: Store, limits: Limits, op: Op)
    requires Valid(s) && op.name !in s.sessions && op.StoreOp? && Accepted(op.ids, op.reasoning, limits)
    requires limits.maxSessions >= 1 && Size(op) <= limits.maxTotalBytes
    ensures op.name in Stored(s, limits, op.name, op.ids, op.reasoning, op.now).sessions
  {
    var t := Inserted(s, op.name, op.ids, op.reasoning, op.now);
    InsertKeeps(s, op.name, op.ids, op.reasoning, op.now);
    FreshIsNotStale(s, limits, op);
    var gone := Stale(t, op.now, limits.ttl);
    var w := Without(t, gone);
    WithoutKeeps(t, gone);
    var k := EnforcedIsShortest(t, limits, op.now);
    KeepLast(s.lru, op.name, gone);
    assert w.lru == Keep(s.lru, gone) + [op.name] && w.sessions[op.name].bytes == Size(op);
    hide Inserted, InsertAll, Enforced, Without, Stale, Bytes, Bounded;
    LastSuffices(w, limits, op.name);
    LastStays(w, op.name, k);
  }

  lemma {:induction false} KeepLast(names: seq<string>, last: string, gone: set<string>)
    requires last !in gone
    ensures Keep(names + [last], gone) == Keep(names, gone) + [last]
  {
    if names == [] {
      assert [] + [last] == [last] && [last][1..] == [];
    } else {
      KeepLast(names[1..], last, gone);
      assert (names + [last])[1..] == names[1..] + [last];
    }
  }

  lemma LastSuffices(w: Store, limits: Limits, name: string)
    requires w.lru != [] && w.lru[|w.lru| - 1] == name && name in w.sessions
    requires w.sessions[name].bytes <= limits.maxTotalBytes && limits.maxSessions >= 1
    ensures Suffices(w, limits, |w.lru| - 1)
  {
    assert w.lru[|w.lru| - 1..] == [name] && [name][1..] == [];
    assert Sum(w.sessions, [name]) == w.sessions[name].bytes;
  }

  lemma LastStays(w: Store, name: string, k: nat)
    requires Valid(w) && w.lru != [] && w.lru[|w.lru| - 1] == name && k < |w.lru|
    ensures name in Trimmed(w, k).sessions
  {
    var n := |w.lru| - 1;
    assert w.lru[n] in w.lru;
    assert name in w.lru[k..] by { assert w.lru[k..][n - k] == name; }
    Apart(w.lru, k, name);
  }

  lemma FillerNames(limits: Limits, name: string, now: nat)
    ensures Filler(limits, name, now).name != name
  {
  }

  lemma OwnPrefix(own: seq<Op>, name: string, i: nat)
    requires Own(own, name) && i < |own|
    ensures Own(own[..i], name) && own[i].name == name
  {
  }

  /** Where a session crowds its own store, a neighbour at the right time would have saved the new entry. */
  lemma NeighbourSaves(limits: Limits, own: seq<Op>, name: string, i: nat)
    requires Own(own, name) && i < |own| && Crowds(limits, Run(limits, own[..i]), own[i])
    ensures var ops := own[..i] + [Filler(limits, name, own[i].now)] + [own[i]];
            && OwnOps(ops, name) == own[..i + 1]
            && Hit(Run(limits, ops), limits, name, [own[i].ids[0]], own[i].now) == Some(own[i].reasoning)
            && Hit(Run(limits, own[..i + 1]), limits, name, [own[i].ids[0]], own[i].now) == None
  {
    hide *;
    CrowdsMeans(limits, Run(limits, own[..i]), own[i]);
    OwnPrefix(own, name, i);
    var op := own[i];
    var filler := Filler(limits, name, op.now);
    var s := Run(limits, own[..i]);
    FillerNames(limits, name, op.now);
    assert own[..i + 1] == own[..i] + [op];
    OwnOfOwn(own[..i], name);
    OwnOneMore(own[..i], filler, name);
    OwnOneMore(own[..i] + [filler], op, name);
    RunOneMore(limits, own[..i], op);
    RunOneMore(limits, own[..i], filler);
    RunOneMore(limits, own[..i] + [filler], op);
    RunKeeps(limits, own[..i]);
    RunKeeps(limits, own[..i] + [filler]);
    OwnRunIsLone(limits, own[..i], name);
    FillerEvicts(s, limits, op);
    SavedHits(Applied(s, limits, filler), limits, op);
    LostMisses(s, limits, op);
  }

  lemma SavedHits(s: Store, limits: Limits, op: Op)
    requires Valid(s) && op.name !in s.sessions && op.StoreOp? && Accepted(op.ids, op.reasoning, limits)
    requires limits.maxSessions >= 1 && Size(op) <= limits.maxTotalBytes && op.ids[0] in op.ids
    ensures Hit(Applied(s, limits, op), limits, op.name, [op.ids[0]], op.now) == Some(op.reasoning)
  {
    hide Valid, Bytes, Stored, Restored;
    AloneFits(s, limits, op);
    StoredIsFound(s, limits, op.name, op.ids, op.reasoning, op.now, op.ids[0], op.now);
  }

  lemma LostMisses(s: Store, limits: Limits, op: Op)
    requires Valid(s) && Crowds(limits, s, op)
    ensures Hit(Applied(s, limits, op), limits, op.name, [op.ids[0]], op.now) == None
  {
    CrowdedLeaves(s, limits, op);
    hide Valid, Bytes, Stored;
  }

  lemma {:induction false} OwnOfOwn(ops: seq<Op>, name: string)
    requires Own(ops, name)
    ensures OwnOps(ops, name) == ops
  {
    hide *;
    if ops == [] {
      NoOps(name);
    } else {
      var before, op := ops[..|ops| - 1], ops[|ops| - 1];
      OwnFront(ops, name);
      OwnOfOwn(before, name);
      OwnOneMore(before, op, name);
      assert before + [op] == ops;
    }
  }

  lemma NoOps(name: string)
    ensures OwnOps([], name) == []
  {
  }

  lemma OwnFront(ops: seq<Op>, name: string)
    requires Own(ops, name) && ops != []
    ensures Own(ops[..|ops| - 1], name) && ops[|ops| - 1].name == name
  {
  }

  /**
   Whatever the other sessions do and whenever, they only ever turn a hit of a lookup of one id into a miss, if and only
   if the session never crowds its own store: no store of its own that fits alone takes its accounted bytes past the limit.
   */
  lemma OneIdExactlyWhen(limits: Limits, own: seq<Op>, name: string)
    requires Own(own, name)
    ensures OthersNeverHelpOneId(limits, own, name) <==> NeverCrowds(limits, own)
  {
    hide OnlyLosesOneId, Crowds, Run, Own;
    if NeverCrowds(limits, own) {
      forall ops | OwnOps(ops, name) <= own ensures OnlyLosesOneId(limits, ops, name) {
        NeverCrowdsPrefix(limits, own, |OwnOps(ops, name)|);
        assert own[..|OwnOps(ops, name)|] == OwnOps(ops, name);
        CoveredOnlyLoses(limits, ops, name);
      }
    } else {
      var i :| 0 <= i < |own| && Crowds(limits, Run(limits, own[..i]), own[i]);
      CrowdsMeans(limits, Run(limits, own[..i]), own[i]);
      var ops := own[..i] + [Filler(limits, name, own[i].now)] + [own[i]];
      NeighbourSaves(limits, own, name, i);
      SavedIsNotLost(limits, ops, name, own[i].ids[0], own[i].now);
      assert OwnOps(ops, name) <= own;
    }
  }

  lemma CrowdsMeans(limits: Limits, s: Store, op: Op)
    requires Crowds(limits, s, op)
    ensures op.StoreOp? && op.ids != [] && op.ids[0] in op.ids && Accepted(op.ids, op.reasoning, limits)
    ensures limits.maxSessions >= 1 && Size(op) <= limits.maxTotalBytes && Fits(limits, op)
    ensures SessionOf(s, op.name).bytes > 0
  {
  }

  lemma SavedIsNotLost(limits: Limits, ops: seq<Op>, name: string, id: string, now: nat)
    requires Hit(Run(limits, ops), limits, name, [id], now).Some?
    requires Hit(Run(limits, OwnOps(ops, name)), limits, name, [id], now).None?
    ensures !OnlyLosesOneId(limits, ops, name)
  {
    hide Run, OwnOps, Restored;
  }
}
