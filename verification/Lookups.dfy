/**
 Lookups of several ids at once, as a request makes them: every run of the shared store against the run of a session's
 own operations. Whatever the store holds for a session is what its own operations since some point would have left
 alone; so others can help a lookup exactly where forgetting the past could.
 */
module Lookups {
  import opened Prelude
  import opened ShadowStore
  import opened Neighbours

  // ---- what the shared store holds ----

  predicate SameSession(f: Store, o: Store, name: string) {
    name in f.sessions && name in o.sessions && f.sessions[name] == o.sessions[name]
  }

  /** The session, if it is held, is exactly what its own operations from some point on leave in an empty store. */
  predicate HeldSince(limits: Limits, f: Store, own: seq<Op>, name: string) {
    name in f.sessions ==> exists c | 0 <= c <= |own| :: SameSession(f, Run(limits, own[c..]), name)
  }

  /** The session after a store operation that keeps it. */
  function Grown(was: Session, op: Op): Session
    requires op.StoreOp?
  {
    Session(InsertAll(was.entries, op.ids, Entry(op.reasoning, op.now)), was.bytes + Size(op))
  }

  lemma StoringIs(f: Store, limits: Limits, op: Op)
    requires op.StoreOp? && Accepted(op.ids, op.reasoning, limits)
    ensures var t := Inserted(f, op.name, op.ids, op.reasoning, op.now);
            && Applied(f, limits, op) == Enforced(t, limits, op.now) == Stored(f, limits, op.name, op.ids, op.reasoning, op.now)
            && op.name in t.sessions && t.sessions[op.name] == Grown(SessionOf(f, op.name), op)
            && forall n | n in t.sessions :: n == op.name || (n in f.sessions && t.sessions[n] == f.sessions[n])
  {
    hide Enforced, InsertAll, Bytes;
  }

  lemma StoreLoses(f: Store, limits: Limits, op: Op)
    requires Valid(f) && op.StoreOp? && Accepted(op.ids, op.reasoning, limits)
    ensures Valid(Applied(f, limits, op)) && Applied(f, limits, op).totalBytes <= limits.maxTotalBytes
    ensures OnlyLost(Inserted(f, op.name, op.ids, op.reasoning, op.now), Applied(f, limits, op))
  {
    hide *;
    var t := Inserted(f, op.name, op.ids, op.reasoning, op.now);
    StoringIs(f, limits, op);
    InsertKeeps(f, op.name, op.ids, op.reasoning, op.now);
    EnforcedOnlyLoses(t, limits, op.now);
    var k := EnforcedIsShortest(t, limits, op.now);
  }

  /** A session that survives its own store operation had room for it, and holds exactly what it was given. */
  lemma KeptIsGrown(f: Store, limits: Limits, op: Op)
    requires Valid(f) && op.StoreOp? && Accepted(op.ids, op.reasoning, limits) && op.name in Applied(f, limits, op).sessions
    ensures limits.maxSessions >= 1 && SessionOf(f, op.name).bytes + Size(op) <= limits.maxTotalBytes
    ensures Applied(f, limits, op).sessions[op.name] == Grown(SessionOf(f, op.name), op)
  {
    StoringIs(f, limits, op);
    StoreLoses(f, limits, op);
    hide Inserted, Applied, Stored, Enforced, Valid, Accepted, Grown, Size;
    if limits.maxSessions == 0 || SessionOf(f, op.name).bytes + Size(op) > limits.maxTotalBytes {
      CrowdedLeaves(f, limits, op);
    }
  }

  lemma RoomyGrows(o: Store, limits: Limits, op: Op)
    requires Valid(o) && Alone(o, op.name) && op.StoreOp? && Accepted(op.ids, op.reasoning, limits)
    requires limits.maxSessions >= 1 && SessionOf(o, op.name).bytes + Size(op) <= limits.maxTotalBytes
    ensures op.name in Applied(o, limits, op).sessions
    ensures Applied(o, limits, op).sessions[op.name] == Grown(SessionOf(o, op.name), op)
  {
    RoomyStays(o, limits, op);
    hide Valid, Stored, InsertAll, Bytes, Alone;
  }

  lemma StoreSame(f: Store, o: Store, limits: Limits, op: Op)
    requires Valid(f) && Valid(o) && Alone(o, op.name) && op.StoreOp? && SessionOf(f, op.name) == SessionOf(o, op.name)
    requires Accepted(op.ids, op.reasoning, limits) && op.name in Applied(f, limits, op).sessions
    ensures SameSession(Applied(f, limits, op), Applied(o, limits, op), op.name)
  {
    KeptIsGrown(f, limits, op);
    RoomyGrows(o, limits, op);
    hide Applied, Valid, Accepted, Alone, Grown, SessionOf, Size;
  }

  lemma RestoreSame(f: Store, o: Store, limits: Limits, op: Op)
    requires op.RestoreOp? && SameSession(f, o, op.name)
    ensures SameSession(Applied(f, limits, op), Applied(o, limits, op), op.name)
  {
    hide FirstHeld;
  }

  predicate SameOrNone(f: Store, o: Store, name: string) {
    if name in f.sessions then SameSession(f, o, name) else SessionOf(o, name) == Session(map[], 0)
  }

  /** An operation of the session itself acts alike on two stores that hold it alike, as long as the first keeps it. */
  lemma SameStep(f: Store, o: Store, limits: Limits, op: Op)
    requires Valid(f) && Valid(o) && Alone(o, op.name)
    requires SameOrNone(f, o, op.name)
    ensures op.name in Applied(f, limits, op).sessions ==> SameSession(Applied(f, limits, op), Applied(o, limits, op), op.name)
  {
    assert SessionOf(f, op.name) == SessionOf(o, op.name);
    hide Valid, Stored, Restored, SessionOf, Accepted, Alone, Cleared;
    if op.name in Applied(f, limits, op).sessions {
      match op {
        case StoreOp(name, ids, reasoning, now) =>
          if Accepted(ids, reasoning, limits) {
            StoreSame(f, o, limits, op);
          } else {
            RefusedStore(f, limits, op);
            RefusedStore(o, limits, op);
          }
        case RestoreOp(name, ids, now) =>
          RestoreAddsNone(f, limits, op);
          RestoreSame(f, o, limits, op);
        case ClearOp(name) =>
          ClearedIsGone(f, name);
      }
    }
  }

  lemma ClearedIsGone(f: Store, name: string)
    ensures name !in Cleared(f, name).sessions
  {
    hide Keep;
  }

  /** What an operation of the session itself does to a session held since some point. */
  lemma OwnStepHeld(limits: Limits, f: Store, own: seq<Op>, op: Op)
    requires Valid(f) && Own(own, op.name) && HeldSince(limits, f, own, op.name)
    ensures HeldSince(limits, Applied(f, limits, op), own + [op], op.name)
  {
    hide *;
    var name, f' := op.name, Applied(f, limits, op);
    var c: nat := if name in f.sessions then PointOf(limits, f, own, name) else |own|;
    var o := Run(limits, own[c..]);
    SameOrEmpty(limits, f, own, name, c);
    OwnSuffix(own, name, c);
    RunKeeps(limits, own[c..]);
    OwnRunIsLone(limits, own[c..], name);
    SameStep(f, o, limits, op);
    RunOneMore(limits, own[c..], op);
    assert (own + [op])[c..] == own[c..] + [op];
    HeldFrom(limits, f', own + [op], name, c);
  }

  lemma HeldFrom(limits: Limits, f: Store, own: seq<Op>, name: string, c: nat)
    requires c <= |own| && (name in f.sessions ==> SameSession(f, Run(limits, own[c..]), name))
    ensures HeldSince(limits, f, own, name)
  {
    hide Run;
  }

  lemma RefusedStore(f: Store, limits: Limits, op: Op)
    requires op.StoreOp? && !Accepted(op.ids, op.reasoning, limits)
    ensures Applied(f, limits, op) == f
  {
  }

  lemma RestoreAddsNone(f: Store, limits: Limits, op: Op)
    requires op.RestoreOp?
    ensures Applied(f, limits, op).sessions.Keys == f.sessions.Keys
  {
  }

  ghost function PointOf(limits: Limits, f: Store, own: seq<Op>, name: string): (c: nat)
    requires name in f.sessions && HeldSince(limits, f, own, name)
    ensures c <= |own| && SameSession(f, Run(limits, own[c..]), name)
  {
    var c :| 0 <= c <= |own| && SameSession(f, Run(limits, own[c..]), name);
    c
  }

  lemma SameOrEmpty(limits: Limits, f: Store, own: seq<Op>, name: string, c: nat)
    requires c <= |own|
    requires if name in f.sessions then SameSession(f, Run(limits, own[c..]), name) else c == |own|
    ensures SameOrNone(f, Run(limits, own[c..]), name)
  {
    if c == |own| {
      assert own[c..] == [];
    }
  }

  lemma OtherStepHeld(limits: Limits, f: Store, f': Store, own: seq<Op>, name: string)
    requires HeldSince(limits, f, own, name) && UntouchedOrGone(f, f', name)
    ensures HeldSince(limits, f', own, name)
  {
    if name in f'.sessions {
      var c := PointOf(limits, f, own, name);
      assert SameSession(f', Run(limits, own[c..]), name);
    }
  }

  /**
   In every run at all: a session the shared store holds is exactly what its own operations since some point would have
   left alone, times, bytes and lazy removals included.
   */
  lemma {:induction false} SharedIsOwnSince(limits: Limits, ops: seq<Op>, name: string)
    ensures HeldSince(limits, Run(limits, ops), OwnOps(ops, name), name)
  {
    hide *;
    if ops == [] {
      NothingHeldSince(limits, name);
    } else {
      var before, op := ops[..|ops| - 1], ops[|ops| - 1];
      assert ops == before + [op];
      SharedIsOwnSince(limits, before, name);
      OwnOneMore(before, op, name);
      RunOneMore(limits, before, op);
      RunKeeps(limits, before);
      OwnIsOwn(before, name);
      if op.name == name {
        OwnStepHeld(limits, Run(limits, before), OwnOps(before, name), op);
      } else {
        OthersSpare(Run(limits, before), limits, op, name);
        OtherStepHeld(limits, Run(limits, before), Applied(Run(limits, before), limits, op), OwnOps(before, name), name);
      }
    }
  }

  lemma NothingHeldSince(limits: Limits, name: string)
    ensures HeldSince(limits, Run(limits, []), OwnOps([], name), name)
  {
  }

  // ---- when forgetting is harmless ----

  function EntriesOf(s: Store, name: string): map<string, Entry> {
    SessionOf(s, name).entries
  }

  /** What has been forgotten says the same as all that is left, and would expire no earlier. */
  predicate Harmless(all: map<string, Entry>, left: map<string, Entry>) {
    forall x, y | x in all && x !in left && y in left ::
      all[x].reasoning == left[y].reasoning && all[x].created >= left[y].created
  }

  /** At no time would having started afresh at an earlier time have done harm. */
  predicate NeverDiverges(limits: Limits, own: seq<Op>, name: string) {
    forall n: nat, c: nat | c <= n <= |own| ::
      Harmless(EntriesOf(Run(limits, own[..n]), name), EntriesOf(Run(limits, own[c..n]), name))
  }

  /** Every lookup that hits in the run hits alike in the session's own run. */
  ghost predicate OnlyLoses(limits: Limits, ops: seq<Op>, name: string) {
    forall ids: seq<string>, now: nat ::
      var shared := Hit(Run(limits, ops), limits, name, ids, now);
      shared == None || shared == Hit(Run(limits, OwnOps(ops, name)), limits, name, ids, now)
  }

  /** At every point of every run in which the session does `own`, the others cost its lookups hits at most. */
  ghost predicate OthersNeverHelp(limits: Limits, own: seq<Op>, name: string) {
    forall ops | OwnOps(ops, name) <= own :: OnlyLoses(limits, ops, name)
  }

  lemma HarmlessHits(f: Store, o: Store, limits: Limits, name: string, ids: seq<string>, now: nat)
    requires Within(f, o, name) && Harmless(EntriesOf(o, name), EntriesOf(f, name)) && Hit(f, limits, name, ids, now).Some?
    ensures Hit(o, limits, name, ids, now) == Hit(f, limits, name, ids, now)
  {
    WithinHits(f, o, limits, name, ids, now);
    var few, many := f.sessions[name].entries, o.sessions[name].entries;
    if FirstHeld(many, ids).value in few {
      FirstOfFewer(few, many, ids);
    }
    hide FirstHeld;
  }

  lemma HarmlessOnlyLoses(limits: Limits, own: seq<Op>, ops: seq<Op>, name: string)
    requires OwnOps(ops, name) <= own && NeverCrowds(limits, own) && NeverDiverges(limits, own, name)
    ensures OnlyLoses(limits, ops, name)
  {
    var n := |OwnOps(ops, name)|;
    assert own[..n] == OwnOps(ops, name);
    NeverCrowdsPrefix(limits, own, n);
    OwnRunCovers(limits, ops, name);
    SharedIsOwnSince(limits, ops, name);
    var f, o := Run(limits, ops), Run(limits, own[..n]);
    if name in f.sessions {
      var c := PointOf(limits, f, own[..n], name);
      assert own[..n][c..] == own[c..n];
      assert Harmless(EntriesOf(o, name), EntriesOf(Run(limits, own[c..n]), name));
      assert EntriesOf(f, name) == EntriesOf(Run(limits, own[c..n]), name);
    }
    hide Run, Within, Restored, OwnOps, Harmless, NeverDiverges, NeverCrowds, HeldSince, EntriesOf;
    forall ids: seq<string>, now: nat | Hit(f, limits, name, ids, now) != None
      ensures Hit(f, limits, name, ids, now) == Hit(o, limits, name, ids, now)
    {
      HitIsHeld(f, limits, name, ids, now);
      HarmlessHits(f, o, limits, name, ids, now);
    }
  }

  lemma HitIsHeld(f: Store, limits: Limits, name: string, ids: seq<string>, now: nat)
    requires Hit(f, limits, name, ids, now) != None
    ensures name in f.sessions
  {
  }

  // ---- a neighbour that makes a session forget ----

  lemma {:induction false} SameAfter(limits: Limits, a: seq<Op>, b: seq<Op>, t: seq<Op>)
    requires Run(limits, a) == Run(limits, b)
    ensures Run(limits, a + t) == Run(limits, b + t)
    decreases |t|
  {
    hide *;
    if t == [] {
      assert a + t == a && b + t == b;
    } else {
      var n := |t| - 1;
      SameAfter(limits, a, b, t[..n]);
      RunOneMore(limits, a + t[..n], t[n]);
      RunOneMore(limits, b + t[..n], t[n]);
      assert a + t == a + t[..n] + [t[n]] && b + t == b + t[..n] + [t[n]];
    }
  }

  /** Sessions hold something. */
  lemma {:induction false} HeldHasBytes(limits: Limits, ops: seq<Op>, name: string)
    requires name in Run(limits, ops).sessions
    ensures SessionOf(Run(limits, ops), name).bytes > 0
  {
    if ops != [] {
      var before, op := ops[..|ops| - 1], ops[|ops| - 1];
      var s := Run(limits, before);
      if name in s.sessions {
        HeldHasBytes(limits, before, name);
      }
      RunKeeps(limits, before);
      LastRun(limits, ops);
      hide Run, Valid, Applied;
      BytesStay(s, limits, op, name);
    }
  }

  lemma BytesStay(s: Store, limits: Limits, op: Op, name: string)
    requires Valid(s) && (name in s.sessions ==> s.sessions[name].bytes > 0) && name in Applied(s, limits, op).sessions
    ensures Applied(s, limits, op).sessions[name].bytes > 0
  {
    if op.StoreOp? && Accepted(op.ids, op.reasoning, limits) {
      InsertKeeps(s, op.name, op.ids, op.reasoning, op.now);
      EnforcedOnlyLoses(Inserted(s, op.name, op.ids, op.reasoning, op.now), limits, op.now);
      SomeBytes(op.reasoning);
      Product(|op.ids|, Bytes(op.reasoning));
      hide Enforced, Valid, Bytes, InsertAll;
    } else {
      hide Enforced, Valid, Bytes, FirstHeld;
    }
  }

  /** After the neighbour's store, the session's own leaves exactly what it leaves in an empty store. */
  lemma FillerResets(s: Store, limits: Limits, op: Op)
    requires Valid(s) && Alone(s, op.name) && Fits(limits, op) && (op.name in s.sessions ==> SessionOf(s, op.name).bytes > 0)
    ensures Applied(Applied(s, limits, Filler(limits, op.name, op.now)), limits, op) == Applied(EMPTY, limits, op)
  {
    var filler := Filler(limits, op.name, op.now);
    var g := Applied(s, limits, filler);
    FillerFills(limits, op);
    assert Valid(g) by { AppliedKeeps(s, limits, filler); }
    FillerLeavesOne(s, limits, op);
    assert Valid(EMPTY) && Alone(EMPTY, op.name) && SessionOf(EMPTY, op.name) == Session(map[], 0);
    assert op.name !in g.sessions;
    hide Filler, Bytes, Valid;
    RoomyStays(EMPTY, limits, op);
    OnlyOwnStays(g, limits, op, filler.name);
  }

  /** Of the neighbour and the session at most the neighbour is left, with all its bytes. */
  lemma FillerLeavesOne(s: Store, limits: Limits, op: Op)
    requires Valid(s) && Alone(s, op.name) && Fits(limits, op) && (op.name in s.sessions ==> SessionOf(s, op.name).bytes > 0)
    ensures var filler := Filler(limits, op.name, op.now); var g := Applied(s, limits, filler);
            && filler.name != op.name && op.name !in g.sessions
            && forall n | n in g.sessions :: n == filler.name && g.sessions[n].bytes >= limits.maxTotalBytes
  {
    var filler := Filler(limits, op.name, op.now);
    FillerFills(limits, op);
    if op.name in s.sessions {
      FillerEvicts(s, limits, op);
    } else {
      OthersSpare(s, limits, filler, op.name);
    }
    InsertKeeps(s, filler.name, filler.ids, filler.reasoning, filler.now);
    EnforcedOnlyLoses(Inserted(s, filler.name, filler.ids, filler.reasoning, filler.now), limits, filler.now);
    hide Enforced, Valid, Bytes, InsertAll;
  }

  /** Only one other session may be held beside the one just stored, and that one fills the store. */
  ghost predicate Beside(h: Store, limits: Limits, op: Op, other: string)
    requires op.StoreOp?
  {
    && Valid(h) && h.totalBytes <= limits.maxTotalBytes
    && op.name in h.sessions && h.sessions[op.name] == Grown(Session(map[], 0), op)
    && forall n | n in h.sessions :: n == op.name || (n == other && h.sessions[n].bytes >= limits.maxTotalBytes)
  }

  lemma StoredBeside(g: Store, limits: Limits, op: Op, other: string)
    requires Valid(g) && Fits(limits, op) && op.name !in g.sessions
    requires forall n | n in g.sessions :: n == other && g.sessions[n].bytes >= limits.maxTotalBytes
    ensures Beside(Applied(g, limits, op), limits, op, other)
  {
    AloneFits(g, limits, op);
    StoringIs(g, limits, op);
    StoreLoses(g, limits, op);
    hide Inserted, Applied, Stored, Enforced, Valid, Accepted, Grown, Size;
  }

  /** Two sessions that do not fit together are not both kept. */
  lemma OnlyOwnStays(g: Store, limits: Limits, op: Op, other: string)
    requires Valid(g) && Fits(limits, op) && op.name !in g.sessions && other != op.name
    requires forall n | n in g.sessions :: n == other && g.sessions[n].bytes >= limits.maxTotalBytes
    ensures Applied(g, limits, op) == Inserted(EMPTY, op.name, op.ids, op.reasoning, op.now)
  {
    StoredBeside(g, limits, op, other);
    SomeBytes(op.reasoning);
    Product(|op.ids|, Bytes(op.reasoning));
    hide Applied, Inserted, Bytes, Valid;
    BesideIsAlone(Applied(g, limits, op), limits, op, other);
  }

  lemma BesideIsAlone(h: Store, limits: Limits, op: Op, other: string)
    requires op.StoreOp? && Size(op) > 0 && other != op.name && Beside(h, limits, op, other)
    ensures h == Inserted(EMPTY, op.name, op.ids, op.reasoning, op.now)
  {
    hide Valid, InsertAll, Bytes, Inserted;
    if other in h.sessions {
      BothInSum(h, op.name, other);
    }
    LoneTotal(h, op.name);
    FreshSession(op, h);
  }

  lemma FreshSession(op: Op, h: Store)
    requires op.StoreOp? && op.name in h.sessions && (forall n | n in h.sessions :: n == op.name)
    requires h.sessions[op.name] == Grown(Session(map[], 0), op) && h.lru == [op.name] && h.totalBytes == h.sessions[op.name].bytes
    ensures h == Inserted(EMPTY, op.name, op.ids, op.reasoning, op.now)
  {
    assert [] + [op.name] == [op.name];
    assert h.sessions == map[op.name := h.sessions[op.name]];
    hide InsertAll, Bytes;
  }

  lemma BothInSum(s: Store, a: string, b: string)
    requires Valid(s) && a in s.sessions && b in s.sessions && a != b
    ensures s.sessions[a].bytes + s.sessions[b].bytes <= s.totalBytes
  {
    hide Bounded;
    TwoInSum(s.sessions, s.lru, a, b);
  }

  lemma {:induction false} TwoInSum(sessions: map<string, Session>, names: seq<string>, a: string, b: string)
    requires a in names && b in names && a != b && a in sessions && b in sessions
    ensures sessions[a].bytes + sessions[b].bytes <= Sum(sessions, names)
    decreases |names|
  {
    if names[0] == a {
      PartOfSum(sessions, names[1..], b);
    } else if names[0] == b {
      PartOfSum(sessions, names[1..], a);
    } else {
      TwoInSum(sessions, names[1..], a, b);
    }
  }

  /** A run in which a neighbour makes the session start afresh right before a store of its own that fits. */
  function Interrupted(limits: Limits, own: seq<Op>, name: string, c: nat): seq<Op>
    requires c < |own| && own[c].StoreOp?
  {
    own[..c] + [Filler(limits, name, own[c].now)] + own[c..]
  }

  /** In that run the store ends up exactly as if the session had done nothing before. */
  lemma InterruptedForgets(limits: Limits, own: seq<Op>, name: string, c: nat)
    requires Own(own, name) && c < |own| && Fits(limits, own[c])
    ensures Run(limits, Interrupted(limits, own, name, c)) == Run(limits, own[c..])
    ensures OwnOps(Interrupted(limits, own, name, c), name) == own
  {
    hide *;
    var op := own[c];
    assert op.StoreOp? by { FitsStores(limits, op); }
    var filler := Filler(limits, name, op.now);
    var front, tail := own[..c], own[c + 1..];
    OwnPrefix(own, name, c);
    FillerNames(limits, name, op.now);
    RunKeeps(limits, front);
    OwnRunIsLone(limits, front, name);
    if name in Run(limits, front).sessions {
      HeldHasBytes(limits, front, name);
    }
    RunOneMore(limits, front, filler);
    RunOneMore(limits, front + [filler], op);
    RunOneMore(limits, [], op);
    assert [] + [op] == [op] && Run(limits, []) == EMPTY by { RunNone(limits); }
    FillerResets(Run(limits, front), limits, op);
    SameAfter(limits, front + [filler] + [op], [op], tail);
    assert own[c..] == [op] + tail && front + [filler] + own[c..] == front + [filler] + [op] + tail;
    assert Interrupted(limits, own, name, c) == front + [filler] + own[c..] by { InterruptedIs(limits, own, name, c); }
    OwnSuffix(own, name, c);
    OwnOfOwn(front, name);
    OwnOneMore(front, filler, name);
    OwnAppended(front + [filler], own[c..], name);
    assert front + own[c..] == own;
  }

  lemma FitsStores(limits: Limits, op: Op)
    requires Fits(limits, op)
    ensures op.StoreOp?
  {
  }

  lemma InterruptedIs(limits: Limits, own: seq<Op>, name: string, c: nat)
    requires c < |own| && own[c].StoreOp?
    ensures Interrupted(limits, own, name, c) == own[..c] + [Filler(limits, name, own[c].now)] + own[c..]
  {
    hide Filler;
  }

  lemma RunNone(limits: Limits)
    ensures Run(limits, []) == EMPTY
  {
  }

  lemma OwnSuffix(own: seq<Op>, name: string, c: nat)
    requires Own(own, name) && c <= |own|
    ensures Own(own[c..], name)
  {
  }

  lemma {:induction false} OwnAppended(ops: seq<Op>, more: seq<Op>, name: string)
    requires Own(more, name)
    ensures OwnOps(ops + more, name) == OwnOps(ops, name) + more
    decreases |more|
  {
    hide *;
    if more == [] {
      assert ops + more == ops && OwnOps(ops, name) + more == OwnOps(ops, name);
    } else {
      var n := |more| - 1;
      OwnFront(more, name);
      OwnAppended(ops, more[..n], name);
      OwnOneMore(ops + more[..n], more[n], name);
      assert ops + more == ops + more[..n] + [more[n]];
      assert OwnOps(ops, name) + more == OwnOps(ops, name) + more[..n] + [more[n]];
    }
  }

  /** Whatever a run of own operations leaves comes from its first store that fits on. */
  lemma {:induction false} FirstStore(limits: Limits, ops: seq<Op>, name: string) returns (d: nat)
    requires Own(ops, name) && name in Run(limits, ops).sessions
    ensures d < |ops| && Fits(limits, ops[d]) && Run(limits, ops[d..]) == Run(limits, ops)
    decreases |ops|
  {
    hide *;
    if ops == [] {
      RunNone(limits);
      NoneInEmpty(name);
      d := 0;
    } else if Fits(limits, ops[0]) {
      d := 0;
      assert ops[0..] == ops;
    } else {
      var op, rest := ops[0], ops[1..];
      assert ops == [op] + rest && [] + rest == rest && [] + [op] == [op];
      RunOneMore(limits, [], op);
      RunNone(limits);
      EmptyStays(limits, op);
      SameAfter(limits, [op], [], rest);
      assert Own(rest, name) by { OwnSuffix(ops, name, 1); }
      var e := FirstStore(limits, rest, name);
      d := e + 1;
      assert rest[e..] == ops[d..] && rest[e] == ops[d];
    }
  }

  lemma NoneInEmpty(name: string)
    ensures name !in EMPTY.sessions
  {
  }

  /** Only a store that fits leaves anything in an empty store. */
  lemma EmptyStays(limits: Limits, op: Op)
    requires !Fits(limits, op)
    ensures Applied(EMPTY, limits, op) == EMPTY
  {
    assert Valid(EMPTY) && Alone(EMPTY, op.name);
    if op.StoreOp? && Accepted(op.ids, op.reasoning, limits) {
      CrowdedLeaves(EMPTY, limits, op);
      LoneStays(EMPTY, limits, op, op.name);
      AppliedKeeps(EMPTY, limits, op);
      NothingLeft(Applied(EMPTY, limits, op), op.name);
      hide Stored, Valid;
    }
  }

  lemma NothingLeft(s: Store, name: string)
    requires Valid(s) && Alone(s, name) && name !in s.sessions
    ensures s == EMPTY
  {
    LoneTotal(s, name);
    AtMostOne(s.lru, name);
    assert s.sessions == map[];
    hide Bounded;
  }

  /** A time at which looking up a forgotten id and one that is left gives different answers. */
  lemma DivergingHits(f: Store, o: Store, limits: Limits, name: string, x: string, y: string) returns (now: nat)
    requires x in EntriesOf(o, name) && x !in EntriesOf(f, name) && y in EntriesOf(f, name)
    requires EntriesOf(o, name)[x].reasoning != EntriesOf(f, name)[y].reasoning || EntriesOf(o, name)[x].created < EntriesOf(f, name)[y].created
    ensures Hit(f, limits, name, [x, y], now).Some? && Hit(o, limits, name, [x, y], now) != Hit(f, limits, name, [x, y], now)
  {
    var gone, left := EntriesOf(o, name)[x], EntriesOf(f, name)[y];
    now := if gone.reasoning != left.reasoning then left.created else gone.created + limits.ttl + 1;
    assert [x, y][1..] == [y];
    assert FirstHeld(EntriesOf(f, name), [x, y]) == FirstHeld(EntriesOf(f, name), [y]) == Some(y);
    assert FirstHeld(EntriesOf(o, name), [x, y]) == Some(x);
  }

  /** Where starting afresh does harm, some neighbour and some lookup bring it about. */
  lemma NeighbourHelps(limits: Limits, own: seq<Op>, name: string, n: nat, c: nat)
    requires Own(own, name) && c <= n <= |own|
    requires !Harmless(EntriesOf(Run(limits, own[..n]), name), EntriesOf(Run(limits, own[c..n]), name))
    ensures !OthersNeverHelp(limits, own, name)
  {
    var o, f := Run(limits, own[..n]), Run(limits, own[c..n]);
    var x, y :| x in EntriesOf(o, name) && x !in EntriesOf(f, name) && y in EntriesOf(f, name)
                && !(EntriesOf(o, name)[x].reasoning == EntriesOf(f, name)[y].reasoning && EntriesOf(o, name)[x].created >= EntriesOf(f, name)[y].created);
    assert name in f.sessions;
    assert Own(own[..n], name) && Own(own[c..n], name);
    hide Run, Own, Harmless, OwnOps, Restored;
    var d := FirstStore(limits, own[c..n], name);
    var at := c + d;
    assert own[c..n][d..] == own[..n][at..] && own[c..n][d] == own[..n][at];
    InterruptedForgets(limits, own[..n], name, at);
    assert own[..n][at].StoreOp? by { FitsStores(limits, own[..n][at]); }
    var ops := Interrupted(limits, own[..n], name, at);
    var now := DivergingHits(f, o, limits, name, x, y);
    hide EntriesOf, Interrupted;
    HelpedOnce(limits, ops, name, [x, y], now);
    assert OwnOps(ops, name) <= own;
  }

  lemma HelpedOnce(limits: Limits, ops: seq<Op>, name: string, ids: seq<string>, now: nat)
    requires Hit(Run(limits, ops), limits, name, ids, now).Some?
    requires Hit(Run(limits, OwnOps(ops, name)), limits, name, ids, now) != Hit(Run(limits, ops), limits, name, ids, now)
    ensures !OnlyLoses(limits, ops, name)
  {
    hide Run, OwnOps, Restored;
  }

  lemma CrowdingHelps(limits: Limits, own: seq<Op>, name: string)
    requires Own(own, name) && !NeverCrowds(limits, own)
    ensures !OthersNeverHelp(limits, own, name)
  {
    hide Crowds, Run, Own, OnlyLoses;
    var i :| 0 <= i < |own| && Crowds(limits, Run(limits, own[..i]), own[i]);
    CrowdsMeans(limits, Run(limits, own[..i]), own[i]);
    var ops := own[..i] + [Filler(limits, name, own[i].now)] + [own[i]];
    NeighbourSaves(limits, own, name, i);
    HelpedOnce(limits, ops, name, [own[i].ids[0]], own[i].now);
    assert OwnOps(ops, name) <= own;
  }

  /**
   For lookups of any ids: whatever the other sessions do and whenever, they only ever turn a hit into a miss, if and
   only if the session never crowds its own store and at no time would having started afresh earlier have done harm,
   that is, left it entries that say something else than a forgotten one, or outlive it. Clocks may run in any order.
   */
  lemma OthersNeverHelpExactlyWhen(limits: Limits, own: seq<Op>, name: string)
    requires Own(own, name)
    ensures OthersNeverHelp(limits, own, name) <==> NeverCrowds(limits, own) && NeverDiverges(limits, own, name)
  {
    if NeverCrowds(limits, own) && NeverDiverges(limits, own, name) {
      hide OnlyLoses, NeverCrowds, NeverDiverges, Own, OwnOps;
      forall ops | OwnOps(ops, name) <= own ensures OnlyLoses(limits, ops, name) {
        HarmlessOnlyLoses(limits, own, ops, name);
      }
    } else if !NeverCrowds(limits, own) {
      hide *;
      CrowdingHelps(limits, own, name);
    } else {
      var n: nat, c: nat :| c <= n <= |own| && !Harmless(EntriesOf(Run(limits, own[..n]), name), EntriesOf(Run(limits, own[c..n]), name));
      hide *;
      NeighbourHelps(limits, own, name, n, c);
    }
  }

  // ---- with stores in order of time ----

  predicate OnTime(own: seq<Op>) {
    forall i, j | 0 <= i < j < |own| && own[i].StoreOp? && own[j].StoreOp? :: own[i].now <= own[j].now
  }

  /** All entries have one text and one time. */
  predicate Alike(entries: map<string, Entry>) {
    forall x, y | x in entries && y in entries :: entries[x] == entries[y]
  }

  /** At no time does the session hold two different entries. */
  predicate NeverMixed(limits: Limits, own: seq<Op>, name: string) {
    forall n: nat | n <= |own| :: Alike(EntriesOf(Run(limits, own[..n]), name))
  }

  lemma {:induction false} FreshWithin(limits: Limits, own: seq<Op>, name: string, c: nat, n: nat)
    requires Own(own, name) && NeverCrowds(limits, own) && c <= n <= |own|
    ensures Within(Run(limits, own[c..n]), Run(limits, own[..n]), name)
    decreases n
  {
    if c == n {
      assert own[c..n] == [];
    } else {
      FreshWithin(limits, own, name, c, n - 1);
      OneMoreWithin(limits, own, name, c, n - 1);
    }
  }

  lemma OneMoreWithin(limits: Limits, own: seq<Op>, name: string, c: nat, n: nat)
    requires Own(own, name) && NeverCrowds(limits, own) && c <= n < |own|
    requires Within(Run(limits, own[c..n]), Run(limits, own[..n]), name)
    ensures Within(Run(limits, own[c..n + 1]), Run(limits, own[..n + 1]), name)
  {
    hide *;
    var op := own[n];
    NeverCrowdsPrefix(limits, own, n);
    OwnPrefix(own, name, n);
    RunOneMore(limits, own[c..n], op);
    RunOneMore(limits, own[..n], op);
    assert own[c..n + 1] == own[c..n] + [op] && own[..n + 1] == own[..n] + [op];
    RunKeeps(limits, own[c..n]);
    RunKeeps(limits, own[..n]);
    OwnRunIsLone(limits, own[..n], name);
    OwnStep(limits, Run(limits, own[c..n]), Run(limits, own[..n]), op);
  }

  lemma {:induction false} CreatedBefore(limits: Limits, ops: seq<Op>, name: string, time: nat)
    requires forall i | 0 <= i < |ops| && ops[i].StoreOp? :: ops[i].now <= time
    ensures forall x | x in EntriesOf(Run(limits, ops), name) :: EntriesOf(Run(limits, ops), name)[x].created <= time
  {
    EntriesAreLatest(limits, ops);
    forall x | x in EntriesOf(Run(limits, ops), name) ensures EntriesOf(Run(limits, ops), name)[x].created <= time {
      assert Logged(limits, ops, name, Run(limits, ops).sessions[name].entries);
      LatestBefore(limits, ops, name, x, time);
    }
  }

  lemma {:induction false} LatestBefore(limits: Limits, ops: seq<Op>, name: string, id: string, time: nat)
    requires (forall i | 0 <= i < |ops| && ops[i].StoreOp? :: ops[i].now <= time) && Latest(limits, ops, name, id).Some?
    ensures Latest(limits, ops, name, id).value.created <= time
  {
    var op := ops[|ops| - 1];
    if !(op.name == name && op.StoreOp? && Accepted(op.ids, op.reasoning, limits) && id in op.ids) {
      LatestBefore(limits, ops[..|ops| - 1], name, id, time);
    }
  }

  /** A store after which everything is harmless makes all entries alike. */
  lemma StoreAlike(limits: Limits, s: Store, op: Op)
    requires Valid(s) && Alone(s, op.name) && op.StoreOp?
    requires forall x | x in EntriesOf(s, op.name) :: EntriesOf(s, op.name)[x].created <= op.now
    requires Alike(EntriesOf(s, op.name))
    requires Harmless(EntriesOf(Applied(s, limits, op), op.name), EntriesOf(Applied(EMPTY, limits, op), op.name))
    ensures Alike(EntriesOf(Applied(s, limits, op), op.name))
  {
    if Accepted(op.ids, op.reasoning, limits) && op.name in Applied(s, limits, op).sessions {
      KeptIsGrown(s, limits, op);
      NothingKept(op.name);
      RoomyGrows(EMPTY, limits, op);
      hide Applied, Valid, Alone, Bytes, InsertAll, Alike, Harmless;
      GrownAlike(EntriesOf(s, op.name), op);
    } else {
      RefusedOrGone(s, limits, op);
    }
  }

  lemma NothingKept(name: string)
    ensures Valid(EMPTY) && Alone(EMPTY, name) && SessionOf(EMPTY, name) == Session(map[], 0)
  {
  }

  lemma RefusedOrGone(s: Store, limits: Limits, op: Op)
    requires op.StoreOp? && Alike(EntriesOf(s, op.name))
    requires !Accepted(op.ids, op.reasoning, limits) || op.name !in Applied(s, limits, op).sessions
    ensures Alike(EntriesOf(Applied(s, limits, op), op.name))
  {
    hide Enforced, Inserted;
  }

  /** New entries of another text or time among older ones of one kind do harm when all else is forgotten. */
  lemma GrownAlike(was: map<string, Entry>, op: Op)
    requires op.StoreOp? && op.ids != [] && forall x | x in was :: was[x].created <= op.now
    requires var e := Entry(op.reasoning, op.now); Harmless(InsertAll(was, op.ids, e), InsertAll(map[], op.ids, e))
    ensures Alike(InsertAll(was, op.ids, Entry(op.reasoning, op.now)))
  {
    var e := Entry(op.reasoning, op.now);
    var all, id := InsertAll(was, op.ids, e), op.ids[0];
    InsertAllAt(map[], op.ids, e, id);
    assert id in op.ids;
    hide InsertAll, Alike;
    forall x | x in all ensures all[x] == e {
      InsertAllAt(was, op.ids, e, x);
      InsertAllAt(map[], op.ids, e, x);
    }
    AllSame(all, e);
  }

  lemma AllSame(entries: map<string, Entry>, e: Entry)
    requires forall x | x in entries :: entries[x] == e
    ensures Alike(entries)
  {
  }

  lemma FewerAlike(limits: Limits, s: Store, op: Op)
    requires !op.StoreOp? && Alike(EntriesOf(s, op.name))
    ensures Alike(EntriesOf(Applied(s, limits, op), op.name))
  {
  }

  lemma {:induction false} AlikeUpTo(limits: Limits, own: seq<Op>, name: string, n: nat)
    requires Own(own, name) && OnTime(own) && NeverDiverges(limits, own, name) && n <= |own|
    ensures Alike(EntriesOf(Run(limits, own[..n]), name))
    decreases n
  {
    if n == 0 {
      assert own[..n] == [];
    } else {
      var op := own[n - 1];
      AlikeUpTo(limits, own, name, n - 1);
      assert own[..n] == own[..n - 1] + [op] && own[n - 1..n] == [] + [op] && op.name == name && Own(own[..n - 1], name);
      assert Harmless(EntriesOf(Run(limits, own[..n]), name), EntriesOf(Run(limits, own[n - 1..n]), name));
      if op.StoreOp? {
        CreatedBefore(limits, own[..n - 1], name, op.now);
      }
      hide *;
      RunOneMore(limits, own[..n - 1], op);
      RunOneMore(limits, [], op);
      RunNone(limits);
      RunKeeps(limits, own[..n - 1]);
      OwnRunIsLone(limits, own[..n - 1], name);
      if op.StoreOp? {
        StoreAlike(limits, Run(limits, own[..n - 1]), op);
      } else {
        FewerAlike(limits, Run(limits, own[..n - 1]), op);
      }
    }
  }

  lemma AlikeIsHarmless(f: Store, o: Store, name: string)
    requires Within(f, o, name) && Alike(EntriesOf(o, name))
    ensures Harmless(EntriesOf(o, name), EntriesOf(f, name))
  {
  }

  /**
   When the session's stores come in order of time, others only ever turn hits into misses, whatever ids are looked up,
   if and only if the session never crowds its own store and never holds two different entries at once.
   */
  lemma OnTimeExactlyWhen(limits: Limits, own: seq<Op>, name: string)
    requires Own(own, name) && OnTime(own)
    ensures OthersNeverHelp(limits, own, name) <==> NeverCrowds(limits, own) && NeverMixed(limits, own, name)
  {
    OthersNeverHelpExactlyWhen(limits, own, name);
    hide OthersNeverHelp, Run, Own, OnTime, NeverCrowds, Harmless, Alike;
    if NeverDiverges(limits, own, name) {
      forall n: nat | n <= |own| ensures Alike(EntriesOf(Run(limits, own[..n]), name)) {
        AlikeUpTo(limits, own, name, n);
      }
    }
    if NeverCrowds(limits, own) && NeverMixed(limits, own, name) {
      forall n: nat, c: nat | c <= n <= |own|
        ensures Harmless(EntriesOf(Run(limits, own[..n]), name), EntriesOf(Run(limits, own[c..n]), name))
      {
        FreshWithin(limits, own, name, c, n);
        AlikeIsHarmless(Run(limits, own[c..n]), Run(limits, own[..n]), name);
      }
    }
  }

  // ---- a run on which they differ ----

  const ROOMY: Limits := Limits(1, 100, 10, 10)
  const FIRST: Op := StoreOp("a", ["1"], "x", 0)
  const SECOND: Op := StoreOp("a", ["2"], "y", 0)

  lemma RoomySteps()
    ensures Fits(ROOMY, FIRST) && Fits(ROOMY, SECOND)
    ensures var s := Applied(EMPTY, ROOMY, FIRST);
            && s == Store(map["a" := Session(map["1" := Entry("x", 0)], 1)], ["a"], 1)
            && EntriesOf(Applied(s, ROOMY, SECOND), "a") == map["1" := Entry("x", 0), "2" := Entry("y", 0)]
            && EntriesOf(Applied(EMPTY, ROOMY, SECOND), "a") == map["2" := Entry("y", 0)]
            && !Crowds(ROOMY, EMPTY, FIRST) && !Crowds(ROOMY, s, SECOND)
  {
    OneByte("x");
    OneByte("y");
    assert Valid(EMPTY) && Alone(EMPTY, "a");
    RoomyStays(EMPTY, ROOMY, FIRST);
    RoomyStays(EMPTY, ROOMY, SECOND);
    OneInserted(map[], "1", Entry("x", 0));
    OneInserted(map[], "2", Entry("y", 0));
    var s := Applied(EMPTY, ROOMY, FIRST);
    assert [] + ["a"] == ["a"];
    AppliedKeeps(EMPTY, ROOMY, FIRST);
    RoomyStays(s, ROOMY, SECOND);
    OneInserted(map["1" := Entry("x", 0)], "2", Entry("y", 0));
    hide Valid, Bytes, InsertAll, Stored;
  }

  lemma OneByte(text: string)
    requires |text| == 1 && text[0] < '\U{80}'
    ensures Bytes(text) == 1
  {
    assert text[..0] == "";
  }

  /** The lists of the example, taken apart. */
  lemma RoomyLists()
    ensures var own := [FIRST, SECOND];
            && Own(own, "a") && own[..0] == [] && own[..1] == [FIRST] && own[1..] == [SECOND]
            && [] + [FIRST] == [FIRST] && [] + [SECOND] == [SECOND]
    ensures FIRST.name == "a" && SECOND.StoreOp? && SECOND.now == 0
  {
    hide Filler;
  }

  lemma RoomyRuns()
    ensures Run(ROOMY, []) == EMPTY && Run(ROOMY, [FIRST]) == Applied(EMPTY, ROOMY, FIRST)
    ensures Run(ROOMY, [SECOND]) == Applied(EMPTY, ROOMY, SECOND)
    ensures Run(ROOMY, [FIRST, SECOND]) == Applied(Applied(EMPTY, ROOMY, FIRST), ROOMY, SECOND)
  {
    hide *;
    RoomyLists();
    RunNone(ROOMY);
    RunOneMore(ROOMY, [], FIRST);
    RunOneMore(ROOMY, [], SECOND);
    RunTwo(ROOMY, FIRST, SECOND);
  }

  lemma RoomyNeverCrowds()
    ensures NeverCrowds(ROOMY, [FIRST, SECOND])
  {
    RoomyLists();
    RoomyRuns();
    RoomySteps();
    hide Run, Applied, Crowds, Fits, Own;
    var own := [FIRST, SECOND];
    forall i | 0 <= i < |own| ensures !Crowds(ROOMY, Run(ROOMY, own[..i]), own[i]) {
      assert i == 0 || i == 1;
    }
  }

  /**
   Two stores that fit together, and a lookup of both ids: alone the session finds the first text; with a neighbour in
   between it finds the second, though it never crowds its store.
   */
  lemma TwoIdsDisagree()
    ensures var own := [FIRST, SECOND]; var ops := [FIRST, Filler(ROOMY, "a", 0), SECOND];
            && NeverCrowds(ROOMY, own) && OwnOps(ops, "a") == own
            && Hit(Run(ROOMY, own), ROOMY, "a", ["1", "2"], 0) == Some("x")
            && Hit(Run(ROOMY, ops), ROOMY, "a", ["1", "2"], 0) == Some("y")
  {
    hide *;
    var own := [FIRST, SECOND];
    RoomyNeverCrowds();
    RoomyLists();
    RoomyRuns();
    RoomySteps();
    InterruptedForgets(ROOMY, own, "a", 1);
    InterruptedIs(ROOMY, own, "a", 1);
    assert own[1] == SECOND;
    assert [FIRST] + [Filler(ROOMY, "a", 0)] + [SECOND] == [FIRST, Filler(ROOMY, "a", 0), SECOND];
    FindsFirst(Run(ROOMY, own), Run(ROOMY, [SECOND]));
  }

  lemma FindsFirst(o: Store, f: Store)
    requires EntriesOf(o, "a") == map["1" := Entry("x", 0), "2" := Entry("y", 0)] && EntriesOf(f, "a") == map["2" := Entry("y", 0)]
    ensures Hit(o, ROOMY, "a", ["1", "2"], 0) == Some("x") && Hit(f, ROOMY, "a", ["1", "2"], 0) == Some("y")
  {
    var few, many := EntriesOf(f, "a"), EntriesOf(o, "a");
    assert "1"[0] != "2"[0] && ["1", "2"][1..] == ["2"];
    assert "1" !in few && "2" in few && "1" in many;
    assert FirstHeld(few, ["2"]) == Some("2");
    assert FirstHeld(few, ["1", "2"]) == Some("2") && FirstHeld(many, ["1", "2"]) == Some("1");
    assert !Expired(Entry("x", 0), 0, ROOMY.ttl) && !Expired(Entry("y", 0), 0, ROOMY.ttl);
    hide FirstHeld;
  }
}
