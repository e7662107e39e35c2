/**
 The sticky pool of upstream keys: which key a request gets, how a confirmed rate limit moves the active role,
 single-flight probing of keys whose cooldown has passed, and what survives a restart. Time is one clock, in
 nanoseconds since the Unix epoch; each operation is one step.
 */
module KeyPools {
  import opened Prelude

  const NANOS_PER_MS: nat := 1_000_000
  const MAX_COOLDOWN: nat := 366 * 24 * 60 * 60 * 1_000_000_000

  /** `until` is the deadline selection looks at, `untilWall` the one that is persisted. */
  datatype Key = Key(name: string, until: Option<nat>, untilWall: Option<nat>, probing: bool)

  datatype Phase = Healthy | Cooling | HalfOpen | Probing

  datatype Pool = Pool(keys: seq<Key>, active: nat, now: nat)

  datatype Grant = Grant(index: nat, isProbe: bool)

  predicate Valid(p: Pool) {
    p.active < |p.keys| || (p.keys == [] && p.active == 0)
  }

  predicate IsCooling(key: Key, now: nat) {
    key.until.Some? && key.until.value > now
  }

  function PhaseOf(key: Key, now: nat): Phase {
    if key.until.None? then Healthy
    else if key.until.value > now then Cooling
    else if key.probing then Probing
    else HalfOpen
  }

  // ---- selection ----

  function IndexAt(p: Pool, offset: nat): (i: nat)
    requires p.keys != []
    ensures i < |p.keys|
  {
    (p.active + offset) % |p.keys|
  }

  predicate Usable(p: Pool, i: nat, attempted: set<nat>, allowProbed: bool) {
    && i < |p.keys| && i !in attempted && !IsCooling(p.keys[i], p.now)
    && (p.keys[i].until.None? || !p.keys[i].probing || allowProbed)
  }

  /** The first usable key in configured order from the active one on, skipping `offset` keys. */
  function FirstUsable(p: Pool, attempted: set<nat>, allowProbed: bool, offset: nat): (r: Option<nat>)
    ensures r.Some? ==> Usable(p, r.value, attempted, allowProbed)
    decreases |p.keys| - offset
  {
    if offset >= |p.keys| then None
    else if Usable(p, IndexAt(p, offset), attempted, allowProbed) then Some(IndexAt(p, offset))
    else FirstUsable(p, attempted, allowProbed, offset + 1)
  }

  function Choice(p: Pool, attempted: set<nat>): (r: Option<nat>)
    ensures r.Some? ==> r.value < |p.keys|
  {
    var first := FirstUsable(p, attempted, false, 0);
    if first.Some? then first else FirstUsable(p, attempted, true, 0)
  }

  predicate NeedsProbe(key: Key) {
    key.until.Some? && !key.probing
  }

  function Granted(p: Pool, attempted: set<nat>): (r: Option<Grant>)
    ensures r.Some? ==> r.value.index < |p.keys|
  {
    var i := Choice(p, attempted);
    if i.None? then None else Some(Grant(i.value, NeedsProbe(p.keys[i.value])))
  }

  /** The pool once key `i` is granted. */
  function Taken(p: Pool, i: nat): Pool
    requires i < |p.keys|
  {
    p.(keys := if NeedsProbe(p.keys[i]) then p.keys[i := p.keys[i].(probing := true)] else p.keys, active := i)
  }

  function AfterSelect(p: Pool, attempted: set<nat>): Pool {
    var i := Choice(p, attempted);
    if i.None? then p else Taken(p, i.value)
  }

  // ---- verdicts ----

  predicate CanAdvanceTo(p: Pool, i: nat) {
    i < |p.keys| && !IsCooling(p.keys[i], p.now) && !p.keys[i].probing
  }

  /** The first key after the rejected one that is neither cooling nor being probed. */
  function FirstAdvance(p: Pool, offset: nat): (r: Option<nat>)
    ensures r.Some? ==> CanAdvanceTo(p, r.value)
    decreases |p.keys| - offset
  {
    if offset >= |p.keys| then None
    else if CanAdvanceTo(p, IndexAt(p, offset)) then Some(IndexAt(p, offset))
    else FirstAdvance(p, offset + 1)
  }

  function Capped(cooldown: nat): (c: nat)
    ensures c <= cooldown && c <= MAX_COOLDOWN
  {
    if cooldown < MAX_COOLDOWN then cooldown else MAX_COOLDOWN
  }

  function Limited(p: Pool, i: nat, cooldown: nat): Pool
    requires i < |p.keys|
  {
    var deadline := Some(p.now + Capped(cooldown));
    p.(keys := p.keys[i := p.keys[i].(until := deadline, untilWall := deadline, probing := false)])
  }

  function Advanced(p: Pool, rejected: nat): Pool {
    if p.keys == [] || p.active != rejected then p
    else p.(active := FirstAdvance(p, 1).GetOr(p.active))
  }

  function AfterLimit(p: Pool, i: nat, cooldown: nat): Pool {
    if i < |p.keys| then Advanced(Limited(p, i, cooldown), i) else p
  }

  function AfterSuccess(p: Pool, i: nat): Pool {
    if i < |p.keys| then p.(keys := p.keys[i := p.keys[i].(until := None, untilWall := None, probing := false)]) else p
  }

  function AfterRelease(p: Pool, i: nat): Pool {
    if i < |p.keys| then p.(keys := p.keys[i := p.keys[i].(probing := false)]) else p
  }

  // ---- runs ----

  datatype Event =
    | Select(attempted: set<nat>)
    | MarkHttp429(index: nat, cooldown: nat)
    | MarkSuccess(index: nat)
    | ReleaseProbe(index: nat)
    | Tick(nanos: nat)

  function Step(p: Pool, e: Event): Pool {
    match e
    case Select(attempted) => AfterSelect(p, attempted)
    case MarkHttp429(i, cooldown) => AfterLimit(p, i, cooldown)
    case MarkSuccess(i) => AfterSuccess(p, i)
    case ReleaseProbe(i) => AfterRelease(p, i)
    case Tick(nanos) => p.(now := p.now + nanos)
  }

  function Run(p: Pool, events: seq<Event>): Pool {
    if events == [] then p else Step(Run(p, events[..|events| - 1]), events[|events| - 1])
  }

  /** The events that clear a key's probe flag. */
  predicate Clears(e: Event, k: nat) {
    match e
    case MarkHttp429(i, _) => i == k
    case MarkSuccess(i) => i == k
    case ReleaseProbe(i) => i == k
    case _ => false
  }

  predicate Probes(p: Pool, e: Event, k: nat) {
    e.Select? && Granted(p, e.attempted) == Some(Grant(k, true))
  }

  // ---- which key a request gets ----

  lemma {:induction false} FirstUsableMeans(p: Pool, attempted: set<nat>, allowProbed: bool, offset: nat)
    ensures var r := FirstUsable(p, attempted, allowProbed, offset);
            if r.None? then forall o | offset <= o < |p.keys| :: !Usable(p, IndexAt(p, o), attempted, allowProbed)
            else exists o :: offset <= o < |p.keys| && r.value == IndexAt(p, o) && Usable(p, r.value, attempted, allowProbed)
                             && forall q | offset <= q < o :: !Usable(p, IndexAt(p, q), attempted, allowProbed)
    decreases |p.keys| - offset
  {
    if offset < |p.keys| {
      if !Usable(p, IndexAt(p, offset), attempted, allowProbed) {
        FirstUsableMeans(p, attempted, allowProbed, offset + 1);
      }
    }
  }

  lemma IndexIs(p: Pool, o: nat)
    requires Valid(p) && o < |p.keys|
    ensures IndexAt(p, o) == if p.active + o < |p.keys| then p.active + o else p.active + o - |p.keys|
  {
    Wraps(p.active + o, |p.keys|);
  }

  lemma Wraps(x: nat, n: nat)
    requires 0 < n && x < 2 * n
    ensures x % n == if x < n then x else x - n
  {
    if x >= n {
      assert x == n + (x - n) && 0 <= x - n < n;
    }
  }

  /** Every key is some offset from the active one. */
  lemma Offset(p: Pool, i: nat) returns (o: nat)
    requires Valid(p) && i < |p.keys|
    ensures o < |p.keys| && IndexAt(p, o) == i
    ensures o == if i >= p.active then i - p.active else i + |p.keys| - p.active
  {
    hide IndexAt;
    o := if i >= p.active then i - p.active else i + |p.keys| - p.active;
    IndexIs(p, o);
  }

  /** Going through the keys in configured order from key `start` on, and round once, key `i` comes before key `g`. */
  predicate ComesBefore(start: nat, i: nat, g: nat) {
    if start <= g then start <= i < g else start <= i || i < g
  }

  /** That order is the order of offsets. */
  lemma OffsetsInOrder(p: Pool, o: nat, i: nat) returns (q: nat)
    requires Valid(p) && o < |p.keys| && i < |p.keys| && ComesBefore(p.active, i, IndexAt(p, o))
    ensures q < o && IndexAt(p, q) == i && (i != p.active ==> q > 0)
  {
    hide IndexAt;
    IndexIs(p, o);
    q := Offset(p, i);
  }

  /** Selection is empty exactly when every key not yet attempted is cooling. */
  lemma EmptyExactlyWhenCooling(p: Pool, attempted: set<nat>)
    requires Valid(p)
    ensures Granted(p, attempted).None? <==> forall i | 0 <= i < |p.keys| && i !in attempted :: IsCooling(p.keys[i], p.now)
  {
    FirstUsableMeans(p, attempted, false, 0);
    FirstUsableMeans(p, attempted, true, 0);
    if Granted(p, attempted).None? {
      forall i | 0 <= i < |p.keys| && i !in attempted ensures IsCooling(p.keys[i], p.now) {
        var o := Offset(p, i);
        assert !Usable(p, IndexAt(p, o), attempted, true);
      }
    }
  }

  /**
   What is granted: a key that was not attempted and is not cooling; a key already being probed only if no other
   usable key exists; no key between the active one and it in configured order would have done.
   */
  lemma GrantMeans(p: Pool, attempted: set<nat>)
    requires Valid(p) && Granted(p, attempted).Some?
    ensures var g := Granted(p, attempted).value; var shared := PhaseOf(p.keys[g.index], p.now) == Probing;
            && g.index < |p.keys| && g.index !in attempted
            && PhaseOf(p.keys[g.index], p.now) != Cooling
            && (g.isProbe <==> PhaseOf(p.keys[g.index], p.now) == HalfOpen)
            && (shared ==> forall i | 0 <= i < |p.keys| && i !in attempted :: PhaseOf(p.keys[i], p.now) in {Cooling, Probing})
            && (forall i: nat | i < |p.keys| && ComesBefore(p.active, i, g.index) ::
                  i in attempted || PhaseOf(p.keys[i], p.now) == Cooling || (PhaseOf(p.keys[i], p.now) == Probing && !shared))
  {
    FirstUsableMeans(p, attempted, false, 0);
    FirstUsableMeans(p, attempted, true, 0);
    if FirstUsable(p, attempted, false, 0).None? {
      forall i | 0 <= i < |p.keys| && i !in attempted ensures PhaseOf(p.keys[i], p.now) in {Cooling, Probing} {
        var o := Offset(p, i);
        assert !Usable(p, IndexAt(p, o), attempted, false);
      }
    }
    FirstIsNext(p, attempted, FirstUsable(p, attempted, false, 0).None?);
  }

  lemma FirstIsNext(p: Pool, attempted: set<nat>, allowProbed: bool)
    requires Valid(p)
    ensures var r := FirstUsable(p, attempted, allowProbed, 0);
            r.Some? ==> forall i: nat | i < |p.keys| && ComesBefore(p.active, i, r.value) :: !Usable(p, i, attempted, allowProbed)
  {
    FirstUsableMeans(p, attempted, allowProbed, 0);
    var r := FirstUsable(p, attempted, allowProbed, 0);
    hide FirstUsable, Usable;
    if r.Some? {
      var o :| 0 <= o < |p.keys| && r.value == IndexAt(p, o) && forall q | 0 <= q < o :: !Usable(p, IndexAt(p, q), attempted, allowProbed);
      forall i: nat | i < |p.keys| && ComesBefore(p.active, i, r.value) ensures !Usable(p, i, attempted, allowProbed) {
        var q := OffsetsInOrder(p, o, i);
        hide IndexAt;
      }
    }
  }

  /** Nothing about the other keys changes. */
  predicate OthersSame(p: Pool, q: Pool, i: nat) {
    |q.keys| == |p.keys| && forall j | 0 <= j < |p.keys| && j != i :: q.keys[j] == p.keys[j]
  }

  /** A selection that grants a key makes it the active one, and sets its flag if it is to be probed; nothing else changes. */
  lemma SelectMeans(p: Pool, attempted: set<nat>)
    requires Valid(p)
    ensures var q := AfterSelect(p, attempted);
            && q.now == p.now && |q.keys| == |p.keys| && (Granted(p, attempted).None? ==> q == p)
            && (Granted(p, attempted).Some? ==>
                  var g := Granted(p, attempted).value;
                  && g.index < |p.keys| && q.active == g.index && OthersSame(p, q, g.index)
                  && q.keys[g.index] == p.keys[g.index].(probing := q.keys[g.index].probing)
                  && q.keys[g.index].probing == (p.keys[g.index].probing || g.isProbe))
  {
    hide Choice;
  }

  // ---- the active role ----

  lemma StepKeepsShape(p: Pool, e: Event)
    requires Valid(p)
    ensures Valid(Step(p, e)) && |Step(p, e).keys| == |p.keys| && Step(p, e).now >= p.now
    ensures forall i | 0 <= i < |p.keys| :: Step(p, e).keys[i].name == p.keys[i].name
  {
    if e.MarkHttp429? && e.index < |p.keys| {
      AdvanceMeans(Limited(p, e.index, e.cooldown), 1);
    } else if e.Select? && Granted(p, e.attempted).Some? {
      GrantMeans(p, e.attempted);
    }
  }

  lemma {:induction false} AdvanceMeans(p: Pool, offset: nat)
    ensures var r := FirstAdvance(p, offset);
            if r.None? then forall o | offset <= o < |p.keys| :: !CanAdvanceTo(p, IndexAt(p, o))
            else exists o :: offset <= o < |p.keys| && r.value == IndexAt(p, o) && CanAdvanceTo(p, r.value)
                             && forall q | offset <= q < o :: !CanAdvanceTo(p, IndexAt(p, q))
    decreases |p.keys| - offset
  {
    if offset < |p.keys| {
      if !CanAdvanceTo(p, IndexAt(p, offset)) {
        AdvanceMeans(p, offset + 1);
      }
    }
  }

  lemma ActiveFirst(p: Pool, attempted: set<nat>)
    requires Valid(p) && p.keys != [] && Usable(p, p.active, attempted, false)
    ensures Choice(p, attempted) == Some(p.active)
  {
    assert IndexAt(p, 0) == p.active;
  }

  /** The active role leaves a key only on its own rate limit, or when a selection could not use that key. */
  lemma ActiveMovesOnlyWhen(p: Pool, e: Event)
    requires Valid(p) && Step(p, e).active != p.active
    ensures (e.MarkHttp429? && e.index == p.active)
         || (e.Select? && (p.active in e.attempted || PhaseOf(p.keys[p.active], p.now) in {Cooling, Probing}))
  {
    hide FirstUsable, FirstAdvance;
    if e.Select? {
      if Usable(p, p.active, e.attempted, false) {
        ActiveFirst(p, e.attempted);
      }
    }
  }

  /** A request that has tried nothing yet gets the active key whenever that key is healthy, and leaves it active. */
  lemma FreshRequestSticks(p: Pool)
    requires Valid(p) && p.keys != [] && PhaseOf(p.keys[p.active], p.now) == Healthy
    ensures Granted(p, {}) == Some(Grant(p.active, false)) && AfterSelect(p, {}) == p
  {
    assert IndexAt(p, 0) == p.active;
  }

  /** A key the active role cannot go to: cooling, or being probed. */
  predicate Busy(key: Key, now: nat) {
    PhaseOf(key, now) == Cooling || key.probing
  }

  /** From the active key the role went to the next one in configured order that is not busy, or stayed for want of one. */
  predicate AdvancedFrom(p: Pool, active: nat) {
    && active < |p.keys|
    && (active == p.active ==> forall i: nat | i < |p.keys| && i != p.active :: Busy(p.keys[i], p.now))
    && (active != p.active ==>
          && !Busy(p.keys[active], p.now)
          && forall i: nat | i < |p.keys| && i != p.active && ComesBefore(p.active, i, active) :: Busy(p.keys[i], p.now))
  }

  lemma AdvanceFromRejected(p: Pool)
    requires Valid(p) && p.keys != []
    ensures AdvancedFrom(p, FirstAdvance(p, 1).GetOr(p.active))
  {
    AdvanceMeans(p, 1);
    var r := FirstAdvance(p, 1);
    assert forall i: nat | i < |p.keys| :: CanAdvanceTo(p, i) <==> !Busy(p.keys[i], p.now);
    hide CanAdvanceTo, FirstAdvance, Busy;
    if r.None? {
      forall i: nat | i < |p.keys| && i != p.active ensures Busy(p.keys[i], p.now) {
        var o := Offset(p, i);
        assert o > 0 by { ZeroOffset(p); }
      }
    } else {
      var o :| 1 <= o < |p.keys| && r.value == IndexAt(p, o) && CanAdvanceTo(p, r.value) && forall q | 1 <= q < o :: !CanAdvanceTo(p, IndexAt(p, q));
      NotBack(p, o);
      forall i: nat | i < |p.keys| && i != p.active && ComesBefore(p.active, i, r.value) ensures Busy(p.keys[i], p.now) {
        var q := OffsetsInOrder(p, o, i);
        hide IndexAt;
      }
    }
  }

  lemma ZeroOffset(p: Pool)
    requires Valid(p) && p.keys != []
    ensures IndexAt(p, 0) == p.active
  {
  }

  lemma NotBack(p: Pool, o: nat)
    requires Valid(p) && 0 < o < |p.keys|
    ensures IndexAt(p, o) != p.active
  {
    hide IndexAt;
    IndexIs(p, o);
  }

  /**
   A confirmed rate limit makes its key cooling for exactly the cooldown, at most 366 days, and no longer probed; no
   other key changes; the active role moves on only if it was on that key.
   */
  lemma LimitMeans(p: Pool, i: nat, cooldown: nat, later: nat)
    requires Valid(p) && i < |p.keys|
    ensures var q := AfterLimit(p, i, cooldown);
            && OthersSame(p, q, i) && !q.keys[i].probing
            && (PhaseOf(q.keys[i], later) == Cooling <==> later < p.now + cooldown && later < p.now + MAX_COOLDOWN)
            && PhaseOf(q.keys[i], later) in {Cooling, HalfOpen}
    ensures var l := Limited(p, i, cooldown);
            if p.active == i then AdvancedFrom(l, AfterLimit(p, i, cooldown).active)
            else AfterLimit(p, i, cooldown).active == p.active
  {
    if p.active == i {
      AdvanceFromRejected(Limited(p, i, cooldown));
    }
    hide FirstAdvance, CanAdvanceTo, AdvancedFrom;
  }

  /** A success makes its key healthy for good and a release only clears the flag; neither touches another key or the role. */
  lemma VerdictsMean(p: Pool, i: nat, later: nat)
    requires i < |p.keys|
    ensures var s := AfterSuccess(p, i); OthersSame(p, s, i) && PhaseOf(s.keys[i], later) == Healthy && s.active == p.active
    ensures var r := AfterRelease(p, i);
            && OthersSame(p, r, i) && r.active == p.active && r.keys[i].until == p.keys[i].until
            && PhaseOf(r.keys[i], later) == if PhaseOf(p.keys[i], later) == Probing then HalfOpen else PhaseOf(p.keys[i], later)
  {
  }

  // ---- what every run keeps ----

  lemma {:induction false} RunKeepsShape(p: Pool, events: seq<Event>)
    requires Valid(p)
    ensures Valid(Run(p, events)) && |Run(p, events).keys| == |p.keys|
    ensures forall i | 0 <= i < |p.keys| :: Run(p, events).keys[i].name == p.keys[i].name
  {
    if events != [] {
      RunKeepsShape(p, events[..|events| - 1]);
      StepKeepsShape(Run(p, events[..|events| - 1]), events[|events| - 1]);
    }
  }

  lemma RunOneMore(p: Pool, events: seq<Event>, n: nat)
    requires n < |events|
    ensures Run(p, events[..n + 1]) == Step(Run(p, events[..n]), events[n])
  {
    assert events[..n + 1][..n] == events[..n];
  }

  lemma {:induction false} RunConcat(p: Pool, a: seq<Event>, b: seq<Event>)
    ensures Run(p, a + b) == Run(Run(p, a), b)
    decreases |b|
  {
    if b == [] {
      assert a + b == a;
    } else {
      RunConcat(p, a, b[..|b| - 1]);
      assert (a + b)[..|a + b| - 1] == a + b[..|b| - 1];
    }
  }

  lemma StepLeavesHealthy(p: Pool, e: Event, k: nat)
    requires Valid(p) && k < |p.keys| && p.keys[k].until.None? && !(e.MarkHttp429? && e.index == k)
    ensures k < |Step(p, e).keys| && Step(p, e).keys[k].until.None?
  {
    StepKeepsShape(p, e);
  }

  /** In every run, a healthy key stops being healthy only by a confirmed rate limit of its own. */
  lemma {:induction false} HealthyUntilLimited(p: Pool, events: seq<Event>, k: nat)
    requires Valid(p) && k < |p.keys| && p.keys[k].until.None?
    requires k < |Run(p, events).keys| && Run(p, events).keys[k].until.Some?
    ensures exists j :: 0 <= j < |events| && events[j].MarkHttp429? && events[j].index == k
  {
    var n := |events| - 1;
    RunKeepsShape(p, events[..n]);
    if Run(p, events[..n]).keys[k].until.Some? {
      HealthyUntilLimited(p, events[..n], k);
      var j :| 0 <= j < n && events[..n][j].MarkHttp429? && events[..n][j].index == k;
      assert events[j] == events[..n][j];
    } else if !(events[n].MarkHttp429? && events[n].index == k) {
      StepLeavesHealthy(Run(p, events[..n]), events[n], k);
    }
  }

  lemma StepKeepsFlag(p: Pool, e: Event, k: nat)
    requires Valid(p) && k < |p.keys| && p.keys[k].probing && !Clears(e, k)
    ensures k < |Step(p, e).keys| && Step(p, e).keys[k].probing
  {
    StepKeepsShape(p, e);
  }

  lemma {:induction false} FlagStays(p: Pool, events: seq<Event>, k: nat)
    requires Valid(p) && k < |p.keys| && p.keys[k].probing
    requires forall j | 0 <= j < |events| :: !Clears(events[j], k)
    ensures k < |Run(p, events).keys| && Run(p, events).keys[k].probing
  {
    if events != [] {
      var n := |events| - 1;
      FlagStays(p, events[..n], k);
      RunKeepsShape(p, events[..n]);
      StepKeepsFlag(Run(p, events[..n]), events[n], k);
    }
  }

  lemma ProbeSetsFlag(p: Pool, e: Event, k: nat)
    requires Valid(p) && Probes(p, e, k)
    ensures k < |p.keys| && !p.keys[k].probing && Valid(Step(p, e)) && k < |Step(p, e).keys| && Step(p, e).keys[k].probing
  {
    GrantMeans(p, e.attempted);
    StepKeepsShape(p, e);
  }

  lemma ProbeStaysUntilCleared(p: Pool, first: seq<Event>, between: seq<Event>, last: Event, k: nat)
    requires Valid(p) && first != [] && Probes(Run(p, first[..|first| - 1]), first[|first| - 1], k)
    requires Probes(Run(p, first + between), last, k)
    ensures exists j :: 0 <= j < |between| && Clears(between[j], k)
  {
    hide Probes, Step, Clears;
    RunKeepsShape(p, first[..|first| - 1]);
    ProbeSetsFlag(Run(p, first[..|first| - 1]), first[|first| - 1], k);
    RunConcat(p, first, between);
    RunKeepsShape(p, first + between);
    ProbeSetsFlag(Run(p, first + between), last, k);
    if forall j | 0 <= j < |between| :: !Clears(between[j], k) {
      FlagStays(Run(p, first), between, k);
    }
  }

  /** The event at `i` in the run grants the probe of key `k`. */
  predicate ProbedAt(p: Pool, events: seq<Event>, i: nat, k: nat) {
    i < |events| && Probes(Run(p, events[..i]), events[i], k)
  }

  /** Something from `a` to before `b` clears the key's flag. */
  predicate ClearedWithin(events: seq<Event>, a: nat, b: nat, k: nat) {
    exists c | a <= c < b && c < |events| :: Clears(events[c], k)
  }

  /** In every run, two probe grants on one key are separated by an event that cleared its flag. */
  lemma ProbesAreSeparated(p: Pool, events: seq<Event>, a: nat, b: nat, k: nat)
    requires Valid(p) && a < b && ProbedAt(p, events, a, k) && ProbedAt(p, events, b, k)
    ensures ClearedWithin(events, a + 1, b, k)
  {
    assert b < |events|;
    ProbedSplit(p, events, a, b, k);
    hide *;
    var between := events[a + 1..b];
    ProbeStaysUntilCleared(p, events[..a + 1], between, events[b], k);
    ClearedInside(events, a + 1, b, k);
  }

  lemma ClearedInside(events: seq<Event>, a: nat, b: nat, k: nat)
    requires a <= b <= |events| && exists j :: 0 <= j < |events[a..b]| && Clears(events[a..b][j], k)
    ensures ClearedWithin(events, a, b, k)
  {
    hide Clears;
    var j :| 0 <= j < |events[a..b]| && Clears(events[a..b][j], k);
    assert events[a + j] == events[a..b][j];
  }

  lemma ProbedSplit(p: Pool, events: seq<Event>, a: nat, b: nat, k: nat)
    requires a < b < |events| && ProbedAt(p, events, a, k) && ProbedAt(p, events, b, k)
    ensures var first, between := events[..a + 1], events[a + 1..b];
            && Probes(Run(p, first[..|first| - 1]), first[|first| - 1], k)
            && Probes(Run(p, first + between), events[b], k)
  {
    hide Probes, Run;
    assert events[..a + 1][..a] == events[..a] && events[..a + 1] + events[a + 1..b] == events[..b];
  }

  // ---- outstanding probes ----

  /** An event and the request that performs it. */
  datatype Act = Act(who: nat, event: Event)

  function Events(acts: seq<Act>): (r: seq<Event>)
    ensures |r| == |acts| && forall i | 0 <= i < |r| :: r[i] == acts[i].event
  {
    seq(|acts|, i requires 0 <= i < |acts| => acts[i].event)
  }

  function RunActs(p: Pool, acts: seq<Act>): Pool {
    if acts == [] then p else Step(RunActs(p, acts[..|acts| - 1]), acts[|acts| - 1].event)
  }

  /** The requests granted the probe of key `k` that have not cleared its flag since. */
  function Holders(p: Pool, acts: seq<Act>, k: nat): set<nat> {
    if acts == [] then {}
    else
      var before, last := acts[..|acts| - 1], acts[|acts| - 1];
      var held := Holders(p, before, k);
      if Probes(RunActs(p, before), last.event, k) then held + {last.who}
      else if Clears(last.event, k) then held - {last.who}
      else held
  }

  /** A request clears a key's flag only while it holds the probe itself, or while nobody does. */
  predicate Owned(p: Pool, acts: seq<Act>, k: nat) {
    forall j | 0 <= j < |acts| ::
      Clears(acts[j].event, k) ==> Holders(p, acts[..j], k) <= {acts[j].who}
  }

  predicate Fresh(p: Pool) {
    Valid(p) && forall i | 0 <= i < |p.keys| :: !p.keys[i].probing
  }

  lemma StepFlag(p: Pool, e: Event, k: nat)
    requires Valid(p) && k < |p.keys|
    ensures k < |Step(p, e).keys|
    ensures Step(p, e).keys[k].probing == (Probes(p, e, k) || (p.keys[k].probing && !Clears(e, k)))
    ensures Probes(p, e, k) ==> !p.keys[k].probing
  {
    StepKeepsShape(p, e);
    if e.Select? && Granted(p, e.attempted).Some? {
      GrantMeans(p, e.attempted);
    }
  }

  lemma {:induction false} ActsKeepShape(p: Pool, acts: seq<Act>)
    requires Valid(p)
    ensures Valid(RunActs(p, acts)) && |RunActs(p, acts).keys| == |p.keys|
  {
    if acts != [] {
      ActsKeepShape(p, acts[..|acts| - 1]);
      StepKeepsShape(RunActs(p, acts[..|acts| - 1]), acts[|acts| - 1].event);
    }
  }

  /**
   As long as only its holder clears a key's flag, the flag says exactly whether a probe is outstanding, and there
   is never more than one.
   */
  lemma {:induction false} OneProbeWhenOwned(p: Pool, acts: seq<Act>, k: nat)
    requires Fresh(p) && k < |p.keys| && Owned(p, acts, k)
    ensures |Holders(p, acts, k)| <= 1 && k < |RunActs(p, acts).keys|
    ensures RunActs(p, acts).keys[k].probing <==> Holders(p, acts, k) != {}
  {
    if acts != [] {
      var n := |acts| - 1;
      var before, last := acts[..n], acts[n];
      forall j | 0 <= j < n ensures Clears(before[j].event, k) ==> Holders(p, before[..j], k) <= {before[j].who} {
        assert acts[..j] == before[..j];
      }
      OneProbeWhenOwned(p, before, k);
      ActsKeepShape(p, before);
      StepFlag(RunActs(p, before), last.event, k);
      hide RunActs, Step;
      if Clears(last.event, k) {
        assert Holders(p, before, k) - {last.who} == {};
      } else if Probes(RunActs(p, before), last.event, k) {
        assert Holders(p, before, k) + {last.who} == {last.who};
      }
    }
  }

  /** At every point of the run the flag says whether a probe is outstanding. */
  predicate FlagTells(p: Pool, acts: seq<Act>, k: nat) {
    forall n | 0 <= n <= |acts| ::
      var q := RunActs(p, acts[..n]); k < |q.keys| && (q.keys[k].probing <==> Holders(p, acts[..n], k) != {})
  }

  lemma OwnedPrefix(p: Pool, acts: seq<Act>, k: nat, n: nat)
    requires Owned(p, acts, k) && n <= |acts|
    ensures Owned(p, acts[..n], k)
  {
    hide Holders, Clears;
    assert forall j | 0 <= j < n :: acts[..n][..j] == acts[..j];
  }

  lemma NextFlag(p: Pool, acts: seq<Act>, k: nat, j: nat)
    requires Valid(p) && k < |p.keys| && j < |acts| && Clears(acts[j].event, k)
    ensures k < |RunActs(p, acts[..j + 1]).keys| && !RunActs(p, acts[..j + 1]).keys[k].probing
    ensures Holders(p, acts[..j + 1], k) == Holders(p, acts[..j], k) - {acts[j].who}
  {
    var now := acts[..j + 1];
    assert now[..|now| - 1] == acts[..j] && now[|now| - 1] == acts[j];
    ActsKeepShape(p, acts[..j]);
    StepFlag(RunActs(p, acts[..j]), acts[j].event, k);
  }

  /**
   The flag tells the truth throughout a run if and only if a request clears it only while it holds the probe
   itself, or while nobody does; and then no two probes are ever outstanding.
   */
  lemma FlagTellsExactlyWhenOwned(p: Pool, acts: seq<Act>, k: nat)
    requires Fresh(p) && k < |p.keys|
    ensures FlagTells(p, acts, k) <==> Owned(p, acts, k)
    ensures Owned(p, acts, k) ==> forall n | 0 <= n <= |acts| :: |Holders(p, acts[..n], k)| <= 1
  {
    if Owned(p, acts, k) {
      forall n | 0 <= n <= |acts|
        ensures |Holders(p, acts[..n], k)| <= 1 && k < |RunActs(p, acts[..n]).keys|
        ensures RunActs(p, acts[..n]).keys[k].probing <==> Holders(p, acts[..n], k) != {}
      {
        OwnedPrefix(p, acts, k, n);
        OneProbeWhenOwned(p, acts[..n], k);
      }
    }
    if FlagTells(p, acts, k) {
      forall j | 0 <= j < |acts| && Clears(acts[j].event, k) ensures Holders(p, acts[..j], k) <= {acts[j].who} {
        NextFlag(p, acts, k, j);
        assert Holders(p, acts[..j + 1], k) == {};
      }
    }
  }

  lemma OneMoreHolder(p: Pool, acts: seq<Act>, a: Act, k: nat)
    ensures var q := RunActs(p, acts); var held := Holders(p, acts, k);
            && RunActs(p, acts + [a]) == Step(q, a.event)
            && Holders(p, acts + [a], k) == if Probes(q, a.event, k) then held + {a.who}
                                            else if Clears(a.event, k) then held - {a.who} else held
  {
    assert (acts + [a])[..|acts|] == acts;
    hide Step, Probes, Clears;
  }

  /** After a wait, a request that has tried the keys in `attempted` is granted a probe of `k`. */
  predicate ProbeFollows(p: Pool, nanos: nat, attempted: set<nat>, k: nat) {
    Probes(Step(p, Tick(nanos)), Select(attempted), k)
  }

  function Indices(n: nat): (r: set<nat>)
    ensures forall i: nat :: i in r <==> i < n
  {
    if n == 0 then {} else Indices(n - 1) + {n - 1}
  }

  /** Some next request can be granted a probe if and only if the key once was limited and its flag is clear, whoever holds one. */
  lemma ProbeFollowsExactlyWhen(p: Pool, k: nat)
    requires Valid(p) && k < |p.keys|
    ensures (exists nanos, attempted :: ProbeFollows(p, nanos, attempted, k)) <==> NeedsProbe(p.keys[k])
  {
    if NeedsProbe(p.keys[k]) {
      var nanos := p.keys[k].until.value;
      var others := Indices(|p.keys|) - {k};
      var q := Step(p, Tick(nanos));
      EmptyExactlyWhenCooling(q, others);
      assert k !in others && !IsCooling(q.keys[k], q.now);
      GrantMeans(q, others);
      assert ProbeFollows(p, nanos, others, k);
    }
    forall nanos, attempted | ProbeFollows(p, nanos, attempted, k) ensures NeedsProbe(p.keys[k]) {
      GrantMeans(Step(p, Tick(nanos)), attempted);
    }
  }

  /** A lone key whose cooldown is over, idle or being probed. */
  function Lone(probing: bool): Pool {
    Pool([Key("a", Some(0), Some(0), probing)], 0, 0)
  }

  lemma LoneSteps()
    ensures Step(Lone(false), Select({})) == Lone(true) && Probes(Lone(false), Select({}), 0)
    ensures Step(Lone(true), MarkHttp429(0, 0)) == Lone(false) && Step(Lone(true), ReleaseProbe(0)) == Lone(false)
  {
    assert IndexAt(Lone(false), 0) == 0;
    assert Choice(Lone(false), {}) == Some(0);
    assert FirstAdvance(Limited(Lone(true), 0, 0), 1) == None;
  }

  predicate LoneAt(acts: seq<Act>, probing: bool, held: set<nat>) {
    RunActs(Lone(false), acts) == Lone(probing) && Holders(Lone(false), acts, 0) == held
  }

  lemma LoneProbed(acts: seq<Act>, held: set<nat>, who: nat)
    requires LoneAt(acts, false, held)
    ensures LoneAt(acts + [Act(who, Select({}))], true, held + {who})
  {
    LoneSteps();
    hide Step, Probes, RunActs, Holders, Lone;
    OneMoreHolder(Lone(false), acts, Act(who, Select({})), 0);
  }

  lemma LoneCleared(acts: seq<Act>, held: set<nat>, who: nat, e: Event)
    requires LoneAt(acts, true, held) && e in {MarkHttp429(0, 0), ReleaseProbe(0)}
    ensures LoneAt(acts + [Act(who, e)], false, held - {who})
  {
    LoneSteps();
    hide Step, RunActs, Holders, Lone;
    OneMoreHolder(Lone(false), acts, Act(who, e), 0);
  }

  /**
   Without that condition it fails: the flag carries no owner. A zero cooldown frees the key while the first lease
   is still held; when that lease is dropped it clears the second probe's flag, and a third request probes too.
   */
  lemma TwoProbesArePossible() returns (p: Pool, acts: seq<Act>)
    ensures Fresh(p) && |p.keys| == 1 && |Holders(p, acts, 0)| == 2 && !Owned(p, acts, 0)
  {
    p := Lone(false);
    assert Fresh(p) && |p.keys| == 1;
    assert LoneAt([], false, {});
    hide Step, RunActs, Holders, Lone, Fresh;
    LoneProbed([], {}, 1);
    var one := [] + [Act(1, Select({}))];
    LoneCleared(one, {} + {1}, 1, MarkHttp429(0, 0));
    var two := one + [Act(1, MarkHttp429(0, 0))];
    assert {} + {1} - {1} == {};
    LoneProbed(two, {}, 2);
    var three := two + [Act(2, Select({}))];
    LoneCleared(three, {} + {2}, 1, ReleaseProbe(0));
    var four := three + [Act(1, ReleaseProbe(0))];
    assert {} + {2} - {1} == {2};
    LoneProbed(four, {2}, 3);
    acts := four + [Act(3, Select({}))];
    assert {2} + {3} == {2, 3};
    NotOwned(p, acts, 0, 3, three);
  }

  lemma NotOwned(p: Pool, acts: seq<Act>, k: nat, j: nat, before: seq<Act>)
    requires j < |acts| && before == acts[..j] && Clears(acts[j].event, k) && !(Holders(p, before, k) <= {acts[j].who})
    ensures !Owned(p, acts, k)
  {
    hide Holders;
  }

  // ---- persisting and restoring ----

  datatype PersistedState = PersistedState(active: Option<string>, keys: map<string, Option<nat>>)

  function UnixMs(wall: Option<nat>): Option<nat> {
    if wall.None? then None else Some(wall.value / NANOS_PER_MS)
  }

  function PersistedKeys(keys: seq<Key>): map<string, Option<nat>> {
    if keys == [] then map[]
    else PersistedKeys(keys[..|keys| - 1])[keys[|keys| - 1].name := UnixMs(keys[|keys| - 1].untilWall)]
  }

  function Persisted(p: Pool): PersistedState
    requires Valid(p)
  {
    PersistedState(if p.keys == [] then None else Some(p.keys[p.active].name), PersistedKeys(p.keys))
  }

  /** What one key becomes from its persisted deadline. */
  function RestoredKey(key: Key, deadlineMs: Option<nat>, now: nat): Key {
    if deadlineMs.None? then key
    else
      var deadline := deadlineMs.value * NANOS_PER_MS;
      var until := if deadline >= now then now + Capped(deadline - now) else now;
      key.(until := Some(until), untilWall := Some(deadline))
  }

  function FirstNamed(keys: seq<Key>, name: string): (r: Option<nat>)
    ensures r.Some? ==> r.value < |keys| && keys[r.value].name == name && forall j | 0 <= j < r.value :: keys[j].name != name
    ensures r.None? ==> forall j | 0 <= j < |keys| :: keys[j].name != name
  {
    if keys == [] then None
    else if keys[0].name == name then Some(0)
    else
      var r := FirstNamed(keys[1..], name);
      if r.None? then None else Some(r.value + 1)
  }

  predicate IsFirst(keys: seq<Key>, i: nat)
    requires i < |keys|
  {
    forall j | 0 <= j < i :: keys[j].name != keys[i].name
  }

  function RestoredKeys(keys: seq<Key>, state: map<string, Option<nat>>, now: nat): (r: seq<Key>)
    ensures |r| == |keys|
    ensures forall i | 0 <= i < |r| ::
      r[i] == if keys[i].name in state && IsFirst(keys, i) then RestoredKey(keys[i], state[keys[i].name], now) else keys[i]
  {
    seq(|keys|, i requires 0 <= i < |keys| =>
      if keys[i].name in state && IsFirst(keys, i) then RestoredKey(keys[i], state[keys[i].name], now) else keys[i])
  }

  function Restored(p: Pool, state: PersistedState): Pool {
    var index := if state.active.None? then None else FirstNamed(p.keys, state.active.value);
    Pool(RestoredKeys(p.keys, state.keys, p.now), index.GetOr(p.active), p.now)
  }

  predicate DistinctNames(keys: seq<Key>) {
    forall i, j | 0 <= i < j < |keys| :: keys[i].name != keys[j].name
  }

  predicate Named(keys: seq<Key>, name: string) {
    exists j | 0 <= j < |keys| :: keys[j].name == name
  }

  predicate SameNames(a: seq<Key>, b: seq<Key>) {
    && (forall i | 0 <= i < |a| :: Named(b, a[i].name))
    && (forall j | 0 <= j < |b| :: Named(a, b[j].name))
  }

  /** A pool as it is built from configuration. */
  predicate New(p: Pool) {
    Valid(p) && p.active == 0 && forall i | 0 <= i < |p.keys| :: p.keys[i] == Key(p.keys[i].name, None, None, false)
  }

  /** A deadline is at most the longest cooldown ahead, and is the persisted one unless it has passed. */
  predicate OnTime(key: Key, now: nat) {
    if key.until.None? then key.untilWall.None?
    else
      && key.untilWall.Some? && key.untilWall.value <= key.until.value <= now + MAX_COOLDOWN
      && (key.untilWall == key.until || key.until.value <= now)
  }

  predicate AllOnTime(p: Pool) {
    forall i | 0 <= i < |p.keys| :: OnTime(p.keys[i], p.now)
  }

  function Remaining(key: Key, now: nat): nat {
    if IsCooling(key, now) then key.until.value - now else 0
  }

  lemma StepStaysOnTime(p: Pool, e: Event)
    requires Valid(p) && AllOnTime(p)
    ensures AllOnTime(Step(p, e))
  {
    StepKeepsShape(p, e);
    forall i | 0 <= i < |p.keys| ensures OnTime(Step(p, e).keys[i], Step(p, e).now) {
      assert OnTime(p.keys[i], p.now);
    }
  }

  lemma {:induction false} RunStaysOnTime(p: Pool, events: seq<Event>)
    requires Valid(p) && AllOnTime(p)
    ensures AllOnTime(Run(p, events))
  {
    if events != [] {
      RunStaysOnTime(p, events[..|events| - 1]);
      RunKeepsShape(p, events[..|events| - 1]);
      StepStaysOnTime(Run(p, events[..|events| - 1]), events[|events| - 1]);
    }
  }

  lemma {:induction false} PersistedAt(keys: seq<Key>, i: nat)
    requires i < |keys| && DistinctNames(keys)
    ensures keys[i].name in PersistedKeys(keys) && PersistedKeys(keys)[keys[i].name] == UnixMs(keys[i].untilWall)
  {
    hide UnixMs;
    var n := |keys| - 1;
    if i < n {
      PersistedAt(keys[..n], i);
    }
  }

  /** Less than the current millisecond is left of the cooldown. */
  predicate AlmostOver(key: Key, now: nat) {
    IsCooling(key, now) && key.until.value / NANOS_PER_MS * NANOS_PER_MS <= now
  }

  /** How a restored key relates to the persisted one. */
  predicate Survives(key: Key, r: Key, now: nat) {
    && r.name == key.name && Remaining(r, now) <= Remaining(key, now) < Remaining(r, now) + NANOS_PER_MS
    && PhaseOf(r, now) == if PhaseOf(key, now) == Probing || AlmostOver(key, now) then HalfOpen else PhaseOf(key, now)
  }

  /** One key persisted and restored at the same instant. */
  lemma KeySurvives(key: Key, now: nat)
    requires OnTime(key, now)
    ensures var r := RestoredKey(Key(key.name, None, None, false), UnixMs(key.untilWall), now);
            Survives(key, r, now) && OnTime(r, now)
  {
    if key.untilWall.Some? {
      Floor(key.untilWall.value);
    }
  }

  lemma Floor(wall: nat)
    ensures wall - NANOS_PER_MS < wall / NANOS_PER_MS * NANOS_PER_MS <= wall
  {
  }

  /**
   What is written to disk: the name of the active key, and for every key either nothing, if it was never limited since
   its last success, or its deadline in whole milliseconds; and no other name.
   */
  lemma PersistedMeans(p: Pool)
    requires Valid(p) && DistinctNames(p.keys)
    ensures var state := Persisted(p);
            && (p.keys == [] ==> state.active == None) && (p.keys != [] ==> state.active == Some(p.keys[p.active].name))
            && (forall name | name in state.keys :: Named(p.keys, name))
            && (forall i | 0 <= i < |p.keys| ::
                  && p.keys[i].name in state.keys
                  && var ms, wall := state.keys[p.keys[i].name], p.keys[i].untilWall;
                     && (ms.None? <==> wall.None?)
                     && (ms.Some? ==> ms.value * NANOS_PER_MS <= wall.value < ms.value * NANOS_PER_MS + NANOS_PER_MS))
  {
    PersistedOnly(p.keys);
    forall i | 0 <= i < |p.keys|
      ensures p.keys[i].name in Persisted(p).keys && Persisted(p).keys[p.keys[i].name] == UnixMs(p.keys[i].untilWall)
    {
      PersistedAt(p.keys, i);
    }
    hide PersistedKeys;
  }

  lemma {:induction false} PersistedOnly(keys: seq<Key>)
    ensures forall name | name in PersistedKeys(keys) :: Named(keys, name)
  {
    if keys != [] {
      var n := |keys| - 1;
      PersistedOnly(keys[..n]);
      hide UnixMs, PersistedKeys;
      forall name | Named(keys[..n], name) ensures Named(keys, name) {
        var j :| 0 <= j < n && keys[..n][j].name == name;
        assert keys[j].name == name;
      }
      assert Named(keys, keys[n].name);
      PersistedOneMore(keys);
    }
  }

  lemma PersistedOneMore(keys: seq<Key>)
    requires keys != []
    ensures forall name | name in PersistedKeys(keys) :: name == keys[|keys| - 1].name || name in PersistedKeys(keys[..|keys| - 1])
  {
  }

  /** What was read from disk says of a key: cooling until the deadline, for at most the longest cooldown, else half open. */
  predicate RestoredTo(was: Key, r: Key, deadlineMs: Option<nat>, now: nat, later: nat) {
    && r.name == was.name && r.probing == was.probing && (deadlineMs.None? ==> r == was)
    && (deadlineMs.Some? && later >= now ==>
          && r.untilWall == Some(deadlineMs.value * NANOS_PER_MS)
          && (PhaseOf(r, later) == Cooling <==> later < deadlineMs.value * NANOS_PER_MS && later < now + MAX_COOLDOWN)
          && PhaseOf(r, later) != Healthy)
  }

  /** Restoring any state: the first key of each name in it takes its deadline, a known active name takes the role; no more. */
  lemma RestoredMeans(p: Pool, state: PersistedState, later: nat)
    requires Valid(p)
    ensures var r := Restored(p, state);
            && |r.keys| == |p.keys| && r.now == p.now
            && (forall i | 0 <= i < |p.keys| ::
                  if p.keys[i].name in state.keys && IsFirst(p.keys, i) then
                    RestoredTo(p.keys[i], r.keys[i], state.keys[p.keys[i].name], p.now, later)
                  else r.keys[i] == p.keys[i])
            && (if state.active.Some? && Named(p.keys, state.active.value)
                then r.active < |p.keys| && p.keys[r.active].name == state.active.value && IsFirst(p.keys, r.active)
                else r.active == p.active)
  {
    hide IsFirst, FirstNamed;
    if state.active.Some? {
      FirstIsFirst(p.keys, state.active.value);
    }
  }

  lemma FirstIsFirst(keys: seq<Key>, name: string)
    ensures FirstNamed(keys, name).Some? <==> Named(keys, name)
    ensures FirstNamed(keys, name).Some? ==>
      var i := FirstNamed(keys, name).value; i < |keys| && keys[i].name == name && IsFirst(keys, i)
  {
  }

  /**
   Persisting a pool and restoring it at the same instant into a new pool with the same names, in any order, keeps
   the active key; every key keeps its class, except that a probe is forgotten and that a cooldown with less than
   the current millisecond to run is over; no cooldown grows, and none shrinks by a millisecond.
   */
  lemma RestoreKeeps(p: Pool, q: Pool)
    requires Valid(p) && AllOnTime(p) && New(q) && q.now == p.now
    requires DistinctNames(p.keys) && DistinctNames(q.keys) && SameNames(p.keys, q.keys)
    ensures var r := Restored(q, Persisted(p));
            && Valid(r) && AllOnTime(r) && |r.keys| == |q.keys|
            && (p.keys != [] ==> r.keys != [] && r.keys[r.active].name == p.keys[p.active].name)
            && (forall i, j | 0 <= i < |p.keys| && 0 <= j < |r.keys| && p.keys[i].name == q.keys[j].name ::
                  Survives(p.keys[i], r.keys[j], p.now))
  {
    ActiveRestored(p, q);
    forall i, j | 0 <= i < |p.keys| && 0 <= j < |q.keys| && p.keys[i].name == q.keys[j].name
      ensures Survives(p.keys[i], Restored(q, Persisted(p)).keys[j], p.now) && OnTime(Restored(q, Persisted(p)).keys[j], p.now)
    {
      KeyRestored(p, q, i, j);
    }
    hide OnTime, Survives, Persisted, Restored, Valid, New, DistinctNames;
    var r := Restored(q, Persisted(p));
    forall j | 0 <= j < |q.keys| ensures OnTime(r.keys[j], r.now) {
      assert Named(p.keys, q.keys[j].name);
      var i :| 0 <= i < |p.keys| && p.keys[i].name == q.keys[j].name;
    }
  }

  lemma ActiveRestored(p: Pool, q: Pool)
    requires Valid(p) && Valid(q) && SameNames(p.keys, q.keys)
    ensures var r := Restored(q, Persisted(p));
            Valid(r) && |r.keys| == |q.keys| && r.now == q.now
            && (p.keys != [] ==> r.keys != [] && r.keys[r.active].name == p.keys[p.active].name)
  {
    hide PersistedKeys, RestoredKeys;
    RestoredNames(q.keys, PersistedKeys(p.keys), q.now);
    if p.keys != [] {
      var j := Counterpart(p.keys, q.keys, p.active);
      hide SameNames;
    }
  }

  lemma Counterpart(a: seq<Key>, b: seq<Key>, i: nat) returns (j: nat)
    requires SameNames(a, b) && i < |a|
    ensures j < |b| && b[j].name == a[i].name
  {
    assert Named(b, a[i].name);
    j :| j < |b| && b[j].name == a[i].name;
  }

  lemma RestoredNames(keys: seq<Key>, state: map<string, Option<nat>>, now: nat)
    ensures |RestoredKeys(keys, state, now)| == |keys|
    ensures forall i | 0 <= i < |keys| :: RestoredKeys(keys, state, now)[i].name == keys[i].name
  {
    hide IsFirst;
  }

  lemma KeyRestored(p: Pool, q: Pool, i: nat, j: nat)
    requires Valid(p) && AllOnTime(p) && New(q) && q.now == p.now
    requires DistinctNames(p.keys) && DistinctNames(q.keys)
    requires i < |p.keys| && j < |q.keys| && p.keys[i].name == q.keys[j].name
    ensures var r := Restored(q, Persisted(p)).keys[j]; Survives(p.keys[i], r, p.now) && OnTime(r, p.now)
  {
    hide RestoredKey, UnixMs, Survives, PersistedKeys;
    PersistedAt(p.keys, i);
    assert OnTime(p.keys[i], p.now);
    KeySurvives(p.keys[i], p.now);
    hide OnTime;
    assert q.keys[j] == Key(p.keys[i].name, None, None, false);
    assert IsFirst(q.keys, j);
  }

  /** The shortest time until some deadline that has not passed; nothing if every deadline has. */
  predicate IsEarliestRetry(p: Pool, r: Option<nat>) {
    if r.None? then forall i | 0 <= i < |p.keys| :: p.keys[i].until.None? || p.keys[i].until.value < p.now
    else
      && (exists i :: 0 <= i < |p.keys| && p.keys[i].until == Some(p.now + r.value))
      && forall i | 0 <= i < |p.keys| && p.keys[i].until.Some? && p.keys[i].until.value >= p.now ::
           p.now + r.value <= p.keys[i].until.value
  }

  // ---- the pool as the program runs it ----

  class KeyPool {
    var keys: seq<Key>
    var active: nat
    var now: nat

    function View(): Pool
      reads this
    {
      Pool(keys, active, now)
    }

    constructor (names: seq<string>, now: nat)
      ensures New(View()) && this.now == now && |keys| == |names| && forall i | 0 <= i < |names| :: keys[i].name == names[i]
    {
      this.keys := seq(|names|, i requires 0 <= i < |names| => Key(names[i], None, None, false));
      this.active := 0;
      this.now := now;
    }

    method Select(attempted: set<nat>) returns (r: Option<Grant>)
      requires Valid(View())
      modifies this`keys, this`active
      ensures View() == AfterSelect(old(View()), attempted) && r == Granted(old(View()), attempted)
    {
      r := None;
      if keys == [] {
        return;
      }
      r := Scan(attempted, false);
      if r.None? {
        r := Scan(attempted, true);
      }
    }

    method Scan(attempted: set<nat>, allowProbed: bool) returns (r: Option<Grant>)
      requires Valid(View()) && keys != []
      modifies this`keys, this`active
      ensures var i := FirstUsable(old(View()), attempted, allowProbed, 0);
              if i.None? then r.None? && View() == old(View())
              else r == Some(Grant(i.value, NeedsProbe(old(keys)[i.value]))) && View() == Taken(old(View()), i.value)
    {
      ghost var p := View();
      var count := |keys|;
      for offset := 0 to count
        invariant View() == p
        invariant FirstUsable(p, attempted, allowProbed, 0) == FirstUsable(p, attempted, allowProbed, offset)
      {
        var index := (active + offset) % count;
        assert index == IndexAt(p, offset);
        if index !in attempted && !IsCooling(keys[index], now) {
          var isProbe := false;
          var shared := keys[index].until.Some? && keys[index].probing && !allowProbed;
          if !shared {
            if keys[index].until.Some? && !keys[index].probing {
              keys := keys[index := keys[index].(probing := true)];
              isProbe := true;
            }
            active := index;
            return Some(Grant(index, isProbe));
          }
        }
      }
      return None;
    }

    method MarkHttp429(index: nat, cooldown: nat)
      requires Valid(View())
      modifies this`keys, this`active
      ensures View() == AfterLimit(old(View()), index, cooldown)
    {
      if index < |keys| {
        var deadline := Some(now + Capped(cooldown));
        keys := keys[index := keys[index].(until := deadline, untilWall := deadline, probing := false)];
      }
      AdvanceIfActive(index);
    }

    method AdvanceIfActive(rejected: nat)
      requires Valid(View())
      modifies this`active
      ensures View() == Advanced(old(View()), rejected)
    {
      var count := |keys|;
      if count == 0 || active != rejected {
        return;
      }
      ghost var p := View();
      var offset := 1;
      while offset < count
        invariant View() == p
        invariant FirstAdvance(p, 1) == FirstAdvance(p, offset)
      {
        var candidate := (rejected + offset) % count;
        assert candidate == IndexAt(p, offset);
        if !IsCooling(keys[candidate], now) && !keys[candidate].probing {
          active := candidate;
          return;
        }
        offset := offset + 1;
      }
    }

    method MarkSuccess(index: nat)
      modifies this`keys
      ensures View() == AfterSuccess(old(View()), index)
    {
      if index < |keys| {
        keys := keys[index := keys[index].(until := None, untilWall := None, probing := false)];
      }
    }

    method ReleaseProbe(index: nat)
      modifies this`keys
      ensures View() == AfterRelease(old(View()), index)
    {
      if index < |keys| {
        keys := keys[index := keys[index].(probing := false)];
      }
    }

    /** Any one step, for the requests that share the pool. */
    method Perform(e: Event)
      requires Valid(View())
      modifies this
      ensures View() == Step(old(View()), e)
    {
      match e {
        case Select(attempted) =>
          var _ := Select(attempted);
        case MarkHttp429(i, cooldown) => MarkHttp429(i, cooldown);
        case MarkSuccess(i) => MarkSuccess(i);
        case ReleaseProbe(i) => ReleaseProbe(i);
        case Tick(nanos) => now := now + nanos;
      }
    }

    method EarliestRetryAfter() returns (r: Option<nat>)
      ensures IsEarliestRetry(View(), r)
    {
      r := None;
      for i := 0 to |keys|
        invariant IsEarliestRetry(Pool(keys[..i], active, now), r)
      {
        ghost var before := keys[..i];
        assert forall j | 0 <= j < i :: keys[..i + 1][j] == before[j];
        if keys[i].until.Some? && keys[i].until.value >= now {
          var remaining := keys[i].until.value - now;
          if r.None? || remaining < r.value {
            r := Some(remaining);
            assert keys[..i + 1][i].until == Some(now + remaining);
          } else {
            ghost var j :| 0 <= j < i && before[j].until == Some(now + r.value);
            assert keys[..i + 1][j].until == Some(now + r.value);
          }
        } else if r.Some? {
          ghost var j :| 0 <= j < i && before[j].until == Some(now + r.value);
          assert keys[..i + 1][j].until == Some(now + r.value);
        }
      }
      assert keys[..|keys|] == keys;
    }

    method PersistState() returns (state: PersistedState)
      requires Valid(View())
      ensures state == Persisted(View())
    {
      var persisted: map<string, Option<nat>> := map[];
      assert keys[..0] == [];
      for i := 0 to |keys|
        invariant persisted == PersistedKeys(keys[..i])
      {
        assert keys[..i + 1][..i] == keys[..i];
        persisted := persisted[keys[i].name := UnixMs(keys[i].untilWall)];
      }
      assert keys[..|keys|] == keys;
      state := PersistedState(if keys == [] then None else Some(keys[active].name), persisted);
    }

    /** The entries may be visited in any order. */
    method Restore(state: PersistedState)
      requires Valid(View())
      modifies this`keys, this`active
      ensures View() == Restored(old(View()), state)
    {
      var todo := state.keys.Keys;
      while todo != {}
        invariant todo <= state.keys.Keys && active == old(active) && |keys| == |old(keys)|
        invariant forall i | 0 <= i < |keys| ::
          keys[i] == if old(keys)[i].name in state.keys.Keys - todo && IsFirst(old(keys), i)
                     then RestoredKey(old(keys)[i], state.keys[old(keys)[i].name], now) else old(keys)[i]
        decreases |todo|
      {
        var name :| name in todo;
        ghost var was := keys;
        assert forall i | 0 <= i < |keys| :: keys[i].name == old(keys)[i].name;
        var found := FirstNamed(keys, name);
        if found.Some? {
          keys := keys[found.value := RestoredKey(keys[found.value], state.keys[name], now)];
        }
        todo := todo - {name};
      }
      if state.active.Some? {
        SameFirst(old(keys), keys, state.active.value);
        var index := FirstNamed(keys, state.active.value);
        if index.Some? {
          active := index.value;
        }
      }
    }
  }

  lemma {:induction false} SameFirst(a: seq<Key>, b: seq<Key>, name: string)
    requires |a| == |b| && forall i | 0 <= i < |a| :: a[i].name == b[i].name
    ensures FirstNamed(a, name) == FirstNamed(b, name)
  {
    if a != [] && a[0].name != name {
      SameFirst(a[1..], b[1..], name);
    }
  }
}
