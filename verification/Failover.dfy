/**
 One logical request over the key pool: it tries keys until one answers, fails for another reason than a rate
 limit, or none is left. Other requests and the clock act on the pool at every point in between.
 */
module Failover {
  import opened Prelude
  import opened KeyPools

  /** What an attempt comes back with; a confirmed rate limit carries its cooldown. */
  datatype Reply = TransportError | Success | OtherError | RateLimited(hint: Option<nat>)

  datatype Outcome =
    | Answered(index: nat, attempt: nat)
    | HttpError(index: nat, attempt: nat)
    | Transport
    | AllRateLimited(retryAfter: Option<nat>)

  /** A key this request was granted, and where in the run. */
  datatype Attempt = Attempt(index: nat, isProbe: bool, at: nat)

  type Upstream = (nat, nat) -> Reply

  function Tried(attempts: seq<Attempt>): set<nat> {
    set a | a in attempts :: a.index
  }

  predicate Confirmed(r: Reply) {
    r.RateLimited? && r.hint.Some?
  }

  function Verdict(index: nat, reply: Reply): seq<Event> {
    match reply
    case Success => [MarkSuccess(index)]
    case RateLimited(Some(cooldown)) => [MarkHttp429(index, cooldown)]
    case _ => []
  }

  function Dropped(index: nat, isProbe: bool): seq<Event> {
    if isProbe then [ReleaseProbe(index)] else []
  }

  /** Everything a request does to the pool over its attempts. */
  function OwnEvents(attempts: seq<Attempt>, upstream: Upstream): seq<Event> {
    if attempts == [] then []
    else
      var n := |attempts| - 1;
      var last := attempts[n];
      OwnEvents(attempts[..n], upstream)
      + [Select(Tried(attempts[..n]))] + Verdict(last.index, upstream(n, last.index)) + Dropped(last.index, last.isProbe)
  }

  function Mine(trace: seq<Act>, me: nat): seq<Event> {
    if trace == [] then []
    else Mine(trace[..|trace| - 1], me) + if trace[|trace| - 1].who == me then [trace[|trace| - 1].event] else []
  }

  function Theirs(trace: seq<Act>, me: nat): seq<Act> {
    if trace == [] then []
    else Theirs(trace[..|trace| - 1], me) + if trace[|trace| - 1].who == me then [] else [trace[|trace| - 1]]
  }

  /** What the others do up to moment `m`. */
  function Moments(others: nat -> seq<Act>, m: nat): seq<Act> {
    if m == 0 then [] else Moments(others, m - 1) + others(m - 1)
  }

  ghost predicate Foreign(others: nat -> seq<Act>, me: nat) {
    forall m: nat, i: nat | i < |others(m)| :: others(m)[i].who != me
  }

  /**
   The run so far explains the pool, interleaves exactly what the others did up to moment `m`, and `own` is this
   request's part of it.
   */
  ghost predicate Follows(start: Pool, now: Pool, trace: seq<Act>, me: nat, others: nat -> seq<Act>, m: nat, own: seq<Event>) {
    && Valid(start) && Valid(now) && |now.keys| == |start.keys|
    && now == RunActs(start, trace) && Theirs(trace, me) == Moments(others, m) && Mine(trace, me) == own
  }

  /** Attempt `j` used the key that selection granted there. */
  predicate GrantedAt(start: Pool, trace: seq<Act>, attempts: seq<Attempt>, j: nat, me: nat)
    requires j < |attempts|
  {
    var a := attempts[j];
    && a.at < |trace| && trace[a.at] == Act(me, Select(Tried(attempts[..j])))
    && Granted(RunActs(start, trace[..a.at]), Tried(attempts[..j])) == Some(Grant(a.index, a.isProbe))
  }

  ghost predicate AllGranted(start: Pool, trace: seq<Act>, attempts: seq<Attempt>, me: nat) {
    forall j | 0 <= j < |attempts| :: GrantedAt(start, trace, attempts, j, me)
  }

  predicate DistinctKeys(attempts: seq<Attempt>) {
    forall i, j | 0 <= i < j < |attempts| :: attempts[i].index != attempts[j].index
  }

  // ---- small facts about runs ----

  lemma OneMoreAct(start: Pool, trace: seq<Act>, me: nat, a: Act)
    ensures RunActs(start, trace + [a]) == Step(RunActs(start, trace), a.event)
    ensures Mine(trace + [a], me) == Mine(trace, me) + if a.who == me then [a.event] else []
    ensures Theirs(trace + [a], me) == Theirs(trace, me) + if a.who == me then [] else [a]
  {
    assert (trace + [a])[..|trace|] == trace;
    hide Step;
  }

  lemma NothingDone(p: Pool)
    ensures RunActs(p, []) == p
  {
  }

  lemma {:induction false} TheirActs(start: Pool, trace: seq<Act>, me: nat, more: seq<Act>)
    requires forall i | 0 <= i < |more| :: more[i].who != me
    ensures RunActs(start, trace + more) == RunActs(RunActs(start, trace), more)
    ensures Mine(trace + more, me) == Mine(trace, me) && Theirs(trace + more, me) == Theirs(trace, me) + more
    decreases |more|
  {
    hide *;
    if more == [] {
      assert trace + more == trace;
      NothingDone(RunActs(start, trace));
      assert Theirs(trace, me) + more == Theirs(trace, me);
    } else {
      var n := |more| - 1;
      TheirActs(start, trace, me, more[..n]);
      assert more == more[..n] + [more[n]];
      OneMoreAct(RunActs(start, trace), more[..n], me, more[n]);
      OneMoreAct(start, trace + more[..n], me, more[n]);
      assert trace + more == trace + more[..n] + [more[n]];
    }
  }

  lemma GrantsStay(start: Pool, trace: seq<Act>, more: seq<Act>, attempts: seq<Attempt>, me: nat)
    requires AllGranted(start, trace, attempts, me)
    ensures AllGranted(start, trace + more, attempts, me)
  {
    hide RunActs, Granted, Tried;
    forall j | 0 <= j < |attempts| ensures GrantedAt(start, trace + more, attempts, j, me) {
      assert GrantedAt(start, trace, attempts, j, me);
      assert (trace + more)[..attempts[j].at] == trace[..attempts[j].at];
    }
  }

  /** The next grant is to a new key. */
  lemma NewGrant(start: Pool, trace: seq<Act>, attempts: seq<Attempt>, me: nat, g: Grant)
    requires Valid(start) && AllGranted(start, trace, attempts, me) && DistinctKeys(attempts)
    requires Granted(RunActs(start, trace), Tried(attempts)) == Some(g)
    ensures var now := attempts + [Attempt(g.index, g.isProbe, |trace|)];
            && AllGranted(start, trace + [Act(me, Select(Tried(attempts)))], now, me)
            && DistinctKeys(now) && Tried(now) == Tried(attempts) + {g.index}
            && g.index !in Tried(attempts) && g.index < |start.keys|
  {
    var a := Attempt(g.index, g.isProbe, |trace|);
    var t := trace + [Act(me, Select(Tried(attempts)))];
    ActsKeepShape(start, trace);
    GrantMeans(RunActs(start, trace), Tried(attempts));
    hide RunActs, Granted, AllGranted, DistinctKeys, Tried, Valid, PhaseOf, ComesBefore;
    GrantsStay(start, trace, [Act(me, Select(Tried(attempts)))], attempts, me);
    assert t[..|trace|] == trace;
    GrantsOneMore(start, t, attempts, a, me);
    DistinctOneMore(attempts, a);
    TriedOneMore(attempts, a);
  }

  lemma GrantsOneMore(start: Pool, trace: seq<Act>, attempts: seq<Attempt>, a: Attempt, me: nat)
    requires AllGranted(start, trace, attempts, me)
    requires a.at < |trace| && trace[a.at] == Act(me, Select(Tried(attempts)))
    requires Granted(RunActs(start, trace[..a.at]), Tried(attempts)) == Some(Grant(a.index, a.isProbe))
    ensures AllGranted(start, trace, attempts + [a], me)
  {
    var now := attempts + [a];
    hide RunActs, Granted, Tried;
    assert now[..|attempts|] == attempts;
    forall j | 0 <= j < |now| ensures GrantedAt(start, trace, now, j, me) {
      if j < |attempts| {
        assert GrantedAt(start, trace, attempts, j, me);
        assert now[..j] == attempts[..j];
      }
    }
  }

  lemma DistinctOneMore(attempts: seq<Attempt>, a: Attempt)
    requires DistinctKeys(attempts) && a.index !in Tried(attempts)
    ensures DistinctKeys(attempts + [a])
  {
    var now := attempts + [a];
    forall i, j | 0 <= i < j < |now| ensures now[i].index != now[j].index {
      assert attempts[i] in attempts;
    }
  }

  lemma TriedOneMore(attempts: seq<Attempt>, a: Attempt)
    ensures Tried(attempts + [a]) == Tried(attempts) + {a.index}
  {
    forall x | x in Tried(attempts) + {a.index} ensures x in Tried(attempts + [a]) {
      assert a in attempts + [a];
      assert forall b | b in attempts :: b in attempts + [a];
    }
  }

  lemma OwnOneMore(attempts: seq<Attempt>, a: Attempt, upstream: Upstream)
    ensures OwnEvents(attempts + [a], upstream)
         == OwnEvents(attempts, upstream) + [Select(Tried(attempts))]
          + Verdict(a.index, upstream(|attempts|, a.index)) + Dropped(a.index, a.isProbe)
  {
    assert (attempts + [a])[..|attempts|] == attempts;
  }

  function Below(n: nat): (r: set<nat>)
    ensures |r| == n && forall i :: i in r <==> 0 <= i < n
  {
    if n == 0 then {} else Below(n - 1) + {n - 1}
  }

  /** A set of key indices is no larger than the pool, and as large only if it holds every key. */
  lemma KeyCount(tried: set<nat>, n: nat)
    requires forall i | i in tried :: i < n
    ensures |tried| <= n && (|tried| == n ==> tried == Below(n))
  {
    assert tried <= Below(n);
    var missing := Below(n) - tried;
    assert |missing| + |tried| == n by { assert missing + tried == Below(n); }
  }

  lemma ReleaseKeepsRetry(p: Pool, i: nat, r: Option<nat>)
    requires IsEarliestRetry(p, r)
    ensures IsEarliestRetry(AfterRelease(p, i), r)
  {
    var q := AfterRelease(p, i);
    assert |q.keys| == |p.keys| && forall j | 0 <= j < |p.keys| :: q.keys[j].until == p.keys[j].until;
    if r.Some? {
      var j :| 0 <= j < |p.keys| && p.keys[j].until == Some(p.now + r.value);
      assert q.keys[j].until == Some(q.now + r.value);
    }
  }

  // ---- the request ----

  lemma FollowsOthers(start: Pool, now: Pool, trace: seq<Act>, me: nat, others: nat -> seq<Act>, m: nat, own: seq<Event>)
    requires Follows(start, now, trace, me, others, m, own) && Foreign(others, me)
    ensures Follows(start, RunActs(now, others(m)), trace + others(m), me, others, m + 1, own)
  {
    TheirActs(start, trace, me, others(m));
    ActsKeepShape(now, others(m));
    hide RunActs, Mine, Theirs;
  }

  lemma FollowsOwn(start: Pool, now: Pool, trace: seq<Act>, me: nat, others: nat -> seq<Act>, m: nat, own: seq<Event>, e: Event)
    requires Follows(start, now, trace, me, others, m, own)
    ensures Follows(start, Step(now, e), trace + [Act(me, e)], me, others, m, own + [e])
  {
    OneMoreAct(start, trace, me, Act(me, e));
    StepKeepsShape(now, e);
    hide RunActs, Mine, Theirs, Step;
    assert Theirs(trace, me) + [] == Theirs(trace, me);
  }

  lemma FollowsMeans(start: Pool, now: Pool, trace: seq<Act>, me: nat, others: nat -> seq<Act>, m: nat, own: seq<Event>)
    requires Follows(start, now, trace, me, others, m, own)
    ensures Valid(start) && Valid(now) && |now.keys| == |start.keys| && now == RunActs(start, trace)
  {
  }

  /** The others act. */
  method Interlude(pool: KeyPool, ghost start: Pool, me: nat, others: nat -> seq<Act>, m: nat, ghost trace: seq<Act>,
                   ghost own: seq<Event>)
      returns (ghost now: seq<Act>)
    requires Foreign(others, me) && Follows(start, pool.View(), trace, me, others, m, own)
    modifies pool
    ensures trace <= now && Follows(start, pool.View(), now, me, others, m + 1, own)
  {
    hide Step, RunActs, Follows, Foreign, Mine, Theirs, Moments;
    var acts := others(m);
    ghost var p := pool.View();
    now := trace + acts;
    FollowsOthers(start, p, trace, me, others, m, own);
    FollowsMeans(start, p, trace, me, others, m, own);
    NothingDone(p);
    assert acts[..0] == [];
    for i := 0 to |acts|
      invariant pool.View() == RunActs(p, acts[..i])
    {
      ActsKeepShape(p, acts[..i]);
      pool.Perform(acts[i].event);
      OneMoreAct(p, acts[..i], me, acts[i]);
      assert acts[..i + 1] == acts[..i] + [acts[i]];
    }
    assert acts[..|acts|] == acts;
  }

  /** One step of this request's own. */
  method Own(pool: KeyPool, ghost start: Pool, ghost me: nat, ghost others: nat -> seq<Act>, ghost m: nat, ghost trace: seq<Act>,
             ghost own: seq<Event>, e: Event)
      returns (ghost now: seq<Act>)
    requires Follows(start, pool.View(), trace, me, others, m, own)
    modifies pool
    ensures trace <= now && Follows(start, pool.View(), now, me, others, m, own + [e])
    ensures pool.View() == Step(old(pool.View()), e)
  {
    FollowsMeans(start, pool.View(), trace, me, others, m, own);
    FollowsOwn(start, pool.View(), trace, me, others, m, own, e);
    hide RunActs, Step, Follows;
    now := trace + [Act(me, e)];
    pool.Perform(e);
  }

  /** What the reply does to the pool. */
  method Judge(pool: KeyPool, ghost start: Pool, ghost me: nat, ghost others: nat -> seq<Act>, ghost m: nat, ghost trace: seq<Act>,
               ghost own: seq<Event>, index: nat, reply: Reply)
      returns (ghost now: seq<Act>)
    requires Follows(start, pool.View(), trace, me, others, m, own)
    modifies pool
    ensures trace <= now && Follows(start, pool.View(), now, me, others, m, own + Verdict(index, reply))
  {
    now := trace;
    hide Step, Follows;
    assert own + [] == own;
    match reply {
      case Success => now := Own(pool, start, me, others, m, trace, own, MarkSuccess(index));
      case RateLimited(Some(cooldown)) => now := Own(pool, start, me, others, m, trace, own, MarkHttp429(index, cooldown));
      case _ =>
    }
  }

  /** The lease of a probe is dropped. */
  method DropLease(pool: KeyPool, ghost start: Pool, ghost me: nat, ghost others: nat -> seq<Act>, ghost m: nat, ghost trace: seq<Act>,
                   ghost own: seq<Event>, index: nat, isProbe: bool, ghost retryAfter: Option<nat>)
      returns (ghost now: seq<Act>)
    requires Follows(start, pool.View(), trace, me, others, m, own) && IsEarliestRetry(pool.View(), retryAfter)
    modifies pool
    ensures trace <= now && Follows(start, pool.View(), now, me, others, m, own + Dropped(index, isProbe))
    ensures IsEarliestRetry(pool.View(), retryAfter)
  {
    now := trace;
    hide Follows, IsEarliestRetry;
    assert own + [] == own;
    if isProbe {
      ReleaseKeepsRetry(pool.View(), index, retryAfter);
      now := Own(pool, start, me, others, m, trace, own, ReleaseProbe(index));
    }
  }

  predicate Concluded(outcome: Outcome, attempts: seq<Attempt>, upstream: Upstream) {
    var n := |attempts|;
    match outcome
    case Answered(i, k) => n > 0 && k == n && i == attempts[n - 1].index && upstream(n - 1, i).Success?
    case HttpError(i, k) =>
      n > 0 && k == n && i == attempts[n - 1].index
      && (upstream(n - 1, i).OtherError? || upstream(n - 1, i) == RateLimited(None))
    case Transport => n > 0 && upstream(n - 1, attempts[n - 1].index).TransportError?
    case AllRateLimited(_) => AllConfirmed(attempts, upstream, n)
  }

  /** The first `n` attempts were all confirmed rate limits. */
  predicate AllConfirmed(attempts: seq<Attempt>, upstream: Upstream, n: nat)
    requires n <= |attempts|
  {
    forall j | 0 <= j < n :: Confirmed(upstream(j, attempts[j].index))
  }

  function OutcomeOf(index: nat, reply: Reply, attempt: nat, last: bool, retryAfter: Option<nat>): Option<Outcome> {
    match reply
    case Success => Some(Answered(index, attempt))
    case TransportError => Some(Transport)
    case OtherError => Some(HttpError(index, attempt))
    case RateLimited(None) => Some(HttpError(index, attempt))
    case RateLimited(Some(_)) => if last then Some(AllRateLimited(retryAfter)) else None
  }

  /** The keys tried so far were granted, are distinct, and are `attempted`. */
  ghost predicate Accounts(start: Pool, trace: seq<Act>, attempts: seq<Attempt>, attempted: set<nat>, me: nat) {
    && AllGranted(start, trace, attempts, me) && DistinctKeys(attempts)
    && attempted == Tried(attempts) && |attempted| == |attempts| && (forall i | i in attempted :: i < |start.keys|)
  }

  lemma ConfirmedOneMore(attempts: seq<Attempt>, a: Attempt, upstream: Upstream)
    requires AllConfirmed(attempts, upstream, |attempts|)
    ensures AllConfirmed(attempts + [a], upstream, |attempts|)
    ensures Confirmed(upstream(|attempts|, a.index)) ==> AllConfirmed(attempts + [a], upstream, |attempts| + 1)
  {
    hide Confirmed;
  }

  lemma Concludes(attempts: seq<Attempt>, a: Attempt, upstream: Upstream, last: bool, retryAfter: Option<nat>)
    requires AllConfirmed(attempts, upstream, |attempts|)
    ensures var o := OutcomeOf(a.index, upstream(|attempts|, a.index), |attempts| + 1, last, retryAfter);
            if o.Some? then Concluded(o.value, attempts + [a], upstream) && (o.value.AllRateLimited? ==> last && o.value.retryAfter == retryAfter)
            else AllConfirmed(attempts + [a], upstream, |attempts| + 1) && !last
  {
    ConfirmedOneMore(attempts, a, upstream);
    hide AllConfirmed;
  }

  /** The reply comes, is judged, and the lease is dropped, others acting in between. */
  method Exchange(pool: KeyPool, ghost start: Pool, me: nat, others: nat -> seq<Act>, m: nat, ghost trace: seq<Act>, ghost own: seq<Event>,
                  index: nat, isProbe: bool, reply: Reply)
      returns (ghost now: seq<Act>, retryAfter: Option<nat>)
    requires Foreign(others, me) && Follows(start, pool.View(), trace, me, others, m, own)
    modifies pool
    ensures trace <= now && IsEarliestRetry(pool.View(), retryAfter)
    ensures Follows(start, pool.View(), now, me, others, m + 2, own + Verdict(index, reply) + Dropped(index, isProbe))
  {
    hide *;
    now := Interlude(pool, start, me, others, m, trace, own);
    now := Judge(pool, start, me, others, m + 1, now, own, index, reply);
    now := Interlude(pool, start, me, others, m + 1, now, own + Verdict(index, reply));
    retryAfter := pool.EarliestRetryAfter();
    now := DropLease(pool, start, me, others, m + 2, now, own + Verdict(index, reply), index, isProbe, retryAfter);
  }

  lemma OneMoreTried(start: Pool, trace: seq<Act>, attempts: seq<Attempt>, attempted: set<nat>, me: nat, a: Attempt, now: seq<Act>)
    requires Valid(start) && Accounts(start, trace, attempts, attempted, me) && a.at == |trace|
    requires Granted(RunActs(start, trace), attempted) == Some(Grant(a.index, a.isProbe))
    requires trace + [Act(me, Select(attempted))] <= now
    ensures Accounts(start, now, attempts + [a], attempted + {a.index}, me)
  {
    var selected := trace + [Act(me, Select(attempted))];
    NewGrant(start, trace, attempts, me, Grant(a.index, a.isProbe));
    hide RunActs, Granted, Tried, AllGranted, DistinctKeys;
    assert now == selected + now[|selected|..];
    GrantsStay(start, selected, now[|selected|..], attempts + [a], me);
  }

  lemma SameOwn(attempts: seq<Attempt>, a: Attempt, attempted: set<nat>, upstream: Upstream)
    requires attempted == Tried(attempts)
    ensures OwnEvents(attempts, upstream) + [Select(attempted)] + Verdict(a.index, upstream(|attempts|, a.index))
            + Dropped(a.index, a.isProbe)
         == OwnEvents(attempts + [a], upstream)
  {
    OwnOneMore(attempts, a, upstream);
  }

  /** How an attempt that ended the request left things, and what holds when the request goes on. */
  ghost predicate Ends(done: Option<Outcome>, tried: seq<Attempt>, upstream: Upstream, now: Pool) {
    && tried != [] && AllConfirmed(tried, upstream, |tried| - 1)
    && if done.None? then AllConfirmed(tried, upstream, |tried|) && |tried| < |now.keys|
       else Concluded(done.value, tried, upstream)
            && (done.value.AllRateLimited? ==> |tried| == |now.keys| && IsEarliestRetry(now, done.value.retryAfter))
  }

  lemma AttemptEnds(attempts: seq<Attempt>, a: Attempt, upstream: Upstream, now: Pool, retryAfter: Option<nat>, done: Option<Outcome>)
    requires AllConfirmed(attempts, upstream, |attempts|) && IsEarliestRetry(now, retryAfter) && |attempts| + 1 <= |now.keys|
    requires done == OutcomeOf(a.index, upstream(|attempts|, a.index), |attempts| + 1, |attempts| + 1 >= |now.keys|, retryAfter)
    ensures Ends(done, attempts + [a], upstream, now)
  {
    hide AllConfirmed, Concluded, OutcomeOf, IsEarliestRetry;
    Concludes(attempts, a, upstream, |attempts| + 1 >= |now.keys|, retryAfter);
    ConfirmedOneMore(attempts, a, upstream);
  }

  /** What an attempt leaves behind, put together. */
  lemma AttemptDone(start: Pool, trace: seq<Act>, attempts: seq<Attempt>, attempted: set<nat>, me: nat, upstream: Upstream,
                    a: Attempt, after: seq<Act>, now: Pool, retryAfter: Option<nat>, done: Option<Outcome>)
    requires Valid(start) && Accounts(start, trace, attempts, attempted, me) && a.at == |trace|
    requires Granted(RunActs(start, trace), attempted) == Some(Grant(a.index, a.isProbe))
    requires trace + [Act(me, Select(attempted))] <= after && |now.keys| == |start.keys| && IsEarliestRetry(now, retryAfter)
    requires AllConfirmed(attempts, upstream, |attempts|)
    requires var k := |attempted + {a.index}|; done == OutcomeOf(a.index, upstream(|attempted|, a.index), k, k >= |now.keys|, retryAfter)
    ensures Accounts(start, after, attempts + [a], attempted + {a.index}, me) && Ends(done, attempts + [a], upstream, now)
  {
    hide *;
    AttemptedCount(start, trace, attempts, attempted, me);
    OneMoreTried(start, trace, attempts, attempted, me, a, after);
    AttemptedCount(start, after, attempts + [a], attempted + {a.index}, me);
    AttemptEnds(attempts, a, upstream, now, retryAfter, done);
  }

  /** One attempt with a granted key. */
  method TryKey(pool: KeyPool, ghost start: Pool, me: nat, others: nat -> seq<Act>, upstream: Upstream, m: nat, attempted: set<nat>,
                granted: Grant, ghost attempts: seq<Attempt>, ghost trace: seq<Act>, ghost selected: seq<Act>, ghost own: seq<Event>)
      returns (now: set<nat>, done: Option<Outcome>, ghost tried: seq<Attempt>, ghost after: seq<Act>, ghost ownAfter: seq<Event>)
    requires Foreign(others, me) && Accounts(start, trace, attempts, attempted, me) && AllConfirmed(attempts, upstream, |attempts|)
    requires Granted(RunActs(start, trace), attempted) == Some(granted) && own == OwnEvents(attempts, upstream)
    requires selected == trace + [Act(me, Select(attempted))]
    requires Follows(start, pool.View(), selected, me, others, m, own + [Select(attempted)])
    modifies pool
    ensures Follows(start, pool.View(), after, me, others, m + 2, ownAfter) && ownAfter == OwnEvents(tried, upstream)
    ensures Accounts(start, after, tried, now, me) && Ends(done, tried, upstream, pool.View()) && |tried| == |attempts| + 1
  {
    ghost var a := Attempt(granted.index, granted.isProbe, |trace|);
    AttemptedCount(start, trace, attempts, attempted, me);
    SameOwn(attempts, a, attempted, upstream);
    var index, isProbe := granted.index, granted.isProbe;
    hide *;
    var reply := upstream(|attempted|, index);
    var retryAfter;
    after, retryAfter := Exchange(pool, start, me, others, m, selected, own + [Select(attempted)], index, isProbe, reply);
    now := attempted + {index};
    tried := attempts + [a];
    ownAfter := OwnEvents(tried, upstream);
    FollowsMeans(start, pool.View(), after, me, others, m + 2, ownAfter);
    done := OutcomeOf(index, reply, |now|, |now| >= |pool.keys|, retryAfter);
    AttemptDone(start, trace, attempts, attempted, me, upstream, a, after, pool.View(), retryAfter, done);
  }

  lemma AttemptedCount(start: Pool, trace: seq<Act>, attempts: seq<Attempt>, attempted: set<nat>, me: nat)
    requires Accounts(start, trace, attempts, attempted, me)
    ensures |attempted| == |attempts| <= |start.keys| && attempted == Tried(attempts)
  {
    hide AllGranted, DistinctKeys, Tried;
    KeyCount(attempted, |start.keys|);
  }

  /**
   One logical request, against any upstream and any other users of the pool. It ends; it never tries a key twice;
   each key it tries is one that selection granted then; it goes on only after a confirmed rate limit; and what it
   does to the pool is exactly one selection per attempt, one verdict on a success or a confirmed rate limit, and
   the release of each probe it was granted.
   */
  method SendChat(pool: KeyPool, me: nat, others: nat -> seq<Act>, upstream: Upstream)
      returns (outcome: Outcome, ghost attempts: seq<Attempt>, ghost trace: seq<Act>, ghost own: seq<Event>, ghost moments: nat)
    requires Valid(pool.View()) && Foreign(others, me)
    modifies pool
    ensures Follows(old(pool.View()), pool.View(), trace, me, others, moments, own)
    ensures AllGranted(old(pool.View()), trace, attempts, me) && DistinctKeys(attempts) && |attempts| <= |pool.keys|
    ensures Finished(outcome, attempts, upstream, pool.View(), own)
  {
    ghost var start := pool.View();
    var attempted: set<nat> := {};
    attempts, trace, own, moments := [], [], [], 0;
    var m := 0;
    Begins(start, me, others, upstream);
    hide *;
    while true
      invariant m == moments && Follows(start, pool.View(), trace, me, others, m, own)
      invariant Accounts(start, trace, attempts, attempted, me) && AllConfirmed(attempts, upstream, |attempts|)
      invariant own == OwnEvents(attempts, upstream) && (attempts == [] || |attempts| < |start.keys|)
      decreases |start.keys| - |attempts|
    {
      ghost var p := pool.View();
      FollowsMeans(start, p, trace, me, others, m, own);
      FollowsOwn(start, p, trace, me, others, m, own, Select(attempted));
      SelectStep(p, attempted);
      ghost var selected := trace + [Act(me, Select(attempted))];
      var granted := pool.Select(attempted);
      if granted.None? {
        var retryAfter := pool.EarliestRetryAfter();
        Refuses(start, p, trace, attempts, attempted, me, upstream, retryAfter);
        return AllRateLimited(retryAfter), attempts, selected, own + [Select(attempted)], moments;
      }
      var done: Option<Outcome>;
      attempted, done, attempts, trace, own :=
        TryKey(pool, start, me, others, upstream, m, attempted, granted.value, attempts, trace, selected, own);
      m := m + 2;
      moments := m;
      FollowsMeans(start, pool.View(), trace, me, others, m, own);
      if done.Some? {
        Settles(start, trace, attempts, attempted, me, upstream, pool.View(), done.value);
        return done.value, attempts, trace, own, moments;
      }
      GoesOn(attempts, upstream, pool.View());
      ghost var before := trace;
      trace := Interlude(pool, start, me, others, m, trace, own);
      AccountsStay(start, before, trace, attempts, attempted, me);
      m := m + 1;
      moments := m;
    }
  }

  lemma SelectStep(p: Pool, attempted: set<nat>)
    ensures Step(p, Select(attempted)) == AfterSelect(p, attempted)
    ensures Granted(p, attempted).None? ==> AfterSelect(p, attempted) == p
  {
    hide Choice;
  }

  lemma GoesOn(tried: seq<Attempt>, upstream: Upstream, now: Pool)
    requires Ends(None, tried, upstream, now)
    ensures AllConfirmed(tried, upstream, |tried|) && |tried| < |now.keys|
  {
    hide AllConfirmed;
  }

  /** How a request ends: its outcome, its own events, and why nothing is left to try if it gives up. */
  ghost predicate Finished(outcome: Outcome, attempts: seq<Attempt>, upstream: Upstream, now: Pool, own: seq<Event>) {
    var refused := outcome.AllRateLimited? && (now.keys == [] || |attempts| < |now.keys|);
    && Concluded(outcome, attempts, upstream)
    && (attempts != [] ==> AllConfirmed(attempts, upstream, |attempts| - 1))
    && own == OwnEvents(attempts, upstream) + (if refused then [Select(Tried(attempts))] else [])
    && (outcome.AllRateLimited? ==>
         && IsEarliestRetry(now, outcome.retryAfter)
         && forall i | 0 <= i < |now.keys| && i !in Tried(attempts) :: IsCooling(now.keys[i], now.now))
  }

  lemma Settles(start: Pool, trace: seq<Act>, attempts: seq<Attempt>, attempted: set<nat>, me: nat, upstream: Upstream, now: Pool,
                outcome: Outcome)
    requires Accounts(start, trace, attempts, attempted, me) && Ends(Some(outcome), attempts, upstream, now)
    requires |now.keys| == |start.keys|
    ensures AllGranted(start, trace, attempts, me) && DistinctKeys(attempts) && |attempts| <= |start.keys|
    ensures Finished(outcome, attempts, upstream, now, OwnEvents(attempts, upstream))
  {
    AccountsMeans(start, trace, attempts, attempted, me);
    hide AllGranted, DistinctKeys, Tried, OwnEvents, IsEarliestRetry, Concluded, AllConfirmed, Accounts;
    assert OwnEvents(attempts, upstream) + [] == OwnEvents(attempts, upstream);
  }

  lemma Begins(start: Pool, me: nat, others: nat -> seq<Act>, upstream: Upstream)
    requires Valid(start)
    ensures Follows(start, start, [], me, others, 0, []) && Accounts(start, [], [], {}, me)
    ensures AllConfirmed([], upstream, 0) && OwnEvents([], upstream) == []
  {
  }

  lemma AccountsMeans(start: Pool, trace: seq<Act>, attempts: seq<Attempt>, attempted: set<nat>, me: nat)
    requires Accounts(start, trace, attempts, attempted, me)
    ensures AllGranted(start, trace, attempts, me) && DistinctKeys(attempts) && |attempts| <= |start.keys|
    ensures |attempts| == |start.keys| ==> forall i | 0 <= i < |start.keys| :: i in Tried(attempts)
  {
    hide AllGranted, DistinctKeys, Tried;
    KeyCount(attempted, |start.keys|);
  }

  lemma AccountsStay(start: Pool, trace: seq<Act>, now: seq<Act>, attempts: seq<Attempt>, attempted: set<nat>, me: nat)
    requires Accounts(start, trace, attempts, attempted, me) && trace <= now
    ensures Accounts(start, now, attempts, attempted, me)
  {
    hide AllGranted, DistinctKeys, Tried;
    assert now == trace + now[|trace|..];
    GrantsStay(start, trace, now[|trace|..], attempts, me);
  }

  /** Selection found nothing: every key not tried is cooling. */
  lemma Refuses(start: Pool, p: Pool, trace: seq<Act>, attempts: seq<Attempt>, attempted: set<nat>, me: nat, upstream: Upstream,
                retryAfter: Option<nat>)
    requires Valid(p) && |p.keys| == |start.keys| && Granted(p, attempted).None? && IsEarliestRetry(p, retryAfter)
    requires Accounts(start, trace, attempts, attempted, me) && AllConfirmed(attempts, upstream, |attempts|)
    requires attempts == [] || |attempts| < |start.keys|
    ensures AllGranted(start, trace + [Act(me, Select(attempted))], attempts, me) && DistinctKeys(attempts)
    ensures |attempts| <= |p.keys|
    ensures Finished(AllRateLimited(retryAfter), attempts, upstream, p, OwnEvents(attempts, upstream) + [Select(attempted)])
  {
    hide *;
    EmptyExactlyWhenCooling(p, attempted);
    AccountsMeans(start, trace, attempts, attempted, me);
    AttemptedCount(start, trace, attempts, attempted, me);
    GrantsStay(start, trace, [Act(me, Select(attempted))], attempts, me);
    GivesUp(p, attempts, upstream, retryAfter);
  }

  lemma GivesUp(p: Pool, attempts: seq<Attempt>, upstream: Upstream, retryAfter: Option<nat>)
    requires IsEarliestRetry(p, retryAfter) && AllConfirmed(attempts, upstream, |attempts|)
    requires forall i | 0 <= i < |p.keys| && i !in Tried(attempts) :: IsCooling(p.keys[i], p.now)
    requires p.keys == [] || |attempts| < |p.keys|
    ensures Finished(AllRateLimited(retryAfter), attempts, upstream, p, OwnEvents(attempts, upstream) + [Select(Tried(attempts))])
  {
    hide Tried, OwnEvents, IsEarliestRetry, IsCooling;
  }

  // ---- what a request does to the pool, event by event ----

  predicate RepliedWith(attempts: seq<Attempt>, upstream: Upstream, index: nat, reply: Reply) {
    exists j | 0 <= j < |attempts| :: attempts[j].index == index && upstream(j, index) == reply
  }

  predicate Probed(attempts: seq<Attempt>, index: nat) {
    exists j | 0 <= j < |attempts| :: attempts[j].index == index && attempts[j].isProbe
  }

  function SelectCount(events: seq<Event>): nat {
    if events == [] then 0 else SelectCount(events[..|events| - 1]) + if events[|events| - 1].Select? then 1 else 0
  }

  lemma {:induction false} SelectCountConcat(a: seq<Event>, b: seq<Event>)
    ensures SelectCount(a + b) == SelectCount(a) + SelectCount(b)
    decreases |b|
  {
    if b == [] {
      assert a + b == a;
    } else {
      SelectCountConcat(a, b[..|b| - 1]);
      assert (a + b)[..|a + b| - 1] == a + b[..|b| - 1];
    }
  }

  /** Each event with its reason. */
  ghost predicate Accounted(own: seq<Event>, attempts: seq<Attempt>, upstream: Upstream) {
    && (forall i :: MarkSuccess(i) in own <==> RepliedWith(attempts, upstream, i, Success))
    && (forall i, c :: MarkHttp429(i, c) in own <==> RepliedWith(attempts, upstream, i, RateLimited(Some(c))))
    && (forall i :: ReleaseProbe(i) in own <==> Probed(attempts, i))
    && SelectCount(own) == |attempts| && (forall e | e in own :: !e.Tick?)
  }

  /**
   Its events, each with its reason: a key is marked good exactly if it answered, limited exactly if it was confirmed
   limited and for the time it said, and released exactly if it was probed; there is one selection for each attempt;
   and the clock is left alone.
   */
  lemma {:induction false} OwnEventsMean(attempts: seq<Attempt>, upstream: Upstream)
    ensures Accounted(OwnEvents(attempts, upstream), attempts, upstream)
  {
    if attempts != [] {
      hide *;
      var n := |attempts| - 1;
      OwnEventsMean(attempts[..n], upstream);
      OwnEventsMore(attempts, upstream);
      AccountedMore(OwnEvents(attempts[..n], upstream), attempts, upstream);
    }
  }

  /** What a request does to the pool with one attempt. */
  function EventsOf(tried: set<nat>, a: Attempt, reply: Reply): seq<Event> {
    [Select(tried)] + Verdict(a.index, reply) + Dropped(a.index, a.isProbe)
  }

  lemma OwnEventsMore(attempts: seq<Attempt>, upstream: Upstream)
    requires attempts != []
    ensures var n := |attempts| - 1; var front, last := attempts[..n], attempts[n];
            OwnEvents(attempts, upstream) == OwnEvents(front, upstream) + EventsOf(Tried(front), last, upstream(n, last.index))
  {
    hide Verdict, Dropped, Tried;
  }

  lemma AccountedMore(own: seq<Event>, attempts: seq<Attempt>, upstream: Upstream)
    requires attempts != [] && Accounted(own, attempts[..|attempts| - 1], upstream)
    ensures var n := |attempts| - 1; var front, last := attempts[..n], attempts[n];
            Accounted(own + EventsOf(Tried(front), last, upstream(n, last.index)), attempts, upstream)
  {
    var n := |attempts| - 1;
    var front, last := attempts[..n], attempts[n];
    var more := EventsOf(Tried(front), last, upstream(n, last.index));
    SelectCountConcat(own, more);
    OneAttempt(Tried(front), last, upstream(n, last.index));
    hide EventsOf, SelectCount, Tried, RepliedWith, Probed;
    forall i, r ensures RepliedWith(attempts, upstream, i, r) <==> RepliedWith(front, upstream, i, r) || (last.index == i && upstream(n, i) == r) {
      RepliedMore(attempts, upstream, i, r);
    }
    forall i ensures Probed(attempts, i) <==> Probed(front, i) || (last.index == i && last.isProbe) {
      ProbedMore(attempts, i);
    }
  }

  lemma OneAttempt(tried: set<nat>, a: Attempt, reply: Reply)
    ensures var more := EventsOf(tried, a, reply);
            && (forall i :: MarkSuccess(i) in more <==> i == a.index && reply == Success)
            && (forall i, c :: MarkHttp429(i, c) in more <==> i == a.index && reply == RateLimited(Some(c)))
            && (forall i :: ReleaseProbe(i) in more <==> i == a.index && a.isProbe)
            && SelectCount(more) == 1 && (forall e | e in more :: !e.Tick?)
  {
    var verdict, dropped := Verdict(a.index, reply), Dropped(a.index, a.isProbe);
    SelectCountConcat([Select(tried)], verdict);
    SelectCountConcat([Select(tried)] + verdict, dropped);
    assert [Select(tried)][..0] == [] && SelectCount([Select(tried)]) == 1;
    assert verdict != [] ==> verdict[..0] == [] && SelectCount(verdict) == 0;
    assert dropped != [] ==> dropped[..0] == [] && SelectCount(dropped) == 0;
    hide SelectCount;
  }

  lemma RepliedMore(attempts: seq<Attempt>, upstream: Upstream, i: nat, r: Reply)
    requires attempts != []
    ensures var n := |attempts| - 1;
            RepliedWith(attempts, upstream, i, r)
            <==> RepliedWith(attempts[..n], upstream, i, r) || (attempts[n].index == i && upstream(n, i) == r)
  {
    var n := |attempts| - 1;
    if RepliedWith(attempts[..n], upstream, i, r) {
      var j :| 0 <= j < n && attempts[..n][j].index == i && upstream(j, i) == r;
      assert attempts[j].index == i;
    }
    if RepliedWith(attempts, upstream, i, r) {
      var j :| 0 <= j < |attempts| && attempts[j].index == i && upstream(j, i) == r;
      assert j < n ==> attempts[..n][j].index == i;
    }
  }

  lemma ProbedMore(attempts: seq<Attempt>, i: nat)
    requires attempts != []
    ensures var n := |attempts| - 1; Probed(attempts, i) <==> Probed(attempts[..n], i) || (attempts[n].index == i && attempts[n].isProbe)
  {
    var n := |attempts| - 1;
    if Probed(attempts[..n], i) {
      var j :| 0 <= j < n && attempts[..n][j].index == i && attempts[..n][j].isProbe;
      assert attempts[j].index == i;
    }
    if Probed(attempts, i) {
      var j :| 0 <= j < |attempts| && attempts[j].index == i && attempts[j].isProbe;
      assert j < n ==> attempts[..n][j].index == i;
    }
  }
}
