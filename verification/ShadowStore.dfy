/**
 The store that remembers, per session, the reasoning behind each tool call: entries expire, sessions are evicted
 under pressure, and running byte totals are kept beside the collections they summarise. string is counted in bytes.
 */
module ShadowStore {
  import opened Prelude

  /** The length of a text in UTF-8. */
  function Bytes(text: string): nat {
    if text == "" then 0 else Bytes(text[..|text| - 1]) + Utf8Length(text[|text| - 1])
  }

  function Utf8Length(c: char): nat {
    if c < '\U{80}' then 1 else if c < '\U{800}' then 2 else if c < '\U{10000}' then 3 else 4
  }

  datatype Entry = Entry(reasoning: string, created: nat)

  datatype Session = Session(entries: map<string, Entry>, bytes: nat)

  datatype Limits = Limits(maxSessions: nat, maxTotalBytes: nat, maxEntryBytes: nat, ttl: nat)

  datatype Store = Store(sessions: map<string, Session>, lru: seq<string>, totalBytes: nat)

  const EMPTY: Store := Store(map[], [], 0)

  predicate Expired(e: Entry, now: nat, ttl: nat) {
    SaturatingSub(now, e.created) > ttl
  }

  predicate AllExpired(s: Session, now: nat, ttl: nat) {
    forall id | id in s.entries :: Expired(s.entries[id], now, ttl)
  }

  // ---- storing ----

  function InsertAll(entries: map<string, Entry>, ids: seq<string>, e: Entry): map<string, Entry> {
    if ids == [] then entries else InsertAll(entries, ids[..|ids| - 1], e)[ids[|ids| - 1] := e]
  }

  function SessionOf(s: Store, name: string): Session {
    if name in s.sessions then s.sessions[name] else Session(map[], 0)
  }

  function Inserted(s: Store, name: string, ids: seq<string>, reasoning: string, now: nat): Store {
    var old_ := SessionOf(s, name);
    var added := |ids| * Bytes(reasoning);
    Store(s.sessions[name := Session(InsertAll(old_.entries, ids, Entry(reasoning, now)), old_.bytes + added)],
          if name in s.sessions then s.lru else s.lru + [name],
          s.totalBytes + added)
  }

  predicate Accepted(ids: seq<string>, reasoning: string, limits: Limits) {
    reasoning != "" && ids != [] && Bytes(reasoning) <= limits.maxEntryBytes
  }

  // ---- limits ----

  function Sum(sessions: map<string, Session>, names: seq<string>): nat {
    if names == [] then 0
    else (if names[0] in sessions then sessions[names[0]].bytes else 0) + Sum(sessions, names[1..])
  }

  function Keep(names: seq<string>, gone: set<string>): seq<string> {
    if names == [] then []
    else (if names[0] in gone then [] else [names[0]]) + Keep(names[1..], gone)
  }

  function Stale(s: Store, now: nat, ttl: nat): set<string> {
    set name | name in s.sessions && AllExpired(s.sessions[name], now, ttl)
  }

  /** The store without some sessions. */
  function Without(s: Store, gone: set<string>): Store {
    Store(s.sessions - gone, Keep(s.lru, gone), Sum(s.sessions - gone, Keep(s.lru, gone)))
  }

  function Popped(s: Store): Store
    requires s.lru != []
  {
    var victim := s.lru[0];
    Store(s.sessions - {victim}, s.lru[1..],
          if victim in s.sessions then SaturatingSub(s.totalBytes, s.sessions[victim].bytes) else s.totalBytes)
  }

  function BytesEvicted(s: Store, max: nat): Store
    decreases |s.lru|
  {
    if s.totalBytes > max && s.lru != [] then BytesEvicted(Popped(s), max) else s
  }

  function CountEvicted(s: Store, max: nat): Store
    decreases |s.lru|
  {
    if |s.sessions| > max && s.lru != [] then CountEvicted(Popped(s), max) else s
  }

  function Enforced(s: Store, limits: Limits, now: nat): Store {
    CountEvicted(BytesEvicted(Without(s, Stale(s, now, limits.ttl)), limits.maxTotalBytes), limits.maxSessions)
  }

  function Stored(s: Store, limits: Limits, name: string, ids: seq<string>, reasoning: string, now: nat): Store {
    if Accepted(ids, reasoning, limits) then Enforced(Inserted(s, name, ids, reasoning, now), limits, now) else s
  }

  // ---- reading and clearing ----

  /** The first id the session has an entry for. */
  function FirstHeld(entries: map<string, Entry>, ids: seq<string>): (r: Option<string>)
    ensures r.Some? ==> r.value in ids && r.value in entries
    ensures r.None? ==> forall id | id in ids :: id !in entries
  {
    if ids == [] then None
    else if ids[0] in entries then Some(ids[0])
    else FirstHeld(entries, ids[1..])
  }

  datatype Lookup = Lookup(store: Store, hit: Option<string>)

  function Restored(s: Store, limits: Limits, name: string, ids: seq<string>, now: nat): Lookup {
    if name !in s.sessions then Lookup(s, None)
    else
      var session := s.sessions[name];
      var id := FirstHeld(session.entries, ids);
      if id.None? then Lookup(s, None)
      else if Expired(session.entries[id.value], now, limits.ttl) then
        Lookup(s.(sessions := s.sessions[name := session.(entries := session.entries - {id.value})]), None)
      else Lookup(s, Some(session.entries[id.value].reasoning))
  }

  function Cleared(s: Store, name: string): Store {
    if name in s.sessions then
      Store(s.sessions - {name}, Keep(s.lru, {name}), SaturatingSub(s.totalBytes, s.sessions[name].bytes))
    else s
  }

  // ---- accounting ----

  /** The bytes a session really holds. */
  ghost function Content(entries: map<string, Entry>): nat {
    if entries == map[] then 0
    else
      var id :| id in entries;
      Bytes(entries[id].reasoning) + Content(entries - {id})
  }

  predicate DistinctNames(names: seq<string>) {
    forall i, j | 0 <= i < j < |names| :: names[i] != names[j]
  }

  ghost predicate Bounded(s: Session) {
    Content(s.entries) <= s.bytes
  }

  /** The order lists each live session once, and the totals are right. */
  ghost predicate Valid(s: Store) {
    && DistinctNames(s.lru)
    && (forall name :: name in s.lru <==> name in s.sessions)
    && s.totalBytes == Sum(s.sessions, s.lru)
    && (forall name | name in s.sessions :: Bounded(s.sessions[name]))
  }

  lemma {:induction false} ContentPick(entries: map<string, Entry>, id: string)
    requires id in entries
    ensures Content(entries) == Bytes(entries[id].reasoning) + Content(entries - {id})
    decreases |entries|
  {
    var pick :| pick in entries && Content(entries) == Bytes(entries[pick].reasoning) + Content(entries - {pick});
    if pick != id {
      ContentPick(entries - {pick}, id);
      ContentPick(entries - {id}, pick);
      assert entries - {pick} - {id} == entries - {id} - {pick};
    }
  }

  lemma ContentInsert(entries: map<string, Entry>, id: string, e: Entry)
    ensures Content(entries[id := e]) <= Content(entries) + Bytes(e.reasoning)
  {
    var more := entries[id := e];
    ContentPick(more, id);
    if id in entries {
      ContentPick(entries, id);
      assert more - {id} == entries - {id};
    } else {
      assert more - {id} == entries;
    }
  }

  lemma {:induction false} ContentInsertAll(entries: map<string, Entry>, ids: seq<string>, e: Entry)
    ensures Content(InsertAll(entries, ids, e)) <= Content(entries) + |ids| * Bytes(e.reasoning)
  {
    if ids != [] {
      var n := |ids| - 1;
      ContentInsertAll(entries, ids[..n], e);
      ContentInsert(InsertAll(entries, ids[..n], e), ids[n], e);
      assert |ids| * Bytes(e.reasoning) == n * Bytes(e.reasoning) + Bytes(e.reasoning);
    }
  }

  lemma {:induction false} SumAgrees(a: map<string, Session>, b: map<string, Session>, names: seq<string>)
    requires forall name | name in names :: name in a && name in b && a[name].bytes == b[name].bytes
    ensures Sum(a, names) == Sum(b, names)
  {
    if names != [] {
      SumAgrees(a, b, names[1..]);
    }
  }

  lemma {:induction false} SumConcat(sessions: map<string, Session>, a: seq<string>, b: seq<string>)
    ensures Sum(sessions, a + b) == Sum(sessions, a) + Sum(sessions, b)
  {
    if a == [] {
      assert a + b == b;
    } else {
      SumConcat(sessions, a[1..], b);
      assert (a + b)[1..] == a[1..] + b;
    }
  }

  lemma {:induction false} SumUpdate(sessions: map<string, Session>, names: seq<string>, name: string, t: Session)
    requires DistinctNames(names) && name in names && forall n | n in names :: n in sessions
    ensures Sum(sessions[name := t], names) + sessions[name].bytes == Sum(sessions, names) + t.bytes
  {
    var rest := names[1..];
    if names[0] == name {
      SumAgrees(sessions[name := t], sessions, rest);
    } else {
      SumUpdate(sessions, rest, name, t);
    }
  }

  lemma InsertKeeps(s: Store, name: string, ids: seq<string>, reasoning: string, now: nat)
    requires Valid(s)
    ensures Valid(Inserted(s, name, ids, reasoning, now))
  {
    var t := Inserted(s, name, ids, reasoning, now);
    var e := Entry(reasoning, now);
    ContentInsertAll(SessionOf(s, name).entries, ids, e);
    hide InsertAll, Content;
    assert Bounded(t.sessions[name]) by { NothingHeld(); }
    hide Bounded;
    if name in s.sessions {
      SumUpdate(s.sessions, s.lru, name, t.sessions[name]);
    } else {
      SumConcat(t.sessions, s.lru, [name]);
      SumAgrees(t.sessions, s.sessions, s.lru);
      assert Sum(t.sessions, [name]) == t.sessions[name].bytes;
    }
  }

  lemma NothingHeld()
    ensures Content(map[]) == 0
  {
  }

  lemma {:induction false} KeepMeans(names: seq<string>, gone: set<string>)
    ensures forall n :: n in Keep(names, gone) <==> n in names && n !in gone
    ensures DistinctNames(names) ==> DistinctNames(Keep(names, gone))
  {
    if names != [] {
      KeepMeans(names[1..], gone);
      assert names == [names[0]] + names[1..];
      if DistinctNames(names) && names[0] !in gone {
        var k := Keep(names, gone);
        assert k[1..] == Keep(names[1..], gone);
        forall i, j | 0 <= i < j < |k| ensures k[i] != k[j] {
          assert k[j] in k[1..] && (i > 0 ==> k[i] == k[1..][i - 1] && k[j] == k[1..][j - 1]);
        }
      }
    }
  }

  lemma WithoutKeeps(s: Store, gone: set<string>)
    requires Valid(s)
    ensures Valid(Without(s, gone))
  {
    KeepMeans(s.lru, gone);
  }

  lemma PopNames(s: Store)
    requires Valid(s) && s.lru != []
    ensures s.lru[0] in s.sessions && DistinctNames(s.lru[1..])
    ensures forall n :: n in s.lru[1..] <==> n in s.sessions - {s.lru[0]}
  {
    hide Sum, Bounded;
    var victim, rest := s.lru[0], s.lru[1..];
    assert s.lru == [victim] + rest;
    forall n ensures n in rest <==> n in s.sessions - {victim} {
      assert n in s.lru <==> n == victim || n in rest;
    }
  }

  lemma PopSum(s: Store)
    requires Valid(s) && s.lru != []
    ensures var rest := s.lru[1..];
            && s.totalBytes == s.sessions[s.lru[0]].bytes + Sum(s.sessions, rest)
            && Sum(s.sessions - {s.lru[0]}, rest) == Sum(s.sessions, rest)
  {
    PopNames(s);
    SumAgrees(s.sessions - {s.lru[0]}, s.sessions, s.lru[1..]);
    hide Bounded;
  }

  lemma PopKeeps(s: Store)
    requires Valid(s) && s.lru != []
    ensures Valid(Popped(s)) && |Popped(s).lru| == |s.lru| - 1
    ensures Popped(s).totalBytes == Sum(s.sessions, s.lru[1..]) && Popped(s).sessions == s.sessions - {s.lru[0]}
  {
    PopNames(s);
    PopSum(s);
    hide Sum, Bounded, DistinctNames;
  }

  // ---- eviction ----

  function Names(names: seq<string>): set<string> {
    set n | n in names
  }

  /** The store after its `k` oldest sessions are gone. */
  function Trimmed(s: Store, k: nat): Store
    requires k <= |s.lru|
  {
    Store(s.sessions - Names(s.lru[..k]), s.lru[k..], Sum(s.sessions, s.lru[k..]))
  }

  lemma PopPrefix(sessions: map<string, Session>, names: seq<string>, k: nat)
    requires k < |names|
    ensures names[1..][k..] == names[k + 1..]
    ensures sessions - {names[0]} - Names(names[1..][..k]) == sessions - Names(names[..k + 1])
  {
    assert names[..k + 1] == [names[0]] + names[1..][..k];
  }

  lemma PopTailSum(s: Store, k: nat)
    requires Valid(s) && s.lru != [] && k < |s.lru|
    ensures Sum(s.sessions - {s.lru[0]}, s.lru[k + 1..]) == Sum(s.sessions, s.lru[k + 1..])
  {
    PopNames(s);
    hide Valid, Sum;
    forall n | n in s.lru[k + 1..] ensures n in s.sessions - {s.lru[0]} {
      assert n in s.lru[1..];
    }
    SumAgrees(s.sessions - {s.lru[0]}, s.sessions, s.lru[k + 1..]);
  }

  lemma TrimmedPop(s: Store, k: nat)
    requires Valid(s) && s.lru != [] && k < |s.lru|
    ensures k <= |Popped(s).lru| && Trimmed(Popped(s), k) == Trimmed(s, k + 1)
    ensures Sum(Popped(s).sessions, Popped(s).lru[k..]) == Sum(s.sessions, s.lru[k + 1..])
  {
    PopKeeps(s);
    assert Popped(s).lru == s.lru[1..];
    hide Valid, Sum, Popped, Names;
    PopPrefix(s.sessions, s.lru, k);
    PopTailSum(s, k);
  }

  lemma TrimmedNone(s: Store)
    requires Valid(s)
    ensures Trimmed(s, 0) == s && s.lru[0..] == s.lru
  {
    assert s.lru[0..] == s.lru && Names(s.lru[..0]) == {};
  }

  /** More than `max` bytes are left after the `j` oldest sessions are gone. */
  predicate Over(s: Store, j: nat, max: nat) {
    j <= |s.lru| && Sum(s.sessions, s.lru[j..]) > max
  }

  lemma OverPop(s: Store, j: nat, max: nat)
    requires Valid(s) && s.lru != [] && j < |s.lru|
    ensures Over(Popped(s), j, max) <==> Over(s, j + 1, max)
  {
    TrimmedPop(s, j);
    PopKeeps(s);
  }

  lemma BytesStep(s: Store, max: nat)
    requires Valid(s)
    ensures BytesEvicted(s, max) == if Over(s, 0, max) then BytesEvicted(Popped(s), max) else s
    ensures Over(s, 0, max) ==> s.lru != []
  {
    assert s.lru[0..] == s.lru;
  }

  /** More than `max` bytes are left as long as fewer than `k` sessions are gone. */
  predicate OverUntil(s: Store, k: nat, max: nat) {
    k <= |s.lru| && !Over(s, k, max) && forall j | 0 <= j < k :: Over(s, j, max)
  }

  lemma OverUntilPop(s: Store, k: nat, max: nat)
    requires Valid(s) && s.lru != [] && Over(s, 0, max) && OverUntil(Popped(s), k, max) && k < |s.lru|
    ensures OverUntil(s, k + 1, max)
  {
    hide Valid, Popped, Over;
    OverPop(s, k, max);
    forall j | 0 < j < k + 1 ensures Over(s, j, max) {
      OverPop(s, j - 1, max);
    }
  }

  lemma {:induction false} BytesEvictedIs(s: Store, max: nat) returns (k: nat)
    requires Valid(s)
    ensures OverUntil(s, k, max) && k <= |s.lru| && BytesEvicted(s, max) == Trimmed(s, k)
    decreases |s.lru|
  {
    BytesStep(s, max);
    k := 0;
    if Over(s, 0, max) {
      hide *;
      PopKeeps(s);
      var inner := BytesEvictedIs(Popped(s), max);
      k := inner + 1;
      TrimmedPop(s, inner);
      OverUntilPop(s, inner, max);
    } else {
      TrimmedNone(s);
    }
  }

  lemma {:induction false} DistinctCount(names: seq<string>)
    requires DistinctNames(names)
    ensures |Names(names)| == |names|
  {
    if names != [] {
      var n := |names| - 1;
      DistinctCount(names[..n]);
      assert Names(names) == Names(names[..n]) + {names[n]};
    }
  }

  lemma SessionCount(s: Store)
    requires Valid(s)
    ensures |s.sessions| == |s.lru|
  {
    DistinctCount(s.lru);
    assert s.sessions.Keys == Names(s.lru);
  }

  lemma CountStep(s: Store, max: nat)
    requires |s.sessions| == |s.lru|
    ensures CountEvicted(s, max) == if |s.lru| > max then CountEvicted(Popped(s), max) else s
  {
  }

  lemma {:induction false} CountEvictedIs(s: Store, max: nat) returns (k: nat)
    requires Valid(s)
    ensures k <= |s.lru| && CountEvicted(s, max) == Trimmed(s, k) && |s.lru| - k <= max
    ensures k == 0 || |s.lru| - (k - 1) > max
    decreases |s.lru|
  {
    hide *;
    SessionCount(s);
    CountStep(s, max);
    k := 0;
    if |s.lru| > max {
      PopKeeps(s);
      var inner := CountEvictedIs(Popped(s), max);
      k := inner + 1;
      TrimmedPop(s, inner);
    } else {
      TrimmedNone(s);
    }
  }

  lemma {:induction false} TrimmedKeeps(s: Store, k: nat)
    requires Valid(s) && k <= |s.lru|
    ensures Valid(Trimmed(s, k))
    decreases k
  {
    TrimmedNone(s);
    hide Valid, Sum;
    if k > 0 {
      PopKeeps(s);
      TrimmedPop(s, k - 1);
      TrimmedKeeps(Popped(s), k - 1);
    }
  }

  lemma TrimmedTwice(s: Store, a: nat, b: nat)
    requires Valid(s) && a <= |s.lru| && b <= |s.lru| - a
    ensures Trimmed(Trimmed(s, a), b) == Trimmed(s, a + b)
  {
    var t := Trimmed(s, a);
    assert s.lru[a..][b..] == s.lru[a + b..];
    assert s.lru[..a + b] == s.lru[..a] + s.lru[a..][..b];
    assert s.sessions - Names(s.lru[..a]) - Names(s.lru[a..][..b]) == s.sessions - Names(s.lru[..a + b]);
    forall n | n in s.lru[a + b..] ensures n in t.sessions {
      assert n in s.lru[a..];
      Apart(s.lru, a, n);
    }
    SumAgrees(t.sessions, s.sessions, s.lru[a + b..]);
  }

  lemma Apart(names: seq<string>, a: nat, n: string)
    requires DistinctNames(names) && a <= |names| && n in names[a..]
    ensures n !in names[..a]
  {
  }

  /** Both limits hold once the `k` oldest sessions are gone. */
  predicate Suffices(s: Store, limits: Limits, k: nat) {
    k <= |s.lru| && !Over(s, k, limits.maxTotalBytes) && |s.lru| - k <= limits.maxSessions
  }

  lemma {:induction false} PressureIsShortest(w: Store, limits: Limits) returns (k: nat)
    requires Valid(w)
    ensures k <= |w.lru| && CountEvicted(BytesEvicted(w, limits.maxTotalBytes), limits.maxSessions) == Trimmed(w, k)
    ensures Suffices(w, limits, k) && forall j | 0 <= j < k :: !Suffices(w, limits, j)
  {
    hide Valid, BytesEvicted, CountEvicted, Over;
    var a := BytesEvictedIs(w, limits.maxTotalBytes);
    TrimmedKeeps(w, a);
    var b := CountEvictedIs(Trimmed(w, a), limits.maxSessions);
    TrimmedTwice(w, a, b);
    hide Trimmed;
    k := a + b;
    NotOver(w, a, k, limits.maxTotalBytes);
    forall j | 0 <= j < k ensures !Suffices(w, limits, j) {
      assert j < a ==> Over(w, j, limits.maxTotalBytes);
    }
  }

  /**
   Enforcing the limits drops the sessions with nothing live in them, then the shortest run of oldest sessions
   after which both limits hold; the accounting stays right.
   */
  lemma EnforcedIsShortest(s: Store, limits: Limits, now: nat) returns (k: nat)
    requires Valid(s)
    ensures var w := Without(s, Stale(s, now, limits.ttl));
            && k <= |w.lru| && Enforced(s, limits, now) == Trimmed(w, k)
            && Suffices(w, limits, k) && forall j | 0 <= j < k :: !Suffices(w, limits, j)
    ensures Valid(Enforced(s, limits, now))
    ensures Enforced(s, limits, now).totalBytes <= limits.maxTotalBytes && |Enforced(s, limits, now).sessions| <= limits.maxSessions
  {
    var w := Without(s, Stale(s, now, limits.ttl));
    WithoutKeeps(s, Stale(s, now, limits.ttl));
    hide Valid, BytesEvicted, CountEvicted, Without, Stale, Names, Sum;
    k := PressureIsShortest(w, limits);
    TrimmedKeeps(w, k);
    SessionCount(Trimmed(w, k));
  }

  lemma NotOver(s: Store, a: nat, b: nat, max: nat)
    requires a <= b <= |s.lru| && !Over(s, a, max)
    ensures !Over(s, b, max)
  {
    ShorterSum(s, a, b);
  }

  lemma ShorterSum(s: Store, a: nat, b: nat)
    requires a <= b <= |s.lru|
    ensures Sum(s.sessions, s.lru[b..]) <= Sum(s.sessions, s.lru[a..])
  {
    SumConcat(s.sessions, s.lru[a..b], s.lru[b..]);
    assert s.lru[a..] == s.lru[a..b] + s.lru[b..];
  }

  lemma StoredKeeps(s: Store, limits: Limits, name: string, ids: seq<string>, reasoning: string, now: nat)
    requires Valid(s)
    ensures Valid(Stored(s, limits, name, ids, reasoning, now))
  {
    hide Valid, Inserted, Enforced;
    if Accepted(ids, reasoning, limits) {
      InsertKeeps(s, name, ids, reasoning, now);
      var _ := EnforcedIsShortest(Inserted(s, name, ids, reasoning, now), limits, now);
    }
  }

  lemma ClearedIsWithout(s: Store, name: string)
    requires Valid(s)
    ensures name in s.sessions ==> Cleared(s, name) == Without(s, {name})
    ensures Valid(Cleared(s, name))
  {
    if name in s.sessions {
      WithoutKeeps(s, {name});
      SumWithout(s.sessions, s.lru, name);
    }
  }

  lemma SumCons(sessions: map<string, Session>, name: string, names: seq<string>)
    requires name in sessions
    ensures Sum(sessions, [name] + names) == sessions[name].bytes + Sum(sessions, names)
  {
    assert ([name] + names)[1..] == names;
  }

  lemma {:induction false} SumWithout(sessions: map<string, Session>, names: seq<string>, name: string)
    requires DistinctNames(names) && (forall n | n in names :: n in sessions) && name in sessions
    ensures Sum(sessions, names) == Sum(sessions - {name}, Keep(names, {name})) + if name in names then sessions[name].bytes else 0
  {
    if names != [] {
      var first, rest := names[0], names[1..];
      SumWithout(sessions, rest, name);
      assert names == [first] + rest;
      SumCons(sessions, first, rest);
      if first != name {
        SumCons(sessions - {name}, first, Keep(rest, {name}));
      } else {
        assert [] + Keep(rest, {name}) == Keep(rest, {name});
      }
    }
  }

  lemma RestoredKeeps(s: Store, limits: Limits, name: string, ids: seq<string>, now: nat)
    requires Valid(s)
    ensures Valid(Restored(s, limits, name, ids, now).store)
  {
    var t := Restored(s, limits, name, ids, now).store;
    if t != s {
      var session := s.sessions[name];
      var id := FirstHeld(session.entries, ids).value;
      ContentPick(session.entries, id);
      hide Content, FirstHeld;
      assert Bounded(t.sessions[name]);
      SumUpdate(s.sessions, s.lru, name, t.sessions[name]);
    }
  }

  // ---- runs and the plain log ----

  datatype Op =
    | StoreOp(name: string, ids: seq<string>, reasoning: string, now: nat)
    | RestoreOp(name: string, ids: seq<string>, now: nat)
    | ClearOp(name: string)

  function Applied(s: Store, limits: Limits, op: Op): Store {
    match op
    case StoreOp(name, ids, reasoning, now) => Stored(s, limits, name, ids, reasoning, now)
    case RestoreOp(name, ids, now) => Restored(s, limits, name, ids, now).store
    case ClearOp(name) => Cleared(s, name)
  }

  function Run(limits: Limits, ops: seq<Op>): Store {
    if ops == [] then EMPTY else Applied(Run(limits, ops[..|ops| - 1]), limits, ops[|ops| - 1])
  }

  lemma AppliedKeeps(s: Store, limits: Limits, op: Op)
    requires Valid(s)
    ensures Valid(Applied(s, limits, op))
  {
    hide Valid, Stored, Restored, Cleared;
    match op {
      case StoreOp(name, ids, reasoning, now) => StoredKeeps(s, limits, name, ids, reasoning, now);
      case RestoreOp(name, ids, now) => RestoredKeeps(s, limits, name, ids, now);
      case ClearOp(name) => ClearedIsWithout(s, name);
    }
  }

  /** In every reachable store the totals and the order are right. */
  lemma {:induction false} RunKeeps(limits: Limits, ops: seq<Op>)
    ensures Valid(Run(limits, ops))
  {
    hide Applied;
    if ops != [] {
      RunKeeps(limits, ops[..|ops| - 1]);
      AppliedKeeps(Run(limits, ops[..|ops| - 1]), limits, ops[|ops| - 1]);
    }
  }

  /** What a plain log of the operations says about a call id: the last accepted store since the last clear. */
  function Latest(limits: Limits, ops: seq<Op>, name: string, id: string): Option<Entry> {
    if ops == [] then None
    else
      var op := ops[|ops| - 1];
      if op.name == name && op.ClearOp? then None
      else if op.name == name && op.StoreOp? && Accepted(op.ids, op.reasoning, limits) && id in op.ids then
        Some(Entry(op.reasoning, op.now))
      else Latest(limits, ops[..|ops| - 1], name, id)
  }

  /** A store whose sessions are all unchanged ones of another. */
  predicate OnlyLost(before: Store, after: Store) {
    forall name | name in after.sessions :: name in before.sessions && after.sessions[name] == before.sessions[name]
  }

  lemma EnforcedOnlyLoses(s: Store, limits: Limits, now: nat)
    requires Valid(s)
    ensures OnlyLost(s, Enforced(s, limits, now))
  {
    var k := EnforcedIsShortest(s, limits, now);
    hide Enforced, Sum;
  }

  lemma {:induction false} InsertAllAt(entries: map<string, Entry>, ids: seq<string>, e: Entry, id: string)
    ensures id in ids ==> id in InsertAll(entries, ids, e) && InsertAll(entries, ids, e)[id] == e
    ensures id !in ids ==> (id in InsertAll(entries, ids, e) <==> id in entries)
    ensures id !in ids && id in entries ==> InsertAll(entries, ids, e)[id] == entries[id]
  {
    if ids != [] {
      var n := |ids| - 1;
      InsertAllAt(entries, ids[..n], e, id);
      assert ids == ids[..n] + [ids[n]];
    }
  }

  predicate Logged(limits: Limits, ops: seq<Op>, name: string, entries: map<string, Entry>) {
    forall id | id in entries :: Latest(limits, ops, name, id) == Some(entries[id])
  }

  predicate AllLogged(limits: Limits, ops: seq<Op>, s: Store) {
    forall name | name in s.sessions :: Logged(limits, ops, name, s.sessions[name].entries)
  }

  lemma LatestSkips(limits: Limits, ops: seq<Op>, name: string, entries: map<string, Entry>)
    requires ops != [] && Logged(limits, ops[..|ops| - 1], name, entries)
    requires ops[|ops| - 1].name != name || ops[|ops| - 1].RestoreOp?
    ensures Logged(limits, ops, name, entries)
  {
  }

  lemma StoreLogged(limits: Limits, ops: seq<Op>, s: Store)
    requires ops != [] && ops[|ops| - 1].StoreOp? && AllLogged(limits, ops[..|ops| - 1], s)
    requires var op := ops[|ops| - 1]; Accepted(op.ids, op.reasoning, limits)
    ensures var op := ops[|ops| - 1]; AllLogged(limits, ops, Inserted(s, op.name, op.ids, op.reasoning, op.now))
  {
    var op := ops[|ops| - 1];
    var t := Inserted(s, op.name, op.ids, op.reasoning, op.now);
    var e := Entry(op.reasoning, op.now);
    forall name | name in t.sessions ensures Logged(limits, ops, name, t.sessions[name].entries) {
      if name != op.name {
        LatestSkips(limits, ops, name, t.sessions[name].entries);
      } else {
        var was := SessionOf(s, name).entries;
        assert Logged(limits, ops[..|ops| - 1], name, was);
        forall id | id in t.sessions[name].entries ensures Latest(limits, ops, name, id) == Some(t.sessions[name].entries[id]) {
          InsertAllAt(was, op.ids, e, id);
        }
      }
    }
  }

  /** Everything a reachable store holds is what the plain log says. */
  lemma {:induction false} EntriesAreLatest(limits: Limits, ops: seq<Op>)
    ensures AllLogged(limits, ops, Run(limits, ops))
  {
    if ops != [] {
      var before, op := ops[..|ops| - 1], ops[|ops| - 1];
      var s := Run(limits, before);
      EntriesAreLatest(limits, before);
      RunKeeps(limits, before);
      hide Run, Valid, Enforced, Inserted;
      if op.StoreOp? {
        StoreAppliedLogged(limits, ops, s);
      } else {
        LossLogged(limits, ops, s);
      }
      assert Run(limits, ops) == Applied(s, limits, op) by { LastRun(limits, ops); }
    }
  }

  lemma LastRun(limits: Limits, ops: seq<Op>)
    requires ops != []
    ensures Run(limits, ops) == Applied(Run(limits, ops[..|ops| - 1]), limits, ops[|ops| - 1])
  {
    hide Applied;
  }

  lemma StoreAppliedLogged(limits: Limits, ops: seq<Op>, s: Store)
    requires ops != [] && ops[|ops| - 1].StoreOp? && AllLogged(limits, ops[..|ops| - 1], s) && Valid(s)
    ensures AllLogged(limits, ops, Applied(s, limits, ops[|ops| - 1]))
  {
    var op := ops[|ops| - 1];
    hide Inserted, Enforced, Valid, Logged;
    if Accepted(op.ids, op.reasoning, limits) {
      StoreLogged(limits, ops, s);
      InsertKeeps(s, op.name, op.ids, op.reasoning, op.now);
      EnforcedOnlyLoses(Inserted(s, op.name, op.ids, op.reasoning, op.now), limits, op.now);
    } else {
      forall name | name in s.sessions ensures Logged(limits, ops, name, s.sessions[name].entries) {
        RefusedLogged(limits, ops, name, s.sessions[name].entries);
      }
    }
  }

  lemma RefusedLogged(limits: Limits, ops: seq<Op>, name: string, entries: map<string, Entry>)
    requires ops != [] && ops[|ops| - 1].StoreOp? && Logged(limits, ops[..|ops| - 1], name, entries)
    requires !Accepted(ops[|ops| - 1].ids, ops[|ops| - 1].reasoning, limits)
    ensures Logged(limits, ops, name, entries)
  {
  }

  lemma LossLogged(limits: Limits, ops: seq<Op>, s: Store)
    requires ops != [] && !ops[|ops| - 1].StoreOp? && AllLogged(limits, ops[..|ops| - 1], s)
    ensures AllLogged(limits, ops, Applied(s, limits, ops[|ops| - 1]))
  {
    var op := ops[|ops| - 1];
    var t := Applied(s, limits, op);
    forall name | name in t.sessions ensures Logged(limits, ops, name, t.sessions[name].entries) {
      assert Logged(limits, ops[..|ops| - 1], name, s.sessions[name].entries);
      assert Logged(limits, ops[..|ops| - 1], name, t.sessions[name].entries);
      LatestSkips(limits, ops, name, t.sessions[name].entries);
    }
  }

  /** A hit is the latest unexpired reasoning stored for that session and one of the ids since its last clear. */
  lemma HitIsLatest(limits: Limits, ops: seq<Op>, name: string, ids: seq<string>, now: nat)
    requires Restored(Run(limits, ops), limits, name, ids, now).hit.Some?
    ensures exists id :: id in ids && Latest(limits, ops, name, id).Some?
                         && Latest(limits, ops, name, id).value.reasoning == Restored(Run(limits, ops), limits, name, ids, now).hit.value
                         && !Expired(Latest(limits, ops, name, id).value, now, limits.ttl)
  {
    EntriesAreLatest(limits, ops);
    var s := Run(limits, ops);
    hide Run, Latest, FirstHeld;
    var id := FirstHeld(s.sessions[name].entries, ids).value;
    assert Logged(limits, ops, name, s.sessions[name].entries);
  }

  // ---- other sessions ----

  function OwnOps(ops: seq<Op>, name: string): seq<Op> {
    if ops == [] then []
    else OwnOps(ops[..|ops| - 1], name) + if ops[|ops| - 1].name == name then [ops[|ops| - 1]] else []
  }

  /** What the log says about a session does not depend on the others. */
  lemma {:induction false} LatestIsOwn(limits: Limits, ops: seq<Op>, name: string, id: string)
    ensures Latest(limits, OwnOps(ops, name), name, id) == Latest(limits, ops, name, id)
  {
    if ops != [] {
      var before, op := ops[..|ops| - 1], ops[|ops| - 1];
      LatestIsOwn(limits, before, name, id);
      var own := OwnOps(before, name);
      if op.name == name {
        assert (own + [op])[..|own + [op]| - 1] == own;
      } else {
        assert own + [] == own;
      }
    }
  }

  /** What an operation does to a session it does not name: nothing, or it is gone. */
  predicate UntouchedOrGone(before: Store, after: Store, name: string) {
    name in after.sessions ==> name in before.sessions && after.sessions[name] == before.sessions[name]
  }

  lemma StoreSpares(s: Store, limits: Limits, other: string, ids: seq<string>, reasoning: string, stored: nat, name: string)
    requires Valid(s) && other != name
    ensures UntouchedOrGone(s, Stored(s, limits, other, ids, reasoning, stored), name)
  {
    if Accepted(ids, reasoning, limits) {
      var t := Inserted(s, other, ids, reasoning, stored);
      InsertKeeps(s, other, ids, reasoning, stored);
      EnforcedOnlyLoses(t, limits, stored);
      assert name in t.sessions ==> name in s.sessions && t.sessions[name] == s.sessions[name];
      hide Enforced, Valid, Inserted;
    }
  }

  lemma OthersSpare(s: Store, limits: Limits, op: Op, name: string)
    requires Valid(s) && op.name != name
    ensures UntouchedOrGone(s, Applied(s, limits, op), name)
  {
    if op.StoreOp? {
      StoreSpares(s, limits, op.name, op.ids, op.reasoning, op.now, name);
    }
    hide Stored, Valid, FirstHeld;
  }

  /** An operation on another session can only turn a hit into a miss. */
  lemma OthersOnlyLose(s: Store, limits: Limits, op: Op, name: string, ids: seq<string>, now: nat)
    requires Valid(s) && op.name != name
    ensures var after := Restored(Applied(s, limits, op), limits, name, ids, now).hit;
            after == None || after == Restored(s, limits, name, ids, now).hit
    ensures UntouchedOrGone(s, Applied(s, limits, op), name)
  {
    OthersSpare(s, limits, op, name);
    hide Applied, Valid, FirstHeld;
  }

  lemma {:induction false} KeepAll(names: seq<string>)
    ensures Keep(names, {}) == names
  {
    if names != [] {
      KeepAll(names[1..]);
    }
  }

  lemma NothingStale(s: Store, limits: Limits, now: nat)
    requires Valid(s) && forall name | name in s.sessions :: !AllExpired(s.sessions[name], now, limits.ttl)
    ensures Enforced(s, limits, now) == CountEvicted(BytesEvicted(s, limits.maxTotalBytes), limits.maxSessions)
  {
    KeepAll(s.lru);
    assert Stale(s, now, limits.ttl) == {} && s.sessions - {} == s.sessions;
  }

  /** Two sessions of two bytes each do not fit in three. */
  const TIGHT: Limits := Limits(2, 3, 2, 10)

  function Holding(name: string, id: string, text: string): map<string, Session> {
    map[name := Session(map[id := Entry(text, 0)], 2)]
  }

  function Lone(name: string, id: string, text: string): Store {
    Store(Holding(name, id, text), [name], 2)
  }

  lemma LoneIsValid(name: string, id: string, text: string)
    requires |text| == 2 && text[0] < '\U{80}' && text[1] < '\U{80}'
    ensures Valid(Lone(name, id, text)) && Bytes(text) == 2
  {
    TwoBytes(text);
    ContentPick(map[id := Entry(text, 0)], id);
    assert map[id := Entry(text, 0)] - {id} == map[];
  }

  lemma TwoBytes(text: string)
    requires |text| == 2 && text[0] < '\U{80}' && text[1] < '\U{80}'
    ensures Bytes(text) == 2
  {
    assert text[..1][..0] == "" && Bytes(text[..1]) == 1;
  }

  /** A first store fits; one more by the same session is too much; one by another session evicts the first. */
  lemma TightSteps(name: string, other: string, id: string, next: string, text: string, more: string)
    requires name != other && id != next && |text| == |more| == 2
    requires text[0] < '\U{80}' && text[1] < '\U{80}' && more[0] < '\U{80}' && more[1] < '\U{80}'
    ensures Stored(EMPTY, TIGHT, name, [id], text, 0) == Lone(name, id, text)
    ensures Stored(Lone(name, id, text), TIGHT, name, [next], more, 0) == EMPTY
    ensures Stored(Lone(name, id, text), TIGHT, other, [next], more, 0) == Lone(other, next, more)
  {
    TwoBytes(more);
    LoneIsValid(name, id, text);
    hide Bytes, Valid;
    FirstFits(name, id, text);
    SameIsTooMuch(name, id, next, text, more);
    OtherEvicts(name, other, id, next, text, more);
  }

  lemma OneInserted(entries: map<string, Entry>, id: string, e: Entry)
    ensures InsertAll(entries, [id], e) == entries[id := e]
  {
    assert [id][..0] == [];
  }

  /** A store with no limit reached is just the insertion. */
  lemma InsertedTight(s: Store, name: string, id: string, text: string)
    requires Bytes(text) == 2 && text != ""
    ensures Stored(s, TIGHT, name, [id], text, 0) == Enforced(Inserted(s, name, [id], text, 0), TIGHT, 0)
    ensures var was := SessionOf(s, name);
            Inserted(s, name, [id], text, 0) == Store(s.sessions[name := Session(was.entries[id := Entry(text, 0)], was.bytes + 2)],
                                                      if name in s.sessions then s.lru else s.lru + [name], s.totalBytes + 2)
  {
    hide Bytes, Enforced;
    OneInserted(SessionOf(s, name).entries, id, Entry(text, 0));
  }

  lemma FirstFits(name: string, id: string, text: string)
    requires Bytes(text) == 2 && text != ""
    ensures Stored(EMPTY, TIGHT, name, [id], text, 0) == Lone(name, id, text)
  {
    InsertedTight(EMPTY, name, id, text);
    InsertKeeps(EMPTY, name, [id], text, 0);
    hide Bytes, Stored;
    assert Inserted(EMPTY, name, [id], text, 0) == Lone(name, id, text);
    NothingStale(Lone(name, id, text), TIGHT, 0);
  }

  lemma SameIsTooMuch(name: string, id: string, next: string, text: string, more: string)
    requires Bytes(more) == 2 && more != "" && id != next && Valid(Lone(name, id, text))
    ensures Stored(Lone(name, id, text), TIGHT, name, [next], more, 0) == EMPTY
  {
    var s := Inserted(Lone(name, id, text), name, [next], more, 0);
    InsertedTight(Lone(name, id, text), name, next, more);
    InsertKeeps(Lone(name, id, text), name, [next], more, 0);
    hide Bytes, Valid, Stored, Inserted, Enforced;
    assert s.sessions[name].entries[id] == Entry(text, 0) && s.lru == [name] && s.totalBytes == 4;
    NothingStale(s, TIGHT, 0);
    assert s.sessions - {name} == map[] && s.lru[1..] == [];
    assert Popped(s) == EMPTY;
  }

  function Both(name: string, id: string, text: string, other: string, next: string, more: string): Store {
    Store(Holding(name, id, text)[other := Session(map[next := Entry(more, 0)], 2)], [name, other], 4)
  }

  lemma BothPops(name: string, id: string, text: string, other: string, next: string, more: string)
    requires name != other
    ensures var s := Both(name, id, text, other, next, more);
            s.lru != [] && Popped(s) == Lone(other, next, more)
            && forall n | n in s.sessions :: !AllExpired(s.sessions[n], 0, TIGHT.ttl)
  {
    var s := Both(name, id, text, other, next, more);
    assert s.sessions - {name} == Holding(other, next, more) && s.lru[1..] == [other];
    assert s.sessions[name].entries[id] == Entry(text, 0) && s.sessions[other].entries[next] == Entry(more, 0);
  }

  lemma OtherEvicts(name: string, other: string, id: string, next: string, text: string, more: string)
    requires Bytes(more) == 2 && more != "" && name != other && Valid(Lone(name, id, text))
    ensures Stored(Lone(name, id, text), TIGHT, other, [next], more, 0) == Lone(other, next, more)
  {
    var s := Both(name, id, text, other, next, more);
    InsertedTight(Lone(name, id, text), other, next, more);
    InsertKeeps(Lone(name, id, text), other, [next], more, 0);
    hide Bytes, Valid, Stored, Inserted, Enforced, BytesEvicted, CountEvicted, AllExpired, Popped;
    assert Inserted(Lone(name, id, text), other, [next], more, 0) == s;
    BothPops(name, id, text, other, next, more);
    NothingStale(s, TIGHT, 0);
    OnePop(s);
  }

  lemma OnePop(s: Store)
    requires s.totalBytes == 4 && s.lru != [] && Popped(s).totalBytes == 2 && |Popped(s).sessions| <= 2
    ensures CountEvicted(BytesEvicted(s, 3), 2) == Popped(s)
  {
    hide Popped;
  }

  /**
   Against the store itself, rather than the log, another session can even save an entry: alone, a session grows
   past the limit and evicts itself; with a younger neighbour it was evicted earlier, and its new entry survives.
   */
  lemma OthersCanSaveAnEntry()
    ensures var a := StoreOp("a", ["1"], "xx", 0); var b := StoreOp("b", ["1"], "yy", 0); var c := StoreOp("a", ["2"], "zz", 0);
            && OwnOps([a, b, c], "a") == [a, c]
            && Restored(Run(TIGHT, [a, c]), TIGHT, "a", ["2"], 0).hit == None
            && Restored(Run(TIGHT, [a, b, c]), TIGHT, "a", ["2"], 0).hit == Some("zz")
  {
    assert "a"[0] != "b"[0];
    AloneMisses();
    TogetherHits();
    OwnOfThree(StoreOp("a", ["1"], "xx", 0), StoreOp("b", ["1"], "yy", 0), StoreOp("a", ["2"], "zz", 0));
    hide *;
  }

  lemma AloneMisses()
    ensures Restored(Run(TIGHT, [StoreOp("a", ["1"], "xx", 0), StoreOp("a", ["2"], "zz", 0)]), TIGHT, "a", ["2"], 0).hit == None
  {
    assert "a"[0] != "b"[0] && "1"[0] != "2"[0];
    TightSteps("a", "b", "1", "2", "xx", "zz");
    RunTwo(TIGHT, StoreOp("a", ["1"], "xx", 0), StoreOp("a", ["2"], "zz", 0));
    hide Stored, Run;
  }

  lemma TogetherHits()
    ensures var ops := [StoreOp("a", ["1"], "xx", 0), StoreOp("b", ["1"], "yy", 0), StoreOp("a", ["2"], "zz", 0)];
            Restored(Run(TIGHT, ops), TIGHT, "a", ["2"], 0).hit == Some("zz")
  {
    assert "a"[0] != "b"[0] && "1"[0] != "2"[0];
    TightSteps("a", "b", "1", "2", "xx", "zz");
    OtherEvictsToo();
    RunThree(TIGHT, StoreOp("a", ["1"], "xx", 0), StoreOp("b", ["1"], "yy", 0), StoreOp("a", ["2"], "zz", 0));
    assert FirstHeld(map["2" := Entry("zz", 0)], ["2"]) == Some("2");
    hide Stored, Run;
  }

  lemma RunTwo(limits: Limits, a: Op, b: Op)
    ensures Run(limits, [a, b]) == Applied(Applied(EMPTY, limits, a), limits, b)
  {
    hide Applied;
    assert [a, b][..1] == [a] && [a][..0] == [];
    assert Run(limits, [a]) == Applied(EMPTY, limits, a);
  }

  lemma RunThree(limits: Limits, a: Op, b: Op, c: Op)
    ensures Run(limits, [a, b, c]) == Applied(Applied(Applied(EMPTY, limits, a), limits, b), limits, c)
  {
    assert [a, b, c][..2] == [a, b];
    hide Applied;
    RunTwo(limits, a, b);
  }

  lemma OwnOfThree(a: Op, b: Op, c: Op)
    requires a.name == c.name != b.name
    ensures OwnOps([a, b, c], a.name) == [a, c]
  {
    assert [a, b, c][..2] == [a, b] && [a, b][..1] == [a] && [a][..0] == [];
    assert OwnOps([], a.name) == [] && OwnOps([a], a.name) == [a] && OwnOps([a, b], a.name) == [a];
  }

  lemma OtherEvictsToo()
    ensures Stored(Lone("a", "1", "xx"), TIGHT, "b", ["1"], "yy", 0) == Lone("b", "1", "yy")
    ensures Stored(Lone("b", "1", "yy"), TIGHT, "a", ["2"], "zz", 0) == Lone("a", "2", "zz")
  {
    assert "a"[0] != "b"[0];
    LoneIsValid("a", "1", "xx");
    LoneIsValid("b", "1", "yy");
    TwoBytes("zz");
    hide Bytes, Valid, Stored;
    OtherEvicts("a", "b", "1", "1", "xx", "yy");
    OtherEvicts("b", "a", "1", "2", "yy", "zz");
  }

  // ---- what a store makes visible ----

  /** While its session is kept, what was just stored is found under each of its ids until it expires. */
  lemma StoredIsFound(s: Store, limits: Limits, name: string, ids: seq<string>, reasoning: string, now: nat, id: string, later: nat)
    requires Valid(s) && Accepted(ids, reasoning, limits) && id in ids
    requires var t := Stored(s, limits, name, ids, reasoning, now); name in t.sessions
    ensures Restored(Stored(s, limits, name, ids, reasoning, now), limits, name, [id], later).hit
         == if later <= now + limits.ttl then Some(reasoning) else None
  {
    InsertKeeps(s, name, ids, reasoning, now);
    EnforcedOnlyLoses(Inserted(s, name, ids, reasoning, now), limits, now);
    InsertAllAt(SessionOf(s, name).entries, ids, Entry(reasoning, now), id);
    hide Valid, Enforced, InsertAll;
    var t := Stored(s, limits, name, ids, reasoning, now);
    assert FirstHeld(t.sessions[name].entries, [id]) == Some(id);
  }

  // ---- creation order ----

  /** When a session last came into being. */
  function Born(limits: Limits, ops: seq<Op>, name: string): nat {
    if ops == [] then 0
    else if name in Run(limits, ops[..|ops| - 1]).sessions then Born(limits, ops[..|ops| - 1], name)
    else |ops| - 1
  }

  predicate BornInOrder(limits: Limits, ops: seq<Op>, names: seq<string>) {
    forall i, j | 0 <= i < j < |names| :: Born(limits, ops, names[i]) < Born(limits, ops, names[j])
  }

  lemma {:induction false} KeepInOrder(limits: Limits, ops: seq<Op>, names: seq<string>, gone: set<string>)
    requires BornInOrder(limits, ops, names)
    ensures BornInOrder(limits, ops, Keep(names, gone))
  {
    hide Born;
    if names != [] {
      var rest := names[1..];
      KeepInOrder(limits, ops, rest, gone);
      KeepMeans(rest, gone);
      var kept := Keep(rest, gone);
      assert Keep(names, gone) == (if names[0] in gone then [] else [names[0]]) + kept;
      forall j | 0 <= j < |kept| ensures Born(limits, ops, names[0]) < Born(limits, ops, kept[j]) {
        assert kept[j] in rest;
      }
    }
  }

  lemma {:induction false} BornBefore(limits: Limits, ops: seq<Op>, name: string)
    requires ops != []
    ensures Born(limits, ops, name) < |ops|
  {
    var before := ops[..|ops| - 1];
    hide Run;
    if name in Run(limits, before).sessions && before != [] {
      BornBefore(limits, before, name);
    }
  }

  /** Names that live before and after an operation keep their order; a new one comes last. */
  lemma OrderStep(limits: Limits, ops: seq<Op>, names: seq<string>, last: seq<string>)
    requires ops != [] && BornInOrder(limits, ops[..|ops| - 1], names) && |last| <= 1
    requires forall n | n in names :: n in Run(limits, ops[..|ops| - 1]).sessions
    requires forall n | n in last :: n !in Run(limits, ops[..|ops| - 1]).sessions
    ensures BornInOrder(limits, ops, names + last)
  {
    var before, all := ops[..|ops| - 1], names + last;
    assert forall i | 0 <= i < |names| :: names[i] in names;
    forall i, j | 0 <= i < j < |all| ensures Born(limits, ops, all[i]) < Born(limits, ops, all[j]) {
      assert Born(limits, ops, all[i]) == Born(limits, before, names[i]);
      if j < |names| {
        assert Born(limits, ops, all[j]) == Born(limits, before, names[j]);
      } else {
        assert before != [] by { RunOfNothing(limits, before, names[i]); }
        BornBefore(limits, before, names[i]);
        assert all[j] in last;
      }
    }
  }

  lemma RunOfNothing(limits: Limits, ops: seq<Op>, name: string)
    requires name in Run(limits, ops).sessions
    ensures ops != []
  {
  }

  lemma SuffixInOrder(limits: Limits, ops: seq<Op>, names: seq<string>, k: nat)
    requires BornInOrder(limits, ops, names) && k <= |names|
    ensures BornInOrder(limits, ops, names[k..])
  {
    hide Born;
  }

  /** In every reachable store the order lists the live sessions from the one created first to the last. */
  lemma {:induction false} OrderIsCreation(limits: Limits, ops: seq<Op>)
    ensures BornInOrder(limits, ops, Run(limits, ops).lru)
  {
    if ops != [] {
      var before, op := ops[..|ops| - 1], ops[|ops| - 1];
      var s := Run(limits, before);
      OrderIsCreation(limits, before);
      RunKeeps(limits, before);
      LastRun(limits, ops);
      var none: seq<string> := [];
      assert s.lru + none == s.lru;
      OrderStepNames(limits, ops, none);
      hide Run, Born, BornInOrder, Sum;
      match op {
        case StoreOp(name, ids, reasoning, now) =>
          if Accepted(ids, reasoning, limits) {
            OrderStepNames(limits, ops, if name in s.sessions then [] else [name]);
            var t := Inserted(s, name, ids, reasoning, now);
            InsertKeeps(s, name, ids, reasoning, now);
            var k := EnforcedIsShortest(t, limits, now);
            KeepInOrder(limits, ops, t.lru, Stale(t, now, limits.ttl));
            SuffixInOrder(limits, ops, Keep(t.lru, Stale(t, now, limits.ttl)), k);
          }
        case RestoreOp(_, _, _) =>
        case ClearOp(name) =>
          KeepInOrder(limits, ops, s.lru, {name});
      }
    }
  }

  lemma OrderStepNames(limits: Limits, ops: seq<Op>, last: seq<string>)
    requires ops != [] && BornInOrder(limits, ops[..|ops| - 1], Run(limits, ops[..|ops| - 1]).lru) && |last| <= 1
    requires forall n | n in last :: n !in Run(limits, ops[..|ops| - 1]).sessions
    requires Valid(Run(limits, ops[..|ops| - 1]))
    ensures BornInOrder(limits, ops, Run(limits, ops[..|ops| - 1]).lru + last)
  {
    hide Run, Born, BornInOrder, Sum, Bounded;
    OrderStep(limits, ops, Run(limits, ops[..|ops| - 1]).lru, last);
  }
}
