/**
 What each operation of the shadow store does, read off the store before and after: which sessions stay and why, what
 a session then holds, which entry answers a lookup, and what is left alone.
 */
module Retention {
  import opened Prelude
  import opened ShadowStore

  // ---- limits ----

  /** Some entry is not older than the time to live. */
  predicate Live(session: Session, now: nat, ttl: nat) {
    exists id | id in session.entries :: session.entries[id].created + ttl >= now
  }

  /** The sessions with something live in them, in order. */
  function LiveNames(sessions: map<string, Session>, names: seq<string>, now: nat, ttl: nat): seq<string> {
    if names == [] then []
    else
      (if names[0] in sessions && Live(sessions[names[0]], now, ttl) then [names[0]] else [])
      + LiveNames(sessions, names[1..], now, ttl)
  }

  /** Both limits hold for these sessions. */
  predicate WithinLimits(sessions: map<string, Session>, names: seq<string>, limits: Limits) {
    Sum(sessions, names) <= limits.maxTotalBytes && |names| <= limits.maxSessions
  }

  /** Of the live sessions the `k` first created are gone, as few as the limits allow; the rest stays as it was, in order. */
  ghost predicate KeepsNewest(s: Store, r: Store, limits: Limits, now: nat, k: nat) {
    var live := LiveNames(s.sessions, s.lru, now, limits.ttl);
    && k <= |live| && r.lru == live[k..]
    && (forall n :: n in r.sessions <==> n in live[k..])
    && (forall n | n in r.sessions :: n in s.sessions && r.sessions[n] == s.sessions[n])
    && r.totalBytes == Sum(s.sessions, live[k..]) && WithinLimits(s.sessions, live[k..], limits)
    && forall j | 0 <= j < k :: !WithinLimits(s.sessions, live[j..], limits)
  }

  lemma LiveIsNotStale(session: Session, now: nat, ttl: nat)
    ensures Live(session, now, ttl) <==> !AllExpired(session, now, ttl)
  {
    forall id | id in session.entries
      ensures session.entries[id].created + ttl >= now <==> !Expired(session.entries[id], now, ttl)
    {
    }
    hide Expired;
  }

  lemma {:induction false} KeptAreLive(s: Store, names: seq<string>, now: nat, ttl: nat)
    requires forall n | n in names :: n in s.sessions
    ensures Keep(names, Stale(s, now, ttl)) == LiveNames(s.sessions, names, now, ttl)
  {
    if names != [] {
      KeptAreLive(s, names[1..], now, ttl);
      LiveIsNotStale(s.sessions[names[0]], now, ttl);
      hide Live, AllExpired;
    }
  }

  predicate PartOf(w: Store, s: Store) {
    forall n | n in w.sessions :: n in s.sessions && w.sessions[n] == s.sessions[n]
  }

  lemma WithoutIsLive(s: Store, now: nat, ttl: nat)
    requires Valid(s)
    ensures var w := Without(s, Stale(s, now, ttl)); Valid(w) && w.lru == LiveNames(s.sessions, s.lru, now, ttl) && PartOf(w, s)
  {
    KeptAreLive(s, s.lru, now, ttl);
    WithoutKeeps(s, Stale(s, now, ttl));
    hide Stale, LiveNames, Keep, Valid, Sum;
  }

  /** Enforcing the limits forgets the sessions with nothing live in them, and then the oldest ones, no more than needed. */
  lemma EnforcedKeepsNewest(s: Store, limits: Limits, now: nat) returns (k: nat)
    requires Valid(s)
    ensures KeepsNewest(s, Enforced(s, limits, now), limits, now, k)
  {
    hide *;
    var w := Without(s, Stale(s, now, limits.ttl));
    k := EnforcedIsShortest(s, limits, now);
    WithoutIsLive(s, now, limits.ttl);
    TrimmedIsRest(s, w, k);
    TrimmedKeepsNewest(s, w, limits, now, k);
  }

  lemma TrimmedKeepsNewest(s: Store, w: Store, limits: Limits, now: nat, k: nat)
    requires Valid(w) && PartOf(w, s) && w.lru == LiveNames(s.sessions, s.lru, now, limits.ttl)
    requires k <= |w.lru| && Suffices(w, limits, k) && forall j | 0 <= j < k :: !Suffices(w, limits, j)
    ensures KeepsNewest(s, Trimmed(w, k), limits, now, k)
  {
    hide Valid, Suffices, Trimmed, WithinLimits, LiveNames, PartOf, Sum;
    TrimmedIsRest(s, w, k);
    forall j | 0 <= j <= k ensures Suffices(w, limits, j) <==> WithinLimits(s.sessions, w.lru[j..], limits) {
      SufficesIsWithin(s, w, limits, j);
    }
  }

  lemma TrimmedIsRest(s: Store, w: Store, k: nat)
    requires Valid(w) && k <= |w.lru| && PartOf(w, s)
    ensures var r := Trimmed(w, k);
            && r.lru == w.lru[k..] && (forall n :: n in r.sessions <==> n in w.lru[k..])
            && (forall n | n in r.sessions :: n in s.sessions && r.sessions[n] == s.sessions[n])
            && r.totalBytes == Sum(s.sessions, w.lru[k..])
  {
    hide Sum, Bounded;
    forall n ensures n in Trimmed(w, k).sessions <==> n in w.lru[k..] {
      if n in w.lru[k..] {
        Apart(w.lru, k, n);
      }
      assert w.lru == w.lru[..k] + w.lru[k..];
    }
    RestSum(s, w, k);
  }

  lemma RestSum(s: Store, w: Store, k: nat)
    requires Valid(w) && k <= |w.lru| && PartOf(w, s)
    ensures Sum(w.sessions, w.lru[k..]) == Sum(s.sessions, w.lru[k..])
  {
    forall n | n in w.lru[k..] ensures n in w.sessions {
      assert n in w.lru;
    }
    SumAgrees(w.sessions, s.sessions, w.lru[k..]);
  }

  lemma SufficesIsWithin(s: Store, w: Store, limits: Limits, j: nat)
    requires Valid(w) && j <= |w.lru| && PartOf(w, s)
    ensures Suffices(w, limits, j) <==> WithinLimits(s.sessions, w.lru[j..], limits)
  {
    RestSum(s, w, j);
    hide Sum, Valid;
  }

  // ---- storing ----

  /** The session after the reasoning has been put under every id. */
  ghost predicate Filled(was: Session, now: Session, ids: seq<string>, e: Entry) {
    && now.bytes == was.bytes + |ids| * Bytes(e.reasoning)
    && (forall id :: id in now.entries <==> id in ids || id in was.entries)
    && forall id | id in now.entries :: now.entries[id] == if id in ids then e else was.entries[id]
  }

  /** The store with the session filled, behind the others if it is new. */
  ghost predicate Added(s: Store, t: Store, name: string, ids: seq<string>, e: Entry) {
    && name in t.sessions && Filled(if name in s.sessions then s.sessions[name] else Session(map[], 0), t.sessions[name], ids, e)
    && (forall n | n != name :: n in t.sessions <==> n in s.sessions)
    && (forall n | n in s.sessions && n != name :: t.sessions[n] == s.sessions[n])
    && t.lru == (if name in s.sessions then s.lru else s.lru + [name])
  }

  lemma InsertedIsAdded(s: Store, name: string, ids: seq<string>, reasoning: string, now: nat)
    ensures Added(s, Inserted(s, name, ids, reasoning, now), name, ids, Entry(reasoning, now))
  {
    var e, was := Entry(reasoning, now), SessionOf(s, name);
    forall id
      ensures id in InsertAll(was.entries, ids, e) <==> id in ids || id in was.entries
      ensures id in InsertAll(was.entries, ids, e) ==> InsertAll(was.entries, ids, e)[id] == if id in ids then e else was.entries[id]
    {
      InsertAllAt(was.entries, ids, e, id);
    }
    hide InsertAll, Bytes;
  }

  /**
   Storing: empty, idless and oversized reasoning changes nothing; any other is put under every id, behind the sessions
   already there if its session is new, and then the limits are enforced.
   */
  lemma StoredMeans(s: Store, limits: Limits, name: string, ids: seq<string>, reasoning: string, now: nat) returns (t: Store, k: nat)
    requires Valid(s)
    ensures var r := Stored(s, limits, name, ids, reasoning, now);
            if reasoning == "" || ids == [] || Bytes(reasoning) > limits.maxEntryBytes then r == s
            else Added(s, t, name, ids, Entry(reasoning, now)) && KeepsNewest(t, r, limits, now, k)
  {
    t, k := s, 0;
    if Accepted(ids, reasoning, limits) {
      t := Inserted(s, name, ids, reasoning, now);
      InsertKeeps(s, name, ids, reasoning, now);
      InsertedIsAdded(s, name, ids, reasoning, now);
      hide Inserted, Enforced, Valid, Added, KeepsNewest;
      k := EnforcedKeepsNewest(t, limits, now);
    }
  }

  // ---- looking up and clearing ----

  /** The first of the ids the session holds an entry for is the one at place `i`. */
  predicate FirstAt(entries: map<string, Entry>, ids: seq<string>, i: nat) {
    i < |ids| && ids[i] in entries && forall j | 0 <= j < i :: ids[j] !in entries
  }

  predicate OneChanged(s: Store, r: Store, name: string, entries: map<string, Entry>)
    requires name in s.sessions
  {
    r == s.(sessions := s.sessions[name := s.sessions[name].(entries := entries)])
  }

  lemma {:induction false} FirstHeldIs(entries: map<string, Entry>, ids: seq<string>) returns (i: nat)
    requires FirstHeld(entries, ids).Some?
    ensures FirstAt(entries, ids, i) && ids[i] == FirstHeld(entries, ids).value
  {
    if ids[0] in entries {
      i := 0;
    } else {
      var j := FirstHeldIs(entries, ids[1..]);
      i := j + 1;
      forall q | 0 <= q < i ensures ids[q] !in entries {
        assert q > 0 ==> ids[q] == ids[1..][q - 1];
      }
    }
  }

  /** Which lookups find something, and what. */
  ghost predicate Finds(s: Store, limits: Limits, name: string, ids: seq<string>, now: nat, text: string) {
    name in s.sessions && exists i: nat ::
      && FirstAt(s.sessions[name].entries, ids, i)
      && s.sessions[name].entries[ids[i]].created + limits.ttl >= now && s.sessions[name].entries[ids[i]].reasoning == text
  }

  /**
   A lookup: the first id with an entry decides. A live entry is found, and nothing changes; an expired one is a miss and
   is dropped, alone; without any there is a miss and nothing changes.
   */
  lemma LookupMeans(s: Store, limits: Limits, name: string, ids: seq<string>, now: nat)
    ensures var r := Restored(s, limits, name, ids, now);
            && (forall text :: r.hit == Some(text) <==> Finds(s, limits, name, ids, now, text))
            && (name !in s.sessions || (forall id | id in ids :: id !in s.sessions[name].entries) ==> r.store == s && r.hit == None)
            && (name in s.sessions ==>
                  forall i: nat | FirstAt(s.sessions[name].entries, ids, i) ::
                    if s.sessions[name].entries[ids[i]].created + limits.ttl >= now then r.store == s
                    else r.hit == None && OneChanged(s, r.store, name, s.sessions[name].entries - {ids[i]}))
  {
    if name in s.sessions {
      var entries := s.sessions[name].entries;
      if FirstHeld(entries, ids).Some? {
        var i := FirstHeldIs(entries, ids);
        forall k: nat | FirstAt(entries, ids, k) ensures k == i {
        }
      } else {
        forall k: nat ensures !FirstAt(entries, ids, k) {
          assert k < |ids| ==> ids[k] in ids;
        }
      }
      hide FirstHeld;
    }
  }

  /** Clearing takes away the session, its place and its bytes, and nothing else. */
  lemma ClearedMeans(s: Store, name: string)
    requires Valid(s)
    ensures var r := Cleared(s, name);
            && (name !in s.sessions ==> r == s)
            && (forall n :: n in r.sessions <==> n in s.sessions && n != name)
            && (forall n | n in r.sessions :: r.sessions[n] == s.sessions[n])
            && r.lru == Others(s.lru, name)
            && r.totalBytes == s.totalBytes - (if name in s.sessions then s.sessions[name].bytes else 0)
  {
    KeepOthers(s.lru, name);
    if name in s.sessions {
      SumWithout(s.sessions, s.lru, name);
    } else {
      NotListed(s.lru, name);
    }
    hide Keep, Others, Bounded;
  }

  /** The other names, in order. */
  function Others(names: seq<string>, name: string): seq<string> {
    if names == [] then []
    else Others(names[..|names| - 1], name) + if names[|names| - 1] == name then [] else [names[|names| - 1]]
  }

  lemma {:induction false} OthersConcat(a: seq<string>, b: seq<string>, name: string)
    ensures Others(a + b, name) == Others(a, name) + Others(b, name)
    decreases |b|
  {
    if b == [] {
      assert a + b == a;
    } else {
      OthersConcat(a, b[..|b| - 1], name);
      assert (a + b)[..|a + b| - 1] == a + b[..|b| - 1];
    }
  }

  lemma {:induction false} KeepOthers(names: seq<string>, name: string)
    ensures Keep(names, {name}) == Others(names, name)
  {
    if names != [] {
      assert [names[0]][..0] == [];
      assert Others([names[0]], name) == if names[0] == name then [] else [names[0]];
      assert Keep(names, {name}) == (if names[0] == name then [] else [names[0]]) + Keep(names[1..], {name});
      hide Others, Keep;
      KeepOthers(names[1..], name);
      OthersConcat([names[0]], names[1..], name);
      assert [names[0]] + names[1..] == names;
    }
  }

  lemma {:induction false} NotListed(names: seq<string>, name: string)
    requires name !in names
    ensures Others(names, name) == names
  {
    if names != [] {
      NotListed(names[..|names| - 1], name);
    }
  }
}
