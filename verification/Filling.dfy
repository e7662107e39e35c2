/**
 What filling a request from the shadow store does, read off the messages and the entries the session held before:
 which assistant messages get which reasoning, which stay as they are, and which entries are forgotten on the way.
 */
module Filling {
  import opened Prelude
  import opened Json
  import opened Canonical
  import opened ShadowStore
  import opened Retention
  import opened ReasoningShadow

  predicate FromUser(m: Value) {
    Get(m, "role") == Some(Str("user"))
  }

  /** An assistant message with calls and without reasoning. */
  predicate Asks(m: Value) {
    Get(m, "role") == Some(Str("assistant")) && Get(m, "reasoning_content").None? && HasCalls(m)
  }

  /** The message stands after the newest user message. */
  predicate Reached(messages: seq<Value>, i: int) {
    && 0 <= i < |messages| && (exists k :: 0 <= k < i && FromUser(messages[k]))
    && forall k | i <= k < |messages| :: !FromUser(messages[k])
  }

  function IdOf(call: Value): seq<string> {
    var id := Get(call, "id");
    if id.Some? && id.value.Str? then [id.value.text] else []
  }

  /** The ids of the calls that have one, in order. */
  function IdsOf(calls: seq<Value>): seq<string> {
    if calls == [] then [] else IdOf(calls[0]) + IdsOf(calls[1..])
  }

  /** The message with the reasoning behind all that it held. */
  predicate Given(m: Value, r: Value, text: string) {
    m.Obj? && r == Obj(m.fields + [Field("reasoning_content", Str(text))])
  }

  function Held(s: Store, name: string): map<string, Entry> {
    if name in s.sessions then s.sessions[name].entries else map[]
  }

  predicate IsLive(e: Entry, now: nat, ttl: nat) {
    e.created + ttl >= now
  }

  /** The first of the ids that has an entry, if that entry is expired. */
  function FirstExpired(entries: map<string, Entry>, ids: seq<string>, now: nat, ttl: nat): set<string> {
    set i: nat | i < |ids| && FirstAt(entries, ids, i) && !IsLive(entries[ids[i]], now, ttl) :: ids[i]
  }

  /** The ids forgotten by the lookups of the first `n` messages. */
  function Forgotten(entries: map<string, Entry>, messages: seq<Value>, n: nat, now: nat, ttl: nat): set<string>
    requires n <= |messages|
  {
    if n == 0 then {}
    else
      var before := Forgotten(entries, messages, n - 1, now, ttl);
      if Reached(messages, n - 1) && Asks(messages[n - 1]) then
        before + FirstExpired(entries - before, IdsOf(Calls(messages[n - 1])), now, ttl)
      else before
  }

  /** The message gets the text of the first of its ids that has an entry, if that is live; without one it stays as it was. */
  ghost predicate FilledWith(m: Value, r: Value, entries: map<string, Entry>, now: nat, ttl: nat) {
    var ids := IdsOf(Calls(m));
    && (forall i: nat | FirstAt(entries, ids, i) ::
          if IsLive(entries[ids[i]], now, ttl) then Given(m, r, entries[ids[i]].reasoning) else r == m)
    && ((forall i: nat :: !FirstAt(entries, ids, i)) ==> r == m)
  }

  /** The store with these entries for the session, and everything else as it was. */
  predicate HoldsNow(s: Store, t: Store, name: string, entries: map<string, Entry>) {
    if name in s.sessions then OneChanged(s, t, name, entries) else t == s
  }

  // ---- the pieces ----

  lemma {:induction false} IdsConcat(a: seq<Value>, b: seq<Value>)
    ensures IdsOf(a + b) == IdsOf(a) + IdsOf(b)
  {
    hide IdOf;
    if a == [] {
      assert a + b == b;
    } else {
      IdsConcat(a[1..], b);
      assert (a + b)[1..] == a[1..] + b && (a + b)[0] == a[0];
      assert IdOf(a[0]) + IdsOf(a[1..]) + IdsOf(b) == IdOf(a[0]) + (IdsOf(a[1..]) + IdsOf(b));
    }
  }

  lemma {:induction false} CallIdsAre(calls: seq<Value>)
    ensures CallIds(calls) == IdsOf(calls)
  {
    if calls != [] {
      var n := |calls| - 1;
      CallIdsAre(calls[..n]);
      IdsConcat(calls[..n], [calls[n]]);
      assert calls[..n] + [calls[n]] == calls && [calls[n]][1..] == [];
      assert CallIds(calls) == CallIds(calls[..n]) + IdOf(calls[n]);
      hide IdOf, CallIds;
      assert IdsOf([calls[n]]) == IdOf(calls[n]) + IdsOf([]);
    }
  }

  lemma ReachedIsPastBoundary(messages: seq<Value>, i: nat)
    requires i < |messages|
    ensures Reached(messages, i) <==> i > Boundary(messages)
    ensures i == Boundary(messages) ==> FromUser(messages[i])
  {
    var b := Boundary(messages);
    hide Boundary, Get;
    forall k | 0 <= k < |messages| ensures FromUser(messages[k]) <==> HasRole(messages[k], "user") {
    }
    if i > b {
      assert FromUser(messages[b]);
    }
  }

  lemma {:induction false} NewField(m: Value, text: string)
    requires Asks(m)
    ensures Given(m, Obj(Put(m.fields, "reasoning_content", Str(text))), text)
  {
    PutFresh(m.fields, "reasoning_content", Str(text));
  }

  /** One message filled from the store. */
  lemma MessageFilled(s: Store, limits: Limits, name: string, m: Value, now: nat)
    requires Asks(m)
    ensures var f := FilledMessage(s, limits, name, m, now); var ids := IdsOf(Calls(m));
            && FilledWith(m, f.message, Held(s, name), now, limits.ttl)
            && HoldsNow(s, f.store, name, Held(s, name) - FirstExpired(Held(s, name), ids, now, limits.ttl))
  {
    var ids := IdsOf(Calls(m));
    CallIdsAre(Calls(m));
    LookupMeans(s, limits, name, ids, now);
    var l := Restored(s, limits, name, ids, now);
    assert LacksReasoning(m);
    if l.hit.Some? {
      NewField(m, l.hit.value);
    }
    hide Restored, Asks, LacksReasoning, CallIds, Put, HasCalls, Get, Calls, HasRole;
    LookedUp(s, limits, name, ids, now, l);
  }

  /** What a lookup forgets. */
  lemma LookedUp(s: Store, limits: Limits, name: string, ids: seq<string>, now: nat, l: Lookup)
    requires l == Restored(s, limits, name, ids, now)
    ensures var entries := Held(s, name);
            && HoldsNow(s, l.store, name, entries - FirstExpired(entries, ids, now, limits.ttl))
            && (forall i: nat | FirstAt(entries, ids, i) ::
                  l.hit == if IsLive(entries[ids[i]], now, limits.ttl) then Some(entries[ids[i]].reasoning) else None)
            && ((forall i: nat :: !FirstAt(entries, ids, i)) ==> l.hit == None)
  {
    LookupMeans(s, limits, name, ids, now);
    hide Restored;
    var entries := Held(s, name);
    var gone := FirstExpired(entries, ids, now, limits.ttl);
    if i: nat :| FirstAt(entries, ids, i) {
      forall k: nat | FirstAt(entries, ids, k) ensures k == i {
      }
      if IsLive(entries[ids[i]], now, limits.ttl) {
        assert gone == {} && entries - gone == entries;
        assert Finds(s, limits, name, ids, now, entries[ids[i]].reasoning);
        Same(s, name);
      } else {
        assert gone == {ids[i]};
      }
    } else {
      assert gone == {} && entries - gone == entries;
      Same(s, name);
      NoneHeld(entries, ids);
    }
  }

  lemma Same(s: Store, name: string)
    ensures HoldsNow(s, s, name, Held(s, name))
  {
    if name in s.sessions {
      assert s.sessions[name := s.sessions[name].(entries := s.sessions[name].entries)] == s.sessions;
    }
  }

  lemma NoneHeld(entries: map<string, Entry>, ids: seq<string>)
    requires forall i: nat :: !FirstAt(entries, ids, i)
    ensures forall id | id in ids :: id !in entries
  {
    forall id | id in ids ensures id !in entries {
      if id in entries {
        var i: nat :| i < |ids| && ids[i] == id;
        var k := LeastHeld(entries, ids, i);
      }
    }
  }

  lemma {:induction false} LeastHeld(entries: map<string, Entry>, ids: seq<string>, i: nat) returns (k: nat)
    requires i < |ids| && ids[i] in entries
    ensures FirstAt(entries, ids, k)
    decreases i
  {
    if j: nat :| j < i && ids[j] in entries {
      k := LeastHeld(entries, ids, j);
    } else {
      k := i;
    }
  }

  // ---- the pass ----

  lemma HoldsOn(s: Store, t: Store, u: Store, name: string, now: map<string, Entry>, then_: map<string, Entry>)
    requires HoldsNow(s, t, name, now) && HoldsNow(t, u, name, then_)
    ensures HoldsNow(s, u, name, then_)
    ensures name in s.sessions ==> Held(t, name) == now
    ensures name !in s.sessions ==> Held(t, name) == map[]
  {
    if name in s.sessions {
      assert s.sessions[name := t.sessions[name]][name := u.sessions[name]] == s.sessions[name := u.sessions[name]];
    }
  }

  lemma Fewer(entries: map<string, Entry>, a: set<string>, b: set<string>)
    ensures entries - a - b == entries - (a + b)
  {
  }

  lemma NothingIn(s: Store, name: string, gone: set<string>)
    requires name !in s.sessions
    ensures Held(s, name) == map[] && Held(s, name) - gone == map[]
  {
  }

  lemma AskingIsAssistant(m: Value)
    ensures Asks(m) <==> LacksReasoning(m)
    ensures FromUser(m) ==> !Asks(m)
    ensures !Asks(m) ==> forall s, limits, name, now :: FilledMessage(s, limits, name, m, now) == Filled(s, m)
  {
    assert "user"[0] != "assistant"[0];
  }

  /** What has become of message `i`. */
  ghost predicate Done(all: map<string, Entry>, messages: seq<Value>, i: nat, now: nat, ttl: nat, r: Value)
    requires i < |messages|
  {
    if Reached(messages, i) && Asks(messages[i]) then FilledWith(messages[i], r, all - Forgotten(all, messages, i, now, ttl), now, ttl)
    else r == messages[i]
  }

  /** After the first `n` messages. */
  ghost predicate FilledSoFar(s: Store, name: string, ttl: nat, messages: seq<Value>, n: nat, now: nat, r: FilledAll)
    requires n <= |messages|
  {
    && |r.messages| == n && HoldsNow(s, r.store, name, Held(s, name) - Forgotten(Held(s, name), messages, n, now, ttl))
    && forall i: nat | i < n :: Done(Held(s, name), messages, i, now, ttl, r.messages[i])
  }

  lemma NoneFilled(s: Store, limits: Limits, name: string, messages: seq<Value>, now: nat)
    ensures FilledSoFar(s, name, limits.ttl, messages, 0, now, FillTo(s, limits, name, messages, 0, now))
  {
    assert Held(s, name) - {} == Held(s, name);
    Same(s, name);
  }

  /** The message filled from what the lookups before it have left. */
  lemma NextFilled(s: Store, limits: Limits, name: string, messages: seq<Value>, n: nat, now: nat, t: Store)
    requires n < |messages| && Reached(messages, n) && Asks(messages[n])
    requires HoldsNow(s, t, name, Held(s, name) - Forgotten(Held(s, name), messages, n, now, limits.ttl))
    ensures var f := FilledMessage(t, limits, name, messages[n], now); var all := Held(s, name);
            && FilledWith(messages[n], f.message, all - Forgotten(all, messages, n, now, limits.ttl), now, limits.ttl)
            && HoldsNow(s, f.store, name, all - Forgotten(all, messages, n + 1, now, limits.ttl))
  {
    var all := Held(s, name);
    var gone := Forgotten(all, messages, n, now, limits.ttl);
    var ids := IdsOf(Calls(messages[n]));
    var f := FilledMessage(t, limits, name, messages[n], now);
    var held := Held(t, name);
    assert Forgotten(all, messages, n + 1, now, limits.ttl) == gone + FirstExpired(all - gone, ids, now, limits.ttl);
    hide *;
    MessageFilled(t, limits, name, messages[n], now);
    HoldsOn(s, t, f.store, name, all - gone, held - FirstExpired(held, ids, now, limits.ttl));
    Fewer(all, gone, FirstExpired(all - gone, ids, now, limits.ttl));
    if name !in s.sessions {
      NothingIn(s, name, gone);
    }
  }

  lemma OneMoreFilled(s: Store, limits: Limits, name: string, messages: seq<Value>, n: nat, now: nat, before: FilledAll, f: Filled)
    requires n < |messages| && FilledSoFar(s, name, limits.ttl, messages, n, now, before)
    requires f == if Reached(messages, n) then FilledMessage(before.store, limits, name, messages[n], now) else Filled(before.store, messages[n])
    ensures FilledSoFar(s, name, limits.ttl, messages, n + 1, now, FilledAll(f.store, before.messages + [f.message]))
  {
    hide *;
    SoFarMeans(s, name, limits.ttl, messages, n, now, before);
    MessageDone(s, limits, name, messages, n, now, before.store, f);
    Extended(s, name, limits.ttl, messages, n, now, before, f);
  }

  lemma SoFarMeans(s: Store, name: string, ttl: nat, messages: seq<Value>, n: nat, now: nat, r: FilledAll)
    requires n <= |messages| && FilledSoFar(s, name, ttl, messages, n, now, r)
    ensures HoldsNow(s, r.store, name, Held(s, name) - Forgotten(Held(s, name), messages, n, now, ttl))
  {
    hide HoldsNow, Forgotten, Done;
  }

  lemma MessageDone(s: Store, limits: Limits, name: string, messages: seq<Value>, n: nat, now: nat, t: Store, f: Filled)
    requires n < |messages| && HoldsNow(s, t, name, Held(s, name) - Forgotten(Held(s, name), messages, n, now, limits.ttl))
    requires f == if Reached(messages, n) then FilledMessage(t, limits, name, messages[n], now) else Filled(t, messages[n])
    ensures Done(Held(s, name), messages, n, now, limits.ttl, f.message)
    ensures HoldsNow(s, f.store, name, Held(s, name) - Forgotten(Held(s, name), messages, n + 1, now, limits.ttl))
  {
    AskingIsAssistant(messages[n]);
    hide FilledMessage, Reached, Asks, FilledWith, LacksReasoning, FirstExpired, IdsOf, Calls, HoldsNow, Held;
    if Reached(messages, n) && Asks(messages[n]) {
      hide Forgotten;
      NextFilled(s, limits, name, messages, n, now, t);
    }
  }

  lemma Extended(s: Store, name: string, ttl: nat, messages: seq<Value>, n: nat, now: nat, before: FilledAll, f: Filled)
    requires n < |messages| && FilledSoFar(s, name, ttl, messages, n, now, before)
    requires Done(Held(s, name), messages, n, now, ttl, f.message)
    requires HoldsNow(s, f.store, name, Held(s, name) - Forgotten(Held(s, name), messages, n + 1, now, ttl))
    ensures FilledSoFar(s, name, ttl, messages, n + 1, now, FilledAll(f.store, before.messages + [f.message]))
  {
    hide Done, HoldsNow, Forgotten, Held;
  }

  lemma {:induction false} FillsSoFar(s: Store, limits: Limits, name: string, messages: seq<Value>, n: nat, now: nat)
    requires n <= |messages|
    ensures FilledSoFar(s, name, limits.ttl, messages, n, now, FillTo(s, limits, name, messages, n, now))
  {
    hide *;
    if n == 0 {
      NoneFilled(s, limits, name, messages, now);
    } else {
      FillsSoFar(s, limits, name, messages, n - 1, now);
      FilledOneMore(s, limits, name, messages, n - 1, now);
      ReachedIsPastBoundary(messages, n - 1);
      var before := FillTo(s, limits, name, messages, n - 1, now);
      if n - 1 == Boundary(messages) {
        AskingIsAssistant(messages[n - 1]);
      }
      OneMoreFilled(s, limits, name, messages, n - 1, now, before,
                    if Reached(messages, n - 1) then FilledMessage(before.store, limits, name, messages[n - 1], now)
                    else Filled(before.store, messages[n - 1]));
    }
  }

  /**
   Filling a request, message by message: exactly the assistant messages after the newest user message that have calls
   and lack reasoning are looked up, and each gets the text of the first of its ids the session still holds, if that is
   live; otherwise, and everywhere else, nothing changes. All that is forgotten are expired entries that a lookup found
   first; they no longer stand in the way of later ones.
   */
  lemma FillingMeans(s: Store, limits: Limits, name: string, messages: seq<Value>, now: nat)
    ensures var r := FillTo(s, limits, name, messages, |messages|, now); var all := Held(s, name);
            && |r.messages| == |messages|
            && (forall i: nat | i < |messages| :: Done(all, messages, i, now, limits.ttl, r.messages[i]))
            && HoldsNow(s, r.store, name, all - Forgotten(all, messages, |messages|, now, limits.ttl))
  {
    FillsSoFar(s, limits, name, messages, |messages|, now);
    hide FillTo, Forgotten, Done, HoldsNow, Held;
  }

  lemma {:induction false} OnlyExpiredForgotten(entries: map<string, Entry>, messages: seq<Value>, n: nat, now: nat, ttl: nat)
    requires n <= |messages|
    ensures forall id | id in Forgotten(entries, messages, n, now, ttl) :: id in entries && !IsLive(entries[id], now, ttl)
  {
    hide Reached, Asks, IdsOf, Calls;
    if n > 0 {
      OnlyExpiredForgotten(entries, messages, n - 1, now, ttl);
    }
  }

  /**
   So what was stored and is still live comes back: a message whose first held id has a live entry gets that entry's
   text, whatever the messages before it looked up; one without a held id, or with only expired ones, stays as it was.
   */
  lemma LiveComesBack(s: Store, limits: Limits, name: string, messages: seq<Value>, i: nat, now: nat)
    requires i < |messages| && Reached(messages, i) && Asks(messages[i])
    ensures var r := FillTo(s, limits, name, messages, |messages|, now).messages; var ids := IdsOf(Calls(messages[i])); var all := Held(s, name);
            && |r| == |messages|
            && (forall k: nat | FirstAt(all, ids, k) && IsLive(all[ids[k]], now, limits.ttl) :: Given(messages[i], r[i], all[ids[k]].reasoning))
            && ((forall id | id in ids && id in all :: !IsLive(all[id], now, limits.ttl)) ==> r[i] == messages[i])
  {
    var all := Held(s, name);
    var gone := Forgotten(all, messages, i, now, limits.ttl);
    FillingMeans(s, limits, name, messages, now);
    OnlyExpiredForgotten(all, messages, i, now, limits.ttl);
    var ids := IdsOf(Calls(messages[i]));
    hide FillTo, Forgotten, Reached, Asks, Held, HoldsNow, IdsOf, Calls, Given, IsLive;
    forall k: nat | FirstAt(all, ids, k) && IsLive(all[ids[k]], now, limits.ttl) ensures FirstAt(all - gone, ids, k) {
    }
    if forall id | id in ids && id in all :: !IsLive(all[id], now, limits.ttl) {
      forall k: nat | FirstAt(all - gone, ids, k) ensures !IsLive((all - gone)[ids[k]], now, limits.ttl) {
        assert ids[k] in ids;
      }
    }
  }

  /** Reasoning stored under a call's id is put back into the message that leads with that call, until it expires. */
  lemma StoredComesBack(s: Store, limits: Limits, name: string, ids: seq<string>, reasoning: string, now: nat,
                        messages: seq<Value>, i: nat, later: nat)
    requires Valid(s) && Accepted(ids, reasoning, limits) && name in Stored(s, limits, name, ids, reasoning, now).sessions
    requires i < |messages| && Reached(messages, i) && Asks(messages[i]) && later <= now + limits.ttl
    requires var own := IdsOf(Calls(messages[i])); own != [] && own[0] in ids
    ensures var t := Stored(s, limits, name, ids, reasoning, now); var r := FillTo(t, limits, name, messages, |messages|, later).messages;
            |r| == |messages| && Given(messages[i], r[i], reasoning)
  {
    var t := Stored(s, limits, name, ids, reasoning, now);
    var id := IdsOf(Calls(messages[i]))[0];
    StoredIsFound(s, limits, name, ids, reasoning, now, id, later);
    LookupMeans(t, limits, name, [id], later);
    LiveComesBack(t, limits, name, messages, i, later);
    hide Stored, Restored, FillTo, Reached, Asks, Given, Valid, Accepted, IdsOf, Calls;
    assert FirstAt(Held(t, name), IdsOf(Calls(messages[i])), 0);
  }
}
