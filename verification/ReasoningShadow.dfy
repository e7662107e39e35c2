/** The shadow store as the program keeps it: collections and running totals updated in place. */
module ReasoningShadow {
  import opened Prelude
  import opened Json
  import opened Canonical
  import opened ShadowStore

  class ReasoningShadowStore {
    const limits: Limits
    var sessions: map<string, Session>
    var lru: seq<string>
    var totalBytes: nat

    function View(): Store
      reads this
    {
      Store(sessions, lru, totalBytes)
    }

    constructor (limits: Limits)
      ensures View() == EMPTY && Valid(View()) && this.limits == limits
    {
      this.limits := limits;
      sessions, lru, totalBytes := map[], [], 0;
    }

    method StoreReasoning(name: string, ids: seq<string>, reasoning: string, now: nat)
      requires Valid(View())
      modifies this
      ensures Valid(View()) && View() == Stored(old(View()), limits, name, ids, reasoning, now)
    {
      if reasoning == "" || ids == [] {
        return;
      }
      if Bytes(reasoning) > limits.maxEntryBytes {
        return;
      }
      InsertKeeps(View(), name, ids, reasoning, now);
      hide *;
      InsertSession(name, ids, reasoning, now);
      EnforceLimits(now);
      StoredIs(old(View()), limits, name, ids, reasoning, now);
    }

    method InsertSession(name: string, ids: seq<string>, reasoning: string, now: nat)
      modifies this
      ensures View() == Inserted(old(View()), name, ids, reasoning, now)
    {
      var bytes := Bytes(reasoning);
      hide Bytes, InsertAll;
      if name !in sessions {
        lru := lru + [name];
      }
      var session := if name in sessions then sessions[name] else Session(map[], 0);
      var entries, added := InsertEntries(session.entries, ids, Entry(reasoning, now), bytes);
      sessions := sessions[name := Session(entries, session.bytes + added)];
      totalBytes := totalBytes + added;
    }

    static method InsertEntries(held: map<string, Entry>, ids: seq<string>, e: Entry, bytes: nat)
        returns (entries: map<string, Entry>, added: nat)
      ensures entries == InsertAll(held, ids, e) && added == |ids| * bytes
    {
      entries, added := held, 0;
      assert ids[..0] == [];
      for i := 0 to |ids|
        invariant entries == InsertAll(held, ids[..i], e) && added == i * bytes
      {
        assert ids[..i + 1][..i] == ids[..i];
        entries := entries[ids[i] := e];
        added := added + bytes;
      }
      assert ids[..|ids|] == ids;
    }

    /** Whichever order the stale sessions are visited in. */
    method EnforceLimits(now: nat)
      requires Valid(View())
      modifies this
      ensures Valid(View()) && View() == Enforced(old(View()), limits, now)
    {
      Sweep(now);
      var _ := BytesEvictedIs(View(), limits.maxTotalBytes);
      EvictBytes();
      EvictCount();
    }

    method Sweep(now: nat)
      requires Valid(View())
      modifies this
      ensures Valid(View()) && View() == Without(old(View()), Stale(old(View()), now, limits.ttl))
    {
      ghost var s := View();
      var expired := Stale(View(), now, limits.ttl);
      ghost var stale := expired;
      NothingRemoved(s, stale);
      hide *;
      while expired != {}
        invariant expired <= stale && View() == Without(s, stale - expired)
        invariant Valid(s) && Valid(View()) && stale == Stale(s, now, limits.ttl)
        decreases |expired|
      {
        var name :| name in expired;
        StaleIsLive(s, now, limits.ttl, name);
        OneRemoved(s, stale, expired, name);
        ClearSession(name);
        expired := expired - {name};
      }
      AllRemoved(stale);
    }

    method EvictBytes()
      requires Valid(View())
      modifies this
      ensures Valid(View()) && View() == BytesEvicted(old(View()), limits.maxTotalBytes)
    {
      ghost var goal := BytesEvicted(View(), limits.maxTotalBytes);
      while totalBytes > limits.maxTotalBytes
        invariant Valid(View()) && BytesEvicted(View(), limits.maxTotalBytes) == goal
        decreases |lru|
      {
        if lru == [] {
          break;
        }
        PopFront();
      }
    }

    method EvictCount()
      requires Valid(View())
      modifies this
      ensures Valid(View()) && View() == CountEvicted(old(View()), limits.maxSessions)
    {
      ghost var goal := CountEvicted(View(), limits.maxSessions);
      while |sessions| > limits.maxSessions
        invariant Valid(View()) && CountEvicted(View(), limits.maxSessions) == goal
        decreases |lru|
      {
        if lru == [] {
          break;
        }
        PopFront();
      }
    }

    method PopFront()
      requires Valid(View()) && lru != []
      modifies this
      ensures Valid(View()) && View() == Popped(old(View())) && |lru| < |old(lru)|
    {
      PopKeeps(View());
      var victim := lru[0];
      assert victim in sessions;
      hide Valid;
      if victim in sessions {
        totalBytes := SaturatingSub(totalBytes, sessions[victim].bytes);
        sessions := sessions - {victim};
      }
      lru := lru[1..];
    }

    method ClearSession(name: string)
      requires Valid(View())
      modifies this
      ensures Valid(View()) && View() == Cleared(old(View()), name)
    {
      ClearedIsWithout(View(), name);
      hide Valid;
      if name in sessions {
        totalBytes := SaturatingSub(totalBytes, sessions[name].bytes);
        sessions := sessions - {name};
        lru := Keep(lru, {name});
      }
    }

    method Restore(name: string, ids: seq<string>, now: nat) returns (hit: Option<string>)
      requires Valid(View())
      modifies this
      ensures Valid(View()) && Lookup(View(), hit) == Restored(old(View()), limits, name, ids, now)
    {
      RestoredKeeps(View(), limits, name, ids, now);
      hide Valid;
      hit := None;
      if ids == [] || name !in sessions {
        return;
      }
      ghost var s := View();
      for i := 0 to |ids|
        invariant View() == s && FirstHeld(sessions[name].entries, ids) == FirstHeld(sessions[name].entries, ids[i..])
      {
        var id := ids[i];
        assert ids[i..][1..] == ids[i + 1..];
        if id in sessions[name].entries {
          var entry := sessions[name].entries[id];
          if Expired(entry, now, limits.ttl) {
            sessions := sessions[name := sessions[name].(entries := sessions[name].entries - {id})];
            return None;
          }
          return Some(entry.reasoning);
        }
      }
      assert ids[|ids|..] == [];
    }
  }

  lemma WithoutNone(s: Store)
    requires Valid(s)
    ensures Without(s, {}) == s
  {
    KeepAll(s.lru);
    assert s.sessions - {} == s.sessions;
  }

  lemma StoredIs(s: Store, limits: Limits, name: string, ids: seq<string>, reasoning: string, now: nat)
    requires reasoning != "" && ids != [] && Bytes(reasoning) <= limits.maxEntryBytes
    ensures Stored(s, limits, name, ids, reasoning, now) == Enforced(Inserted(s, name, ids, reasoning, now), limits, now)
  {
    hide Enforced, Inserted, Bytes;
  }

  lemma NothingRemoved(s: Store, stale: set<string>)
    requires Valid(s)
    ensures Without(s, stale - stale) == s
  {
    WithoutNone(s);
    assert stale - stale == {};
  }

  lemma AllRemoved(stale: set<string>)
    ensures stale - {} == stale
  {
  }

  lemma OneRemoved(s: Store, stale: set<string>, expired: set<string>, name: string)
    requires Valid(s) && name in s.sessions && name in expired && expired <= stale
    ensures Cleared(Without(s, stale - expired), name) == Without(s, stale - (expired - {name}))
    ensures expired - {name} <= stale && |expired - {name}| < |expired|
  {
    hide Without, Valid;
    WithoutOneMore(s, stale - expired, name);
    assert stale - expired + {name} == stale - (expired - {name});
  }

  lemma StaleIsLive(s: Store, now: nat, ttl: nat, name: string)
    requires name in Stale(s, now, ttl)
    ensures name in s.sessions
  {
  }

  lemma KeepCons(first: string, rest: seq<string>, gone: set<string>)
    ensures Keep([first] + rest, gone) == (if first in gone then [] else [first]) + Keep(rest, gone)
  {
    assert ([first] + rest)[1..] == rest;
  }

  lemma {:induction false} KeepTwice(names: seq<string>, gone: set<string>, name: string)
    ensures Keep(Keep(names, gone), {name}) == Keep(names, gone + {name})
  {
    if names != [] {
      var first, kept := names[0], Keep(names[1..], gone);
      KeepTwice(names[1..], gone, name);
      if first in gone {
        assert [] + kept == kept;
      } else {
        KeepCons(first, kept, {name});
      }
    }
  }

  /** Removing one more session from what is left. */
  lemma WithoutOneMore(s: Store, gone: set<string>, name: string)
    requires Valid(s) && name in s.sessions && name !in gone
    ensures Cleared(Without(s, gone), name) == Without(s, gone + {name})
  {
    WithoutKeeps(s, gone);
    ClearedIsWithout(Without(s, gone), name);
    hide Valid, Sum;
    KeepTwice(s.lru, gone, name);
    assert s.sessions - gone - {name} == s.sessions - (gone + {name});
    assert name in Without(s, gone).sessions;
  }

  // ---- filling reasoning into a request ----

  /** The string ids among a message's calls. */
  function CallIds(calls: seq<Value>): seq<string> {
    if calls == [] then []
    else
      var id := Get(calls[|calls| - 1], "id");
      CallIds(calls[..|calls| - 1]) + if id.Some? && id.value.Str? then [id.value.text] else []
  }

  predicate LacksReasoning(m: Value) {
    HasRole(m, "assistant") && Get(m, "reasoning_content").None? && HasCalls(m)
  }

  datatype Filled = Filled(store: Store, message: Value)

  function FilledMessage(s: Store, limits: Limits, name: string, m: Value, now: nat): Filled {
    if !LacksReasoning(m) then Filled(s, m)
    else
      var l := Restored(s, limits, name, CallIds(Calls(m)), now);
      Filled(l.store, if l.hit.None? then m else Obj(Put(m.fields, "reasoning_content", Str(l.hit.value))))
  }

  /** The newest user message; the length if there is none. */
  function Boundary(messages: seq<Value>): (b: nat)
    ensures b <= |messages| && (b < |messages| ==> HasRole(messages[b], "user"))
    ensures forall i | 0 <= i < |messages| && (i > b || b == |messages|) :: !HasRole(messages[i], "user")
  {
    if messages == [] then 0
    else if HasRole(messages[|messages| - 1], "user") then |messages| - 1
    else
      var b := Boundary(messages[..|messages| - 1]);
      if b == |messages| - 1 then |messages| else b
  }

  datatype FilledAll = FilledAll(store: Store, messages: seq<Value>)

  /** The first `n` messages with what the store knows filled in, from the boundary on. */
  function FillTo(s: Store, limits: Limits, name: string, messages: seq<Value>, n: nat, now: nat): (r: FilledAll)
    requires n <= |messages|
    ensures |r.messages| == n
  {
    if n == 0 then FilledAll(s, [])
    else
      var before := FillTo(s, limits, name, messages, n - 1, now);
      if n - 1 < Boundary(messages) then FilledAll(before.store, before.messages + [messages[n - 1]])
      else
        var f := FilledMessage(before.store, limits, name, messages[n - 1], now);
        FilledAll(f.store, before.messages + [f.message])
  }

  /** The message with a reasoning text the log has, unexpired, for one of the message's own calls. */
  predicate FilledFromLog(limits: Limits, ops: seq<Op>, name: string, m: Value, filled: Value, now: nat) {
    exists id :: id in CallIds(Calls(m)) && Latest(limits, ops, name, id).Some?
                 && !Expired(Latest(limits, ops, name, id).value, now, limits.ttl)
                 && LacksReasoning(m)
                 && filled == Obj(Put(m.fields, "reasoning_content", Str(Latest(limits, ops, name, id).value.reasoning)))
  }

  lemma RestoredStaysLogged(limits: Limits, ops: seq<Op>, s: Store, name: string, ids: seq<string>, now: nat)
    requires AllLogged(limits, ops, s)
    ensures AllLogged(limits, ops, Restored(s, limits, name, ids, now).store)
    ensures var hit := Restored(s, limits, name, ids, now).hit;
            hit.Some? ==> exists id :: id in ids && Latest(limits, ops, name, id).Some?
                                       && !Expired(Latest(limits, ops, name, id).value, now, limits.ttl)
                                       && Latest(limits, ops, name, id).value.reasoning == hit.value
  {
    hide Latest, FirstHeld;
    var t := Restored(s, limits, name, ids, now);
    forall n | n in t.store.sessions ensures Logged(limits, ops, n, t.store.sessions[n].entries) {
      assert Logged(limits, ops, n, s.sessions[n].entries);
    }
    if t.hit.Some? {
      var id := FirstHeld(s.sessions[name].entries, ids).value;
      assert Logged(limits, ops, name, s.sessions[name].entries);
    }
  }

  lemma MessageFromLog(limits: Limits, ops: seq<Op>, s: Store, name: string, m: Value, now: nat)
    requires AllLogged(limits, ops, s)
    ensures var f := FilledMessage(s, limits, name, m, now);
            AllLogged(limits, ops, f.store) && (f.message == m || FilledFromLog(limits, ops, name, m, f.message, now))
  {
    hide Latest, AllLogged, Restored, Put, CallIds, LacksReasoning;
    if LacksReasoning(m) {
      RestoredStaysLogged(limits, ops, s, name, CallIds(Calls(m)), now);
    }
  }

  /**
   Filling a request changes nothing before the newest user message, and after it only gives assistant messages
   without reasoning the latest unexpired reasoning logged for one of their own calls.
   */
  lemma {:induction false} FilledOnlyFromLog(limits: Limits, ops: seq<Op>, s: Store, name: string, messages: seq<Value>, n: nat, now: nat)
    requires AllLogged(limits, ops, s) && n <= |messages|
    ensures AllLogged(limits, ops, FillTo(s, limits, name, messages, n, now).store)
    ensures var r := FillTo(s, limits, name, messages, n, now).messages;
            forall i | 0 <= i < n :: r[i] == messages[i]
              || (Boundary(messages) < i && FilledFromLog(limits, ops, name, messages[i], r[i], now))
  {
    hide Latest, AllLogged, FilledMessage, FilledFromLog, Boundary;
    if n > 0 {
      FilledOnlyFromLog(limits, ops, s, name, messages, n - 1, now);
      var before := FillTo(s, limits, name, messages, n - 1, now);
      MessageFromLog(limits, ops, before.store, name, messages[n - 1], now);
      if Boundary(messages) == n - 1 {
        UserIsNotFilled(before.store, limits, name, messages[n - 1], now);
      }
    }
  }

  lemma UserIsNotFilled(s: Store, limits: Limits, name: string, m: Value, now: nat)
    requires HasRole(m, "user")
    ensures FilledMessage(s, limits, name, m, now).message == m
  {
    assert "user"[0] != "assistant"[0];
  }

  /** Reads the ids off the calls, skipping calls without one. */
  method CollectIds(calls: seq<Value>) returns (ids: seq<string>)
    ensures ids == CallIds(calls)
  {
    ids := [];
    assert calls[..0] == [];
    for i := 0 to |calls|
      invariant ids == CallIds(calls[..i])
    {
      assert calls[..i + 1][..i] == calls[..i];
      var id := Get(calls[i], "id");
      hide Get;
      if id.Some? && id.value.Str? {
        ids := ids + [id.value.text];
      } else {
        assert ids + [] == ids;
      }
    }
    assert calls[..|calls|] == calls;
  }

  method FindBoundary(messages: array<Value>) returns (b: nat)
    ensures b == Boundary(messages[..])
  {
    ghost var all := messages[..];
    b := messages.Length;
    while b > 0
      invariant b <= messages.Length && forall i | b <= i < messages.Length :: !HasRole(all[i], "user")
    {
      if HasRole(messages[b - 1], "user") {
        return b - 1;
      }
      b := b - 1;
    }
    b := messages.Length;
  }

  /** Fills a request in place; no array stands for a body without messages. */
  method RestoreInto(shadow: ReasoningShadowStore, messages: array?<Value>, name: string, now: nat)
    requires Valid(shadow.View())
    modifies shadow, messages
    ensures Valid(shadow.View())
    ensures messages == null ==> shadow.View() == old(shadow.View())
    ensures messages != null ==>
      FilledAll(shadow.View(), messages[..]) == FillTo(old(shadow.View()), shadow.limits, name, old(messages[..]), messages.Length, now)
  {
    if messages == null {
      return;
    }
    ghost var all, s := messages[..], shadow.View();
    var boundary := FindBoundary(messages);
    FilledNone(s, shadow.limits, name, all, now);
    hide Valid, FilledMessage, Boundary, FillTo;
    for i := 0 to messages.Length
      invariant Valid(shadow.View()) && messages[i..] == all[i..]
      invariant FillTo(s, shadow.limits, name, all, i, now) == FilledAll(shadow.View(), messages[..i])
    {
      RestoreAt(shadow, messages, i, boundary, s, all, name, now);
    }
    assert messages[..messages.Length] == messages[..];
  }

  method RestoreAt(shadow: ReasoningShadowStore, messages: array<Value>, i: nat, boundary: nat, ghost s: Store, ghost all: seq<Value>,
                   name: string, now: nat)
    requires Valid(shadow.View()) && i < messages.Length == |all| && messages[i..] == all[i..] && boundary == Boundary(all)
    requires FillTo(s, shadow.limits, name, all, i, now) == FilledAll(shadow.View(), messages[..i])
    modifies shadow, messages
    ensures Valid(shadow.View()) && messages[i + 1..] == all[i + 1..]
    ensures FillTo(s, shadow.limits, name, all, i + 1, now) == FilledAll(shadow.View(), messages[..i + 1])
  {
    FilledOneMore(s, shadow.limits, name, all, i, now);
    hide Valid, FilledMessage, Boundary, FillTo;
    assert messages[i] == messages[i..][0] == all[i..][0] == all[i];
    assert messages[i + 1..] == messages[i..][1..] == all[i..][1..] == all[i + 1..];
    if i >= boundary {
      FillMessage(shadow, messages, i, name, now);
    }
    assert messages[..i + 1] == messages[..i] + [messages[i]];
  }

  lemma FilledNone(s: Store, limits: Limits, name: string, messages: seq<Value>, now: nat)
    ensures FillTo(s, limits, name, messages, 0, now) == FilledAll(s, [])
  {
  }

  lemma FilledOneMore(s: Store, limits: Limits, name: string, messages: seq<Value>, n: nat, now: nat)
    requires n < |messages|
    ensures var before := FillTo(s, limits, name, messages, n, now); var f := FilledMessage(before.store, limits, name, messages[n], now);
            FillTo(s, limits, name, messages, n + 1, now)
            == if n < Boundary(messages) then FilledAll(before.store, before.messages + [messages[n]])
               else FilledAll(f.store, before.messages + [f.message])
    ensures messages[n..][1..] == messages[n + 1..]
  {
    hide FilledMessage, Boundary;
  }

  method FillMessage(shadow: ReasoningShadowStore, messages: array<Value>, i: nat, name: string, now: nat)
    requires Valid(shadow.View()) && i < messages.Length
    modifies shadow, messages
    ensures Valid(shadow.View())
    ensures Filled(shadow.View(), messages[i]) == FilledMessage(old(shadow.View()), shadow.limits, name, old(messages[i]), now)
    ensures messages[..i] == old(messages[..i]) && messages[i + 1..] == old(messages[i + 1..])
  {
    hide Valid, Restored, Put;
    if HasRole(messages[i], "assistant") && Get(messages[i], "reasoning_content").None? && HasCalls(messages[i]) {
      var ids := CollectIds(Calls(messages[i]));
      var hit := shadow.Restore(name, ids, now);
      if hit.Some? {
        messages[i] := Obj(Put(messages[i].fields, "reasoning_content", Str(hit.value)));
      }
    }
  }
}
