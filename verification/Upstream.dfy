/**
 What a list of upstream chunks says, read directly off the list. Both response
 paths, streamed and aggregated, are measured against these definitions.
 */
module Upstream {
  import opened Prelude
  import opened Protocol

  function Fragments(seen: seq<Chunk>): seq<Fragment> {
    if seen == [] then []
    else Fragments(seen[..|seen| - 1]) + var last := seen[|seen| - 1]; if last.Data? then last.calls else []
  }

  function TextOf(seen: seq<Chunk>): string {
    if seen == [] then ""
    else TextOf(seen[..|seen| - 1]) + var last := seen[|seen| - 1]; if last.Data? then last.text else ""
  }

  function ReasoningOf(seen: seq<Chunk>): string {
    if seen == [] then ""
    else ReasoningOf(seen[..|seen| - 1]) + var last := seen[|seen| - 1]; if last.Data? then last.reasoning else ""
  }

  /** The last finish reason sent. */
  function FinishOf(seen: seq<Chunk>): Option<string> {
    if seen == [] then None
    else
      var last := seen[|seen| - 1];
      if last.Data? && last.finish.Some? then last.finish else FinishOf(seen[..|seen| - 1])
  }

  /** The last usage sent, whatever its shape. */
  function UsageOf(seen: seq<Chunk>): Option<Usage> {
    if seen == [] then None
    else
      var last := seen[|seen| - 1];
      if last.Data? && last.usage.Some? then last.usage else UsageOf(seen[..|seen| - 1])
  }

  predicate Mentioned(frags: seq<Fragment>, k: nat) {
    exists i | 0 <= i < |frags| :: frags[i].index == k
  }

  /** Everything received for tool index `k`, in order. */
  function ArgsOf(frags: seq<Fragment>, k: nat): string {
    if frags == [] then ""
    else
      var last := frags[|frags| - 1];
      ArgsOf(frags[..|frags| - 1], k) + if last.index == k then last.arguments else ""
  }

  function LastId(frags: seq<Fragment>, k: nat): Option<string> {
    if frags == [] then None
    else
      var last := frags[|frags| - 1];
      if last.index == k && last.id != "" then Some(last.id) else LastId(frags[..|frags| - 1], k)
  }

  function LastName(frags: seq<Fragment>, k: nat): Option<string> {
    if frags == [] then None
    else
      var last := frags[|frags| - 1];
      if last.index == k && last.name != "" then Some(last.name) else LastName(frags[..|frags| - 1], k)
  }

  /** Some fragment named index `k` after a server tool. */
  predicate EverServer(frags: seq<Fragment>, k: nat, names: set<string>) {
    exists i | 0 <= i < |frags| :: frags[i].index == k && frags[i].name != "" && frags[i].name in names
  }

  function FirstId(frags: seq<Fragment>, k: nat): Option<string> {
    if frags == [] then None
    else
      var before := FirstId(frags[..|frags| - 1], k);
      var last := frags[|frags| - 1];
      if before.None? && last.index == k && last.id != "" then Some(last.id) else before
  }

  function FirstName(frags: seq<Fragment>, k: nat): Option<string> {
    if frags == [] then None
    else
      var before := FirstName(frags[..|frags| - 1], k);
      var last := frags[|frags| - 1];
      if before.None? && last.index == k && last.name != "" then Some(last.name) else before
  }

  /** Tool indices in the order they first appear. */
  function Order(frags: seq<Fragment>): seq<nat> {
    if frags == [] then []
    else
      var before := Order(frags[..|frags| - 1]);
      var k := frags[|frags| - 1].index;
      if k in before then before else before + [k]
  }

  lemma {:induction false} OrderListsMentioned(frags: seq<Fragment>)
    ensures forall k: nat :: k in Order(frags) <==> Mentioned(frags, k)
    ensures forall i, j | 0 <= i < j < |Order(frags)| :: Order(frags)[i] != Order(frags)[j]
  {
    if frags != [] {
      var before, last := frags[..|frags| - 1], frags[|frags| - 1];
      OrderListsMentioned(before);
      forall k: nat ensures Mentioned(frags, k) <==> Mentioned(before, k) || k == last.index {
        if Mentioned(before, k) {
          var i :| 0 <= i < |before| && before[i].index == k;
          assert frags[i].index == k;
        }
        if k == last.index {
          assert frags[|frags| - 1].index == k;
        }
        if Mentioned(frags, k) && k != last.index {
          var i :| 0 <= i < |frags| && frags[i].index == k;
          assert before[i].index == k;
        }
      }
    }
  }

  /** How each reading of the fragments changes when one more arrives. */
  lemma OneMore(frags: seq<Fragment>, call: Fragment, k: nat, names: set<string>)
    ensures var more := frags + [call];
            && (Mentioned(more, k) <==> Mentioned(frags, k) || call.index == k)
            && ArgsOf(more, k) == ArgsOf(frags, k) + (if call.index == k then call.arguments else "")
            && LastId(more, k) == (if call.index == k && call.id != "" then Some(call.id) else LastId(frags, k))
            && LastName(more, k) == (if call.index == k && call.name != "" then Some(call.name) else LastName(frags, k))
            && (EverServer(more, k, names) <==>
                  EverServer(frags, k, names) || (call.index == k && call.name != "" && call.name in names))
  {
    var more := frags + [call];
    assert more[..|more| - 1] == frags && more[|frags|] == call;
    assert forall i | 0 <= i < |frags| :: more[i] == frags[i];
  }

  lemma {:induction false} LastNameIsNamed(frags: seq<Fragment>, k: nat, names: set<string>)
    ensures LastName(frags, k).Some? && LastName(frags, k).value in names ==> EverServer(frags, k, names)
    ensures !Mentioned(frags, k) ==> LastId(frags, k).None? && LastName(frags, k).None? && ArgsOf(frags, k) == ""
  {
    if frags != [] {
      var before, last := frags[..|frags| - 1], frags[|frags| - 1];
      assert frags == before + [last];
      OneMore(before, last, k, names);
      LastNameIsNamed(before, k, names);
    }
  }
}
