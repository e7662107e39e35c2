/** Where each tool index of a server-tool round ends up: shown to the client, handed to the search, or neither. */
module Delivery {
  import opened Prelude
  import opened Protocol
  import opened Upstream
  import opened Translator
  import opened Lifecycle
  import opened Finishing
  import opened ToolBlocks

  /** The call is among the round's search calls. */
  predicate Handed(s: Stream, k: nat)
    requires k in s.tools
  {
    CallName(s.tools[k]) in s.serverNames
  }

  /** No fragment takes the search tool's name away from the index again. */
  predicate KeepsServerName(frags: seq<Fragment>, k: nat, names: set<string>) {
    EverServer(frags, k, names) ==> LastName(frags, k).Some? && LastName(frags, k).value in names
  }

  lemma NotStartedWhenServer(s: Stream, order: seq<nat>, k: nat)
    requires PendingOrder(s, order) && k in s.tools && s.tools[k].server
    ensures Finalize(s, order).s.tools[k] == s.tools[k]
  {
    StartToolsResult(s, order);
    assert k !in PendingTools(s);
    hide StartTools;
  }

  lemma NotDeliveredUnstarted(s: Stream, c: Client, k: nat, frags: seq<Fragment>)
    requires k in s.tools && s.tools[k].block.None?
    ensures !Delivered(s, c, k, frags)
  {
  }

  /**
   In a round with server tools every index reaches exactly one destination, with every fragment it received,
   if and only if no fragment renames it away from the search tool once it had that name. An index renamed so
   is neither shown nor searched: its fragments are lost.
   */
  lemma ExactlyOneDestination(s: Stream, c: Client, order: seq<nat>, said: string, reasoning: string, frags: seq<Fragment>, k: nat)
    requires Inv(s, c, said, reasoning, frags) && s.started && !s.terminal && PendingOrder(s, order)
    requires s.serverNames == {FUNCTION_NAME} && Mentioned(frags, k)
    ensures k in s.tools && s.tools[k].pending == ArgsOf(frags, k)
    ensures var o := Finalize(s, order); var d := Play(c, o.frames);
            && (Delivered(o.s, d, k, frags) <==> !EverServer(frags, k, s.serverNames))
            && (Handed(s, k) <==> LastName(frags, k).Some? && LastName(frags, k).value in s.serverNames)
            && (Delivered(o.s, d, k, frags) != Handed(s, k) <==> KeepsServerName(frags, k, s.serverNames))
  {
    hide Finalize, Play, Sync, Heard, Delivered;
    FinalizeDelivers(s, c, order, said, reasoning, frags);
    assert ToolTracks(s.tools[k], k, s.serverNames, c, frags);
    assert s.tools[k].block.None?;
    LastNameIsNamed(frags, k, s.serverNames);
    assert "unknown" != FUNCTION_NAME;
    hide ToolsTrack, Buffered;
    if s.tools[k].server {
      NotStartedWhenServer(s, order, k);
      NotDeliveredUnstarted(Finalize(s, order).s, Play(c, Finalize(s, order).frames), k, frags);
    }
  }

  /**
   Read off a round's fragments alone: an index is either among the calls left for the client or among those naming the
   search tool, and not both, if and only if no fragment renames it away.
   */
  lemma OneDestinationInRound(frags: seq<Fragment>, order: seq<nat>, k: nat)
    requires HeldOrder(frags, {FUNCTION_NAME}, order) && Mentioned(frags, k)
    ensures (k in order) != (HeldCall(frags, k).name == FUNCTION_NAME) <==> KeepsServerName(frags, k, {FUNCTION_NAME})
  {
    assert k in order <==> Held(frags, {FUNCTION_NAME}, k);
    LastNameIsNamed(frags, k, {FUNCTION_NAME});
    assert "unknown" != FUNCTION_NAME by { assert "unknown"[0] != FUNCTION_NAME[0]; }
    hide LastName, EverServer, ArgsOf, LastId;
  }

  const SEARCH_PART: Fragment := Fragment(0, "c", FUNCTION_NAME, "{")
  const RENAMED_PART: Fragment := Fragment(0, "", "Read", "}")
  const RENAMING: Chunk := Data(None, None, None, Some("tool_calls"), "", "", [SEARCH_PART, RENAMED_PART])

  lemma {:induction false} BufferedOpensNothing(s: Stream, calls: seq<Fragment>)
    requires s.serverNames != {} && forall k | k in s.tools :: s.tools[k].block.None?
    ensures var t := HandleTools(s, calls).s; t == s.(tools := t.tools) && forall k | k in t.tools :: t.tools[k].block.None?
    decreases |calls|
  {
    if calls != [] {
      var n := |calls| - 1;
      BufferedOpensNothing(s, calls[..n]);
      HandleToolCases(HandleTools(s, calls[..n]).s, calls[n]);
      hide HandleTool;
    }
  }

  lemma RenamedParts()
    ensures EverServer(RENAMING.calls, 0, {FUNCTION_NAME}) && LastName(RENAMING.calls, 0) == Some("Read") && Mentioned(RENAMING.calls, 0)
    ensures "Read" != FUNCTION_NAME
  {
    assert RENAMING.calls[0] == SEARCH_PART && RENAMING.calls[1] == RENAMED_PART;
    assert FUNCTION_NAME[0] == 'w';
  }

  /** The translator before and after the chunk that renames the searched index. */
  lemma RenamingRuns()
    ensures var o := HandleData(NewStream(false, {FUNCTION_NAME}), RENAMING, "r", "m");
            && Inv(o.s, Play(NEW_CLIENT, o.frames), "", "", RENAMING.calls)
            && o.s.started && !o.s.terminal && o.s.serverNames == {FUNCTION_NAME} && o.s.blocks == []
  {
    var s := NewStream(false, {FUNCTION_NAME});
    PlayNothing(NEW_CLIENT);
    assert "" + "" == "" && [] + RENAMING.calls == RENAMING.calls;
    assert Inv(s, NEW_CLIENT, "", "", []);
    HandleDataKeeps(s, NEW_CLIENT, RENAMING, "r", "m", "", "", []);
    BufferedOpensNothing(HandleText(HandleReasoning(Note(Begin(s, RENAMING, "r", "m").s, RENAMING), "").s, "").s, RENAMING.calls);
    hide Inv, HandleTools, Play;
  }

  /**
   Such a renaming, from a new stream to the end of the reply: the search tool's fragments first, then another name
   for the same index. The reply stops without a single block, and nothing is searched.
   */
  lemma RenamedAwayIsPossible()
    ensures var o := HandleData(NewStream(false, {FUNCTION_NAME}), RENAMING, "r", "m"); var c := Play(NEW_CLIENT, o.frames);
            && PendingOrder(o.s, []) && 0 in o.s.tools && o.s.tools[0].pending == "{}"
            && var p := Finalize(o.s, []); var d := Play(c, p.frames);
               && d.phase == Stopped && d.blocks == []
               && !Delivered(p.s, d, 0, RENAMING.calls) && !Handed(o.s, 0)
               && !KeepsServerName(RENAMING.calls, 0, {FUNCTION_NAME})
  {
    RenamingRuns();
    RenamedParts();
    var o := HandleData(NewStream(false, {FUNCTION_NAME}), RENAMING, "r", "m");
    var c := Play(NEW_CLIENT, o.frames);
    hide HandleData, Play, Inv, Sync, Delivered, FinishWithStop, StartTools, EverServer, KeepsServerName, LastName, Closing;
    NothingLeftToStart(o.s, c);
    ExactlyOneDestination(o.s, c, [], "", "", RENAMING.calls, 0);
    assert ArgsOf(RENAMING.calls, 0) == "{}" by { RenamedArguments(); }
    assert KeepsServerName(RENAMING.calls, 0, {FUNCTION_NAME}) == false by { RenamedLost(); }
    hide ArgsOf;
    FinishEffect(o.s, c, None);
    assert Finalize(o.s, []).frames == FinishWithStop(o.s, None).frames by { NothingToStart(o.s); }
    hide Finalize;
    assert CloseBelow(c.blocks, |c.blocks|) == [];
  }

  lemma NothingToStart(s: Stream)
    requires !s.terminal && PendingOrder(s, [])
    ensures Finalize(s, []).frames == FinishWithStop(s, None).frames
  {
    assert [] + FinishWithStop(s, None).frames == FinishWithStop(s, None).frames;
  }

  lemma RenamedArguments()
    ensures ArgsOf(RENAMING.calls, 0) == "{}"
  {
    OneMore([], SEARCH_PART, 0, {});
    OneMore([SEARCH_PART], RENAMED_PART, 0, {});
    assert [] + [SEARCH_PART] == [SEARCH_PART] && [SEARCH_PART] + [RENAMED_PART] == RENAMING.calls;
    assert "" + "{" == "{" && "{" + "}" == "{}";
  }

  lemma RenamedLost()
    ensures !KeepsServerName(RENAMING.calls, 0, {FUNCTION_NAME})
  {
    RenamedParts();
  }

  lemma NothingLeftToStart(s: Stream, c: Client)
    requires Inv(s, c, "", "", RENAMING.calls) && s.serverNames == {FUNCTION_NAME}
    ensures PendingOrder(s, []) && |c.blocks| == |s.blocks| && Sync(s, c)
  {
    RenamedParts();
    hide EverServer, LastName, ArgsOf, SaidTracks, Buffered;
    forall k | k in s.tools ensures s.tools[k].server {
      assert ToolTracks(s.tools[k], k, s.serverNames, c, RENAMING.calls);
      assert Mentioned(RENAMING.calls, k);
      OnlyZeroMentioned(k);
    }
    hide ToolsTrack;
  }

  lemma OnlyZeroMentioned(k: nat)
    requires Mentioned(RENAMING.calls, k)
    ensures k == 0
  {
  }
}
