/** What writing one line does, read off the log before and after, for every answer of the file system. */
module Rolling {
  import opened Prelude
  import opened LogFiles

  /** The open segment still has room. */
  predicate HasRoom(l: Log, q: Quota) {
    l.open && l.segments != [] && l.segments[|l.segments| - 1].bytes < q.maxFileBytes
  }

  /** The segment's number is the largest in use. */
  predicate Largest(segments: seq<Segment>, i: nat) {
    && i < |segments| && IndexOf(segments[i].path).Some?
    && forall j | 0 <= j < |segments| && IndexOf(segments[j].path).Some? ::
         IndexOf(segments[j].path).value <= IndexOf(segments[i].path).value
  }

  /** Where the search for a name starts: one past the largest number in use, sticking at the largest there is; else at 1. */
  predicate StartsAt(segments: seq<Segment>, start: nat) {
    && ((forall i | 0 <= i < |segments| :: IndexOf(segments[i].path).None?) ==> start == 1)
    && forall i: nat | i < |segments| && Largest(segments, i) ::
         start == if IndexOf(segments[i].path).value < U32_MAX then IndexOf(segments[i].path).value + 1 else U32_MAX
  }

  predicate LeastFree(disk: set<string>, start: nat, n: nat) {
    start <= n <= U32_MAX && NameOf(n) !in disk && forall i | start <= i < n :: NameOf(i) in disk
  }

  /** The log with a new empty segment under the name, open for writing. */
  function Fresh(l: Log, name: string): Log {
    Log(l.segments + [Segment(name, 0)], l.totalBytes, true, Some(name), l.degraded, l.disk + {name})
  }

  /** The log with the line and its line feed in its last segment. */
  function Grown(l: Log, line: nat): Log
    requires l.segments != []
  {
    var n := |l.segments| - 1;
    l.(segments := l.segments[..n] + [Segment(l.segments[n].path, l.segments[n].bytes + line + 1)], totalBytes := l.totalBytes + line + 1)
  }

  /** The line goes to the last segment of `base`, or the write fails and logging ends; then the quota is enforced. */
  ghost predicate Lands(base: Log, q: Quota, line: nat, env: Env, r: Log, k: nat) {
    base.segments != []
    && if env.writeFails then r == base.(degraded := true)
       else
         && Dropped(Grown(base, line), r, k, env.stuck) && Needed(Grown(base, line), q, k) && r.totalBytes == Total(r.segments)
         && (r.totalBytes <= q.maxTotalBytes || r.segments == [] || r.active == Some(r.segments[0].path))
  }

  lemma {:induction false} LargestExists(segments: seq<Segment>) returns (i: nat)
    requires SomeIndex(segments)
    ensures Largest(segments, i) && IndexOf(segments[i].path).value == LargestIndex(segments)
  {
    hide IndexOf;
    var n := |segments| - 1;
    var front := segments[..n];
    if SomeIndex(front) {
      i := LargestExists(front);
      if IndexOf(segments[n].path).Some? && IndexOf(segments[n].path).value > LargestIndex(front) {
        i := n;
      }
    } else {
      i := n;
      NoneIsZero(front);
      var j :| 0 <= j < |segments| && IndexOf(segments[j].path).Some?;
      assert j < n ==> front[j] == segments[j];
    }
    forall j | 0 <= j < |segments| && IndexOf(segments[j].path).Some?
      ensures IndexOf(segments[j].path).value <= IndexOf(segments[i].path).value
    {
      assert j < n ==> front[j] == segments[j];
    }
  }

  lemma {:induction false} NoneIsZero(segments: seq<Segment>)
    requires !SomeIndex(segments)
    ensures LargestIndex(segments) == 0
  {
    hide IndexOf;
    if segments != [] {
      NoneIsZero(segments[..|segments| - 1]);
    }
  }

  lemma NextStarts(segments: seq<Segment>)
    ensures StartsAt(segments, NextIndex(segments)) && NextIndex(segments) <= U32_MAX
  {
    hide IndexOf, LargestIndex;
    if SomeIndex(segments) {
      var i := LargestExists(segments);
      forall j: nat | j < |segments| && Largest(segments, j) ensures IndexOf(segments[j].path) == IndexOf(segments[i].path) {
      }
    }
  }

  lemma FirstIsLeast(disk: set<string>, start: nat)
    requires start <= U32_MAX
    ensures HasFree(disk, start) ==> LeastFree(disk, start, FirstFree(disk, start))
    ensures HasFree(disk, start) <==> exists i | start <= i <= U32_MAX :: NameOf(i) !in disk
  {
    hide NameOf;
    if HasFree(disk, start) {
      var f := FirstFree(disk, start);
      assert Free(disk, f);
      forall i | start <= i < f ensures NameOf(i) in disk {
        assert !Free(disk, i);
      }
      var i :| start <= i <= U32_MAX && Free(disk, i);
    }
    if i :| start <= i <= U32_MAX && NameOf(i) !in disk {
      assert Free(disk, i);
    }
  }

  lemma OneLeast(disk: set<string>, start: nat, a: nat, b: nat)
    requires LeastFree(disk, start, a) && LeastFree(disk, start, b)
    ensures a == b
  {
    hide NameOf;
  }

  lemma RotatesWithoutRoom(l: Log, q: Quota)
    requires Valid(l)
    ensures MustRotate(l, q) <==> !HasRoom(l, q)
  {
    if l.open {
      LastBytes(l.segments, |l.segments| - 1);
    }
    hide Total;
  }

  lemma AppendedIsGrown(l: Log, line: nat)
    requires l.segments != []
    ensures Appended(l, line + 1) == Grown(l, line)
  {
    var n := |l.segments| - 1;
    assert l.segments == l.segments[..n] + [l.segments[n]];
  }

  lemma OpenedMeans(l: Log, denied: set<string>)
    requires Valid(l)
    ensures var start := NextIndex(l.segments); var o := Opened(l, denied);
            && StartsAt(l.segments, start) && start <= U32_MAX
            && ((forall i | start <= i <= U32_MAX :: NameOf(i) in l.disk) ==> o == Err(Endless))
            && ((exists i | start <= i <= U32_MAX :: NameOf(i) !in l.disk) ==>
                  exists n: nat :: LeastFree(l.disk, start, n) && o == if NameOf(n) in denied then Err(Denied) else Ok(Fresh(l, NameOf(n))))
  {
    var start := NextIndex(l.segments);
    NextStarts(l.segments);
    FirstIsLeast(l.disk, start);
    hide NameOf, NextIndex, HasFree, FirstFree, StartsAt, LeastFree, Valid;
    if HasFree(l.disk, start) {
      assert LeastFree(l.disk, start, FirstFree(l.disk, start));
    }
  }

  lemma LineLands(base: Log, q: Quota, line: nat, env: Env) returns (k: nat)
    requires Valid(base) && base.segments != [] && q.cleanupTarget <= q.maxTotalBytes
    ensures Lands(base, q, line, env, if env.writeFails then base.(degraded := true) else Enforced(Appended(base, line + 1), q, env.stuck), k)
  {
    k := 0;
    if !env.writeFails {
      AppendedKeeps(base, line + 1);
      AppendedIsGrown(base, line);
      k := EnforcedIsShortest(Appended(base, line + 1), q, env.stuck);
      hide Enforced, Appended, Grown, Dropped, Needed, Total, DistinctPaths;
    }
  }

  /** What becomes of a line when the writer is open and has room, and when it is not. */
  ghost predicate Outcome(l: Log, q: Quota, line: nat, env: Env, start: nat, k: nat, r: Option<Log>) {
    if l.degraded then r == Some(l)
    else if HasRoom(l, q) then r.Some? && Lands(l, q, line, env, r.value, k)
    else
      && ((forall i | start <= i <= U32_MAX :: NameOf(i) in l.disk) ==> r == None)
      && forall n: nat | LeastFree(l.disk, start, n) ::
           r.Some? && if NameOf(n) in env.denied then r.value == l.(open := false, active := None, degraded := true)
                      else Lands(Fresh(l, NameOf(n)), q, line, env, r.value, k)
  }

  /**
   A line is written to the open segment if that has room, else to a fresh one under the least free number past those in
   use; if all are taken the call never returns, and if the file cannot be made or the line not written logging ends.
   Then the oldest segments go, no more than the quota asks for, each with its file unless that cannot be removed.
   */
  lemma WrittenMeans(l: Log, q: Quota, line: nat, env: Env) returns (start: nat, k: nat)
    requires Valid(l) && q.cleanupTarget <= q.maxTotalBytes
    ensures StartsAt(l.segments, start) && start <= U32_MAX && Outcome(l, q, line, env, start, k, Written(l, q, line, env))
  {
    start, k := NextIndex(l.segments), 0;
    NextStarts(l.segments);
    RotatesWithoutRoom(l, q);
    if !l.degraded {
      if HasRoom(l, q) {
        k := LineLands(l, q, line, env);
        hide HasRoom, MustRotate, Lands, Enforced, Appended, Valid;
      } else {
        k := FreshLineLands(l, q, line, env);
      }
    }
  }

  lemma FreshLineLands(l: Log, q: Quota, line: nat, env: Env) returns (k: nat)
    requires Valid(l) && q.cleanupTarget <= q.maxTotalBytes && !l.degraded && !HasRoom(l, q) && MustRotate(l, q)
    ensures Outcome(l, q, line, env, NextIndex(l.segments), k, Written(l, q, line, env))
  {
    k := 0;
    var closed := l.(open := false, active := None);
    var start := NextIndex(l.segments);
    OpenedMeans(closed, env.denied);
    if exists i | start <= i <= U32_MAX :: NameOf(i) !in l.disk {
      hide *;
      var n: nat :| LeastFree(l.disk, start, n)
                    && Opened(closed, env.denied) == if NameOf(n) in env.denied then Err(Denied) else Ok(Fresh(closed, NameOf(n)));
      k := NamedLineLands(l, q, line, env, start, n);
    } else {
      hide NameOf, LeastFree, StartsAt, HasRoom, MustRotate, Opened, Enforced, Appended, Lands, Valid, NextIndex;
      forall m: nat ensures !LeastFree(l.disk, start, m) {
        LeastIsFree(l.disk, start, m);
      }
    }
  }

  lemma NamedLineLands(l: Log, q: Quota, line: nat, env: Env, start: nat, n: nat) returns (k: nat)
    requires Valid(l) && q.cleanupTarget <= q.maxTotalBytes && !l.degraded && !HasRoom(l, q) && MustRotate(l, q) && LeastFree(l.disk, start, n)
    requires Opened(l.(open := false, active := None), env.denied) == if NameOf(n) in env.denied then Err(Denied) else Ok(Fresh(l, NameOf(n)))
    ensures Outcome(l, q, line, env, start, k, Written(l, q, line, env))
  {
    k := 0;
    hide NameOf, HasRoom, MustRotate, Opened, Enforced, Appended, Lands;
    if NameOf(n) !in env.denied {
      OpenedKeeps(l.(open := false, active := None), env.denied);
      k := LineLands(Fresh(l, NameOf(n)), q, line, env);
    }
    hide Valid, LeastFree;
    forall m: nat | LeastFree(l.disk, start, m) ensures m == n {
      OneLeast(l.disk, start, m, n);
    }
    LeastIsFree(l.disk, start, n);
  }

  lemma LeastIsFree(disk: set<string>, start: nat, n: nat)
    ensures LeastFree(disk, start, n) ==> start <= n <= U32_MAX && NameOf(n) !in disk
  {
  }
}
