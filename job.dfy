/**
 * What one run of `cutVideo` asks of the engine: the planned sequence of
 * calls for a measured duration, and what a run that stops at its first
 * failed call looks like.
 */
module Job {
  import opened Wrappers
  import opened Planner
  import opened Naming
  import opened Engine

  /** A download link appended to the clip list: the clip's name and its download name. */
  datatype Link = Link(clipName: string, download: string)

  function LinkFor(index: nat): Link
  {
    Link(ClipName(index), DownloadName(index))
  }

  /** The links for clips `1..m`, in that order. */
  function Links(m: nat): (ls: seq<Link>)
    ensures |ls| == m
    ensures forall k :: 0 <= k < m ==> ls[k] == LinkFor(k + 1)
  {
    seq(m, k requires 0 <= k < m => LinkFor(k + 1))
  }

  lemma {:induction false} LinksGrow(m: nat)
    ensures Links(m + 1) == Links(m) + [LinkFor(m + 1)]
  {
  }

  /** `readFile` of `clipe_001.mp4` up to clip `numClipes`, ascending. */
  function ReadCalls(numClipes: int): (cs: seq<Call>)
    ensures |cs| == if numClipes > 0 then numClipes else 0
    ensures forall k :: 0 <= k < |cs| ==> cs[k] == ReadFile(ClipName(k + 1))
  {
    seq(if numClipes > 0 then numClipes else 0, k requires k >= 0 => ReadFile(ClipName(k + 1)))
  }

  /** Stage the input, run `command`, read clips 1..numClipes back. */
  function StageCutCalls(command: seq<string>, numClipes: int): seq<Call>
  {
    [WriteFile(InputName), Exec(command)] + ReadCalls(numClipes)
  }

  /** The calls `cutVideo` plans for a video of the given duration. */
  function PlannedCalls(duration: real): seq<Call>
  {
    StageCutCalls(CommandFor(duration), ClipCount(duration))
  }

  /** No engine call is planned when the duration could not be read. */
  function Planned(probe: Option<real>): seq<Call>
  {
    if probe.Some? then PlannedCalls(probe.value) else []
  }

  /**
   * `events` issues the planned calls in order, every one but the last
   * succeeded, and it is shorter than the plan only because its last call failed.
   */
  predicate StopsAtFirstFailure(planned: seq<Call>, events: seq<Event>)
  {
    && |events| <= |planned|
    && (forall i :: 0 <= i < |events| ==> events[i].call == planned[i])
    && (forall i :: 0 <= i < |events| - 1 ==> events[i].ok)
    && (|events| < |planned| ==> |events| > 0 && !events[|events| - 1].ok)
  }

  /** Every planned call was issued and succeeded. */
  predicate Completed(planned: seq<Call>, events: seq<Event>)
  {
    |events| == |planned| && forall i :: 0 <= i < |events| ==> events[i].ok
  }

  /** The job reaches `updateUI('done')`. */
  predicate Succeeded(probe: Option<real>, events: seq<Event>)
  {
    probe.Some? && Completed(PlannedCalls(probe.value), events)
  }

  function OkEvents(cs: seq<Call>): (es: seq<Event>)
    ensures |es| == |cs|
    ensures forall k :: 0 <= k < |cs| ==> es[k] == Event(cs[k], true)
  {
    seq(|cs|, k requires 0 <= k < |cs| => Event(cs[k], true))
  }

  lemma {:induction false} OkEventsGrow(cs: seq<Call>, i: nat)
    requires i < |cs|
    ensures OkEvents(cs[..i + 1]) == OkEvents(cs[..i]) + [Event(cs[i], true)]
  {
  }

  /** The number of successful `readFile` calls. */
  function ReadsDone(events: seq<Event>): nat
  {
    if events == [] then 0
    else (if events[0].ok && events[0].call.ReadFile? then 1 else 0) + ReadsDone(events[1..])
  }

  /** The number of `deleteFile` attempts. */
  function Deletes(events: seq<Event>): nat
  {
    if events == [] then 0
    else (if events[0].call.DeleteFile? then 1 else 0) + Deletes(events[1..])
  }

  lemma {:induction false} ReadsDoneAppend(a: seq<Event>, b: seq<Event>)
    ensures ReadsDone(a + b) == ReadsDone(a) + ReadsDone(b)
    decreases |a|
  {
    if a == [] {
      assert a + b == b;
    } else {
      assert (a + b)[1..] == a[1..] + b;
      ReadsDoneAppend(a[1..], b);
    }
  }

  lemma {:induction false} DeletesAppend(a: seq<Event>, b: seq<Event>)
    ensures Deletes(a + b) == Deletes(a) + Deletes(b)
    decreases |a|
  {
    if a == [] {
      assert a + b == b;
    } else {
      assert (a + b)[1..] == a[1..] + b;
      DeletesAppend(a[1..], b);
    }
  }

  /** Successful reads of `k` clips count as `k` reads. */
  lemma {:induction false} ReadsDoneOfReads(cs: seq<Call>)
    requires forall k :: 0 <= k < |cs| ==> cs[k].ReadFile?
    ensures ReadsDone(OkEvents(cs)) == |cs|
    decreases |cs|
  {
    if cs != [] {
      assert OkEvents(cs)[1..] == OkEvents(cs[1..]);
      ReadsDoneOfReads(cs[1..]);
    }
  }

  /** A run without a deletion attempt in it has none. */
  lemma {:induction false} NoDeletes(events: seq<Event>)
    requires forall k :: 0 <= k < |events| ==> !events[k].call.DeleteFile?
    ensures Deletes(events) == 0
    decreases |events|
  {
    if events != [] {
      NoDeletes(events[1..]);
    }
  }

  /** A run whose every answer is success completes its plan. */
  lemma {:induction false} OkRunCompletes(cs: seq<Call>)
    ensures StopsAtFirstFailure(cs, OkEvents(cs)) && Completed(cs, OkEvents(cs))
  {
  }

  /** A run that fails at call `i` stops there without completing. */
  lemma {:induction false} FailedRunStops(cs: seq<Call>, i: nat)
    requires i < |cs|
    ensures var es := OkEvents(cs[..i]) + [Event(cs[i], false)];
      StopsAtFirstFailure(cs, es) && !Completed(cs, es)
  {
    var es := OkEvents(cs[..i]) + [Event(cs[i], false)];
    assert !es[i].ok;
  }

  /** The read loop failing at clip `i + 1`: it stops there, having read `i` clips. */
  lemma {:induction false} ReadLoopFails(cs: seq<Call>, i: nat)
    requires i < |cs| && forall k :: 0 <= k < |cs| ==> cs[k].ReadFile?
    ensures var es := OkEvents(cs[..i]) + [Event(cs[i], false)];
      StopsAtFirstFailure(cs, es) && !Completed(cs, es) && ReadsDone(es) == i
  {
    FailedRunStops(cs, i);
    ReadsDoneAppend(OkEvents(cs[..i]), [Event(cs[i], false)]);
    ReadsDoneOfReads(cs[..i]);
  }

  /** The read loop reading every clip. */
  lemma {:induction false} ReadLoopCompletes(cs: seq<Call>)
    requires forall k :: 0 <= k < |cs| ==> cs[k].ReadFile?
    ensures StopsAtFirstFailure(cs, OkEvents(cs)) && Completed(cs, OkEvents(cs))
    ensures ReadsDone(OkEvents(cs)) == |cs|
  {
    OkRunCompletes(cs);
    ReadsDoneOfReads(cs);
  }

  /** One more successful call in front of the plan and the run. */
  lemma {:induction false} PrependOk(c: Call, cs: seq<Call>, events: seq<Event>)
    requires StopsAtFirstFailure(cs, events)
    ensures StopsAtFirstFailure([c] + cs, [Event(c, true)] + events)
    ensures Completed([c] + cs, [Event(c, true)] + events) <==> Completed(cs, events)
  {
    var es := [Event(c, true)] + events;
    assert forall i :: 1 <= i < |es| ==> es[i] == events[i - 1];
    if Completed([c] + cs, es) {
      assert forall i :: 0 <= i < |events| ==> events[i] == es[i + 1];
    }
  }

  /** Two successful calls in front of a run of `rest` make a run of all three parts. */
  lemma {:induction false} TwoThenRun(c1: Call, c2: Call, rest: seq<Call>, events: seq<Event>)
    requires StopsAtFirstFailure(rest, events)
    requires !c1.ReadFile? && !c2.ReadFile?
    ensures var body := [Event(c1, true), Event(c2, true)] + events;
      && StopsAtFirstFailure([c1, c2] + rest, body)
      && (Completed([c1, c2] + rest, body) <==> Completed(rest, events))
      && ReadsDone(body) == ReadsDone(events)
  {
    assert [Event(c1, true), Event(c2, true)] + events == [Event(c1, true)] + ([Event(c2, true)] + events);
    PrependOk(c2, rest, events);
    PrependOk(c1, [c2] + rest, [Event(c2, true)] + events);
    assert [c1] + ([c2] + rest) == [c1, c2] + rest;
  }

  /** Every stage-cut-read plan has the shape of two calls, then reads. */
  lemma {:induction false} StageCutShape(command: seq<string>, numClipes: int)
    ensures ReadsAfterTwo(StageCutCalls(command, numClipes))
  {
  }

  /** A failure of the first `k + 1` planned calls, the earlier ones succeeding. */
  lemma {:induction false} EarlyFailure(planned: seq<Call>, k: nat, body: seq<Event>)
    requires ReadsAfterTwo(planned) && k < 2
    requires body == OkEvents(planned[..k]) + [Event(planned[k], false)]
    ensures StopsAtFirstFailure(planned, body) && !Completed(planned, body) && ReadsDone(body) == 0
  {
    FailedRunStops(planned, k);
    ReadsDoneAppend(OkEvents(planned[..k]), [Event(planned[k], false)]);
    ReadsOfPrefix(planned, k);
  }

  /** `cutVideo` when the duration could not be read: no engine call, no link, an error. */
  lemma {:induction false} ProbeFailed()
    ensures StopsAtFirstFailure(Planned(None), []) && !Succeeded(None, []) && ReadsDone([]) == 0
  {
  }

  /** `cutVideo` when staging the input fails. */
  lemma {:induction false} StagingFailed(command: seq<string>, numClipes: int, body: seq<Event>)
    requires body == [Event(WriteFile(InputName), false)]
    ensures var planned := StageCutCalls(command, numClipes);
      StopsAtFirstFailure(planned, body) && !Completed(planned, body) && ReadsDone(body) == 0
  {
    StageCutShape(command, numClipes);
    EarlyFailure(StageCutCalls(command, numClipes), 0, body);
  }

  /** `cutVideo` when the segment command fails. */
  lemma {:induction false} ExecFailed(command: seq<string>, numClipes: int, body: seq<Event>)
    requires body == [Event(WriteFile(InputName), true), Event(Exec(command), false)]
    ensures var planned := StageCutCalls(command, numClipes);
      StopsAtFirstFailure(planned, body) && !Completed(planned, body) && ReadsDone(body) == 0
  {
    var planned := StageCutCalls(command, numClipes);
    StageCutShape(command, numClipes);
    assert OkEvents(planned[..1]) == [Event(WriteFile(InputName), true)];
    EarlyFailure(planned, 1, body);
  }

  /** `cutVideo` after a successful stage and command: the read loop decides. */
  lemma {:induction false} ReadLoopRan(command: seq<string>, numClipes: int, readEvents: seq<Event>)
    requires StopsAtFirstFailure(ReadCalls(numClipes), readEvents)
    ensures var body := [Event(WriteFile(InputName), true), Event(Exec(command), true)] + readEvents;
      && StopsAtFirstFailure(StageCutCalls(command, numClipes), body)
      && (Completed(StageCutCalls(command, numClipes), body) <==> Completed(ReadCalls(numClipes), readEvents))
      && ReadsDone(body) == ReadsDone(readEvents)
  {
    TwoThenRun(WriteFile(InputName), Exec(command), ReadCalls(numClipes), readEvents);
  }

  /** A run of the stage-cut-read plan a duration leads to is a run of the job's plan. */
  lemma {:induction false} PlannedRun(duration: real, command: seq<string>, numClipes: int, body: seq<Event>, allOk: bool)
    requires command == CommandFor(duration) && numClipes == ClipCount(duration)
    requires StopsAtFirstFailure(StageCutCalls(command, numClipes), body)
    requires allOk <==> Completed(StageCutCalls(command, numClipes), body)
    ensures StopsAtFirstFailure(Planned(Some(duration)), body)
    ensures allOk <==> Succeeded(Some(duration), body)
  {
  }

  /**
   * The clips are read in ascending order of their index, right after the
   * command runs, and no clip is read twice.
   */
  lemma {:induction false} ReadOrder(duration: real)
    ensures var planned := PlannedCalls(duration);
      && planned[0] == WriteFile(InputName)
      && planned[1] == Exec(CommandFor(duration))
      && |planned| == 2 + (if ClipCount(duration) > 0 then ClipCount(duration) else 0)
      && (forall k :: 2 <= k < |planned| ==> planned[k] == ReadFile(ClipName(k - 1)))
      && (forall i, j :: 2 <= i < j < |planned| ==> planned[i] != planned[j])
  {
    var planned := PlannedCalls(duration);
    forall i, j | 2 <= i < j < |planned|
      ensures planned[i] != planned[j]
    {
      if planned[i] == planned[j] {
        ClipNameInjective(i - 1, j - 1);
      }
    }
  }

  /** The plan neither loads the engine nor deletes anything. */
  lemma {:induction false} PlanHasNoLoadOrDelete(probe: Option<real>)
    ensures forall k :: 0 <= k < |Planned(probe)| ==>
      !Planned(probe)[k].Load? && !Planned(probe)[k].DeleteFile?
  {
  }

  /**
   * A run that stops at its first failure, followed by the deletion in the
   * `finally` block, attempts exactly one deletion, whatever it answers, and
   * never asks the engine to load.
   */
  lemma {:induction false} DeleteOnce(probe: Option<real>, body: seq<Event>, ok: bool)
    requires StopsAtFirstFailure(Planned(probe), body)
    ensures var t := body + [Event(DeleteFile(InputName), ok)];
      && Deletes(t) == 1
      && forall k :: 0 <= k < |t| ==> !t[k].call.Load?
  {
    PlanHasNoLoadOrDelete(probe);
    NoDeletes(body);
    DeletesAppend(body, [Event(DeleteFile(InputName), ok)]);
  }

  /** Two calls that are not reads, then reads only: the shape of every plan. */
  predicate ReadsAfterTwo(planned: seq<Call>)
  {
    && |planned| >= 2
    && !planned[0].ReadFile? && !planned[1].ReadFile?
    && forall k :: 2 <= k < |planned| ==> planned[k].ReadFile?
  }

  lemma {:induction false} PlannedCallsShape(duration: real)
    ensures ReadsAfterTwo(PlannedCalls(duration))
    ensures |PlannedCalls(duration)| == 2 + |ReadCalls(ClipCount(duration))|
  {
  }

  /** Running the first `m` calls of a plan successfully reads `m - 2` clips. */
  lemma {:induction false} ReadsOfPrefix(planned: seq<Call>, m: nat)
    requires ReadsAfterTwo(planned) && m <= |planned|
    ensures ReadsDone(OkEvents(planned[..m])) == if m >= 2 then m - 2 else 0
  {
    if m >= 2 {
      assert OkEvents(planned[..m]) == OkEvents(planned[..2]) + OkEvents(planned[2..m]);
      ReadsDoneAppend(OkEvents(planned[..2]), OkEvents(planned[2..m]));
      ReadsDoneOfReads(planned[2..m]);
      assert OkEvents(planned[..2])[1..] == [Event(planned[1], true)];
    } else if m == 1 {
      assert OkEvents(planned[..m]) == [Event(planned[0], true)];
    }
  }

  /** A job reports `done` only when every clip was read: all links are there. */
  lemma {:induction false} SuccessReadsEveryClip(probe: Option<real>, body: seq<Event>)
    requires StopsAtFirstFailure(Planned(probe), body)
    requires Succeeded(probe, body)
    ensures ReadsDone(body) == |ReadCalls(ClipCount(probe.value))|
  {
    var planned := PlannedCalls(probe.value);
    PlannedCallsShape(probe.value);
    assert body == OkEvents(planned[..|planned|]);
    ReadsOfPrefix(planned, |planned|);
  }

  lemma {:induction false} FailedRunReads(planned: seq<Call>, body: seq<Event>)
    requires ReadsAfterTwo(planned)
    requires StopsAtFirstFailure(planned, body) && !Completed(planned, body)
    ensures ReadsDone(body) < |planned| - 2 || |planned| == 2
  {
    var m := |body|;
    // Every call before the last succeeded; the last one failed.
    assert m > 0 && !body[m - 1].ok;
    assert body == OkEvents(planned[..m - 1]) + [body[m - 1]];
    ReadsDoneAppend(OkEvents(planned[..m - 1]), [body[m - 1]]);
    ReadsOfPrefix(planned, m - 1);
  }

  /**
   * A failed job read fewer clips than it planned: some clip's link is
   * missing from the list.
   */
  lemma {:induction false} FailureMissesAClip(probe: Option<real>, body: seq<Event>)
    requires probe.Some?
    requires StopsAtFirstFailure(Planned(probe), body)
    requires !Succeeded(probe, body)
    ensures ReadsDone(body) < |ReadCalls(ClipCount(probe.value))| || ReadCalls(ClipCount(probe.value)) == []
  {
    PlannedCallsShape(probe.value);
    FailedRunReads(PlannedCalls(probe.value), body);
  }
}
