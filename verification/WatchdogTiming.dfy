/** When a silent task is called stalled: a lower and an upper bound in real time. */
module WatchdogTiming {
  import opened Wrappers
  import opened Rows
  import opened RegistryDb
  import opened Watchdog
  import opened WatchdogLaws

  /** The process lives and answers, but nothing changes and no CPU time proves work. */
  predicate Silent(th: Thresholds, s: Supervised, p: Probe) {
    && !p.exited
    && p.heartbeat.Answer? && !Changed(s.row, p.heartbeat.snapshot)
    && (s.row.executionState == TOOL_RUNNING ==> !CpuProven(th, s.rt, p))
  }

  ghost predicate SilentRun(th: Thresholds, s: Supervised, probes: seq<Probe>) {
    forall i :: 0 <= i < |probes| ==> Silent(th, After(th, s, probes, i), probes[i])
  }

  /** A tick at least every `gap` seconds. */
  ghost predicate Paced(probes: seq<Probe>, gap: real) {
    forall i :: 0 <= i < |probes| - 1 ==> probes[i].now <= probes[i + 1].now <= probes[i].now + gap
  }

  /** Not stalled, not final, silent since `since`. */
  predicate Quiet(s: Supervised, since: real) {
    && s.row.executionState in {STARTING, RUNNING, TOOL_RUNNING, WAITING, UNRESPONSIVE}
    && s.row.lastProgressAt == Some(since)
  }

  predicate Watching(s: Supervised, since: real, tool: bool) {
    && Quiet(s, since) && s.rt.graceStartedAt.None?
    && (s.row.executionState == TOOL_RUNNING <==> tool)
  }

  predicate InGrace(s: Supervised, since: real, openedAt: real) {
    Quiet(s, since) && s.rt.graceStartedAt == Some(openedAt) && s.row.executionState == WAITING
  }

  lemma EarlyTick(th: Thresholds, s: Supervised, p: Probe, since: real, tool: bool)
    requires th.Ordered() && th.emergencyCap.None? && since > 0.0
    requires Watching(s, since, tool) && Silent(th, s, p)
    requires p.now < since + (if tool then th.toolStall else th.softStall)
    ensures Watching(Tick(th, s, p).task, since, tool)
  {
  }

  lemma OpeningTick(th: Thresholds, s: Supervised, p: Probe, since: real, tool: bool)
    requires th.Ordered() && th.emergencyCap.None? && since > 0.0
    requires Watching(s, since, tool) && Silent(th, s, p)
    requires p.now >= since + (if tool then th.toolStall else th.softStall)
    ensures Tick(th, s, p).stallAbort
    ensures if th.stallGrace <= 0.0 then Tick(th, s, p).task.row.executionState == STALLED
            else InGrace(Tick(th, s, p).task, since, p.now)
  {
  }

  lemma GraceTick(th: Thresholds, s: Supervised, p: Probe, since: real, openedAt: real)
    requires th.Ordered() && th.emergencyCap.None? && since > 0.0
    requires InGrace(s, since, openedAt) && Silent(th, s, p)
    requires since + th.softStall <= openedAt <= p.now
    ensures !Tick(th, s, p).stallAbort
    ensures if p.now - openedAt >= th.stallGrace then Tick(th, s, p).task.row.executionState == STALLED
            else InGrace(Tick(th, s, p).task, since, openedAt)
  {
  }

  ghost predicate NotStalledThrough(th: Thresholds, s: Supervised, probes: seq<Probe>, k: nat)
    requires k <= |probes|
  {
    forall i :: 0 <= i <= k ==> After(th, s, probes, i).row.executionState != STALLED
  }

  lemma NotStalledNext(th: Thresholds, s: Supervised, probes: seq<Probe>, k: nat)
    requires k < |probes| && NotStalledThrough(th, s, probes, k)
    requires After(th, s, probes, k + 1).row.executionState != STALLED
    ensures NotStalledThrough(th, s, probes, k + 1)
  {
  }

  lemma EarlyStep(th: Thresholds, s: Supervised, probes: seq<Probe>, k: nat, since: real, tool: bool)
    requires th.Ordered() && th.emergencyCap.None? && since > 0.0
    requires SilentRun(th, s, probes) && k < |probes|
    requires Watching(After(th, s, probes, k), since, tool) && NotStalledThrough(th, s, probes, k)
    requires probes[k].now < since + if tool then th.toolStall else th.softStall
    ensures Watching(After(th, s, probes, k + 1), since, tool) && NotStalledThrough(th, s, probes, k + 1)
  {
    var before, after := After(th, s, probes, k), After(th, s, probes, k + 1);
    assert Silent(th, before, probes[k]);
    AfterStep(th, s, probes, k);
    EarlyTick(th, before, probes[k], since, tool);
    assert Watching(after, since, tool);
    NotStalledNext(th, s, probes, k);
  }

  /** The first tick past the quiet threshold comes less than a gap after it. */
  lemma OpeningComes(th: Thresholds, s: Supervised, probes: seq<Probe>, since: real, gap: real, tool: bool, due: real)
    returns (k: nat)
    requires th.Ordered() && th.emergencyCap.None? && since > 0.0 && Watching(s, since, tool)
    requires SilentRun(th, s, probes) && Paced(probes, gap) && probes != []
    requires due == since + if tool then th.toolStall else th.softStall
    requires probes[0].now < due + gap && probes[|probes| - 1].now >= due
    ensures k < |probes| && due <= probes[k].now < due + gap
    ensures Watching(After(th, s, probes, k), since, tool) && NotStalledThrough(th, s, probes, k)
  {
    k := 0;
    while probes[k].now < due
      invariant k < |probes|
      invariant Watching(After(th, s, probes, k), since, tool) && NotStalledThrough(th, s, probes, k)
      invariant probes[k].now < due + gap
      decreases |probes| - k
    {
      EarlyStep(th, s, probes, k, since, tool);
      assert k < |probes| - 1 && probes[k + 1].now <= probes[k].now + gap;
      k := k + 1;
    }
  }

  lemma OpeningStep(th: Thresholds, s: Supervised, probes: seq<Probe>, k: nat, since: real, tool: bool)
    requires th.Ordered() && th.emergencyCap.None? && since > 0.0
    requires SilentRun(th, s, probes) && k < |probes|
    requires Watching(After(th, s, probes, k), since, tool) && NotStalledThrough(th, s, probes, k)
    requires probes[k].now >= since + if tool then th.toolStall else th.softStall
    ensures if th.stallGrace <= 0.0 then After(th, s, probes, k + 1).row.executionState == STALLED
            else InGrace(After(th, s, probes, k + 1), since, probes[k].now) && NotStalledThrough(th, s, probes, k + 1)
  {
    var before, after := After(th, s, probes, k), After(th, s, probes, k + 1);
    assert Silent(th, before, probes[k]);
    AfterStep(th, s, probes, k);
    OpeningTick(th, before, probes[k], since, tool);
    if th.stallGrace > 0.0 {
      assert InGrace(after, since, probes[k].now);
      NotStalledNext(th, s, probes, k);
    }
  }

  lemma GraceStep(th: Thresholds, s: Supervised, probes: seq<Probe>, k: nat, since: real, openedAt: real)
    requires th.Ordered() && th.emergencyCap.None? && since > 0.0
    requires SilentRun(th, s, probes) && k < |probes|
    requires InGrace(After(th, s, probes, k), since, openedAt) && NotStalledThrough(th, s, probes, k)
    requires since + th.softStall <= openedAt <= probes[k].now
    ensures if probes[k].now - openedAt >= th.stallGrace then After(th, s, probes, k + 1).row.executionState == STALLED
            else InGrace(After(th, s, probes, k + 1), since, openedAt) && NotStalledThrough(th, s, probes, k + 1)
  {
    var before, after := After(th, s, probes, k), After(th, s, probes, k + 1);
    assert Silent(th, before, probes[k]);
    AfterStep(th, s, probes, k);
    GraceTick(th, before, probes[k], since, openedAt);
    if probes[k].now - openedAt < th.stallGrace {
      assert InGrace(after, since, openedAt);
      NotStalledNext(th, s, probes, k);
    }
  }

  /** From an open grace, the first tick past its end calls the task stalled. */
  lemma VerdictComes(th: Thresholds, s: Supervised, probes: seq<Probe>, since: real, gap: real, j: nat, openedAt: real)
    returns (k: nat)
    requires th.Ordered() && th.emergencyCap.None? && since > 0.0
    requires SilentRun(th, s, probes) && Paced(probes, gap) && 0 < j < |probes|
    requires InGrace(After(th, s, probes, j), since, openedAt) && NotStalledThrough(th, s, probes, j)
    requires since + th.softStall <= openedAt == probes[j - 1].now
    requires 0.0 < th.stallGrace && probes[|probes| - 1].now >= openedAt + th.stallGrace
    ensures k < |probes| && NotStalledThrough(th, s, probes, k)
    ensures After(th, s, probes, k + 1).row.executionState == STALLED
    ensures openedAt + th.stallGrace <= probes[k].now < openedAt + th.stallGrace + gap
  {
    k := j;
    assert probes[j - 1].now <= probes[j - 1 + 1].now <= probes[j - 1].now + gap;
    while probes[k].now - openedAt < th.stallGrace
      invariant k < |probes|
      invariant InGrace(After(th, s, probes, k), since, openedAt) && NotStalledThrough(th, s, probes, k)
      invariant openedAt <= probes[k].now < openedAt + th.stallGrace + gap
      decreases |probes| - k
    {
      GraceStep(th, s, probes, k, since, openedAt);
      assert k < |probes| - 1 && probes[k].now <= probes[k + 1].now <= probes[k].now + gap;
      k := k + 1;
    }
    GraceStep(th, s, probes, k, since, openedAt);
  }

  /**
   The verdict window. A task silent since `since` and ticked at least every `gap`
   seconds is called stalled at some tick `k`, the first one to do so, no earlier
   than threshold plus grace after its last progress and less than two tick gaps
   later. The threshold is the tool's if a tool is running at the start.
   */
  lemma StallVerdictWindow(th: Thresholds, s: Supervised, probes: seq<Probe>, since: real, gap: real)
    returns (k: nat)
    requires th.Ordered() && th.emergencyCap.None? && 0.0 <= th.stallGrace && since > 0.0 && 0.0 <= gap
    requires Quiet(s, since) && s.rt.graceStartedAt.None?
    requires SilentRun(th, s, probes) && Paced(probes, gap) && probes != []
    requires var due := since + QuietThreshold(th, s.row.executionState);
             probes[0].now < due + gap && probes[|probes| - 1].now >= due + th.stallGrace + 2.0 * gap
    ensures k < |probes| && After(th, s, probes, k + 1).row.executionState == STALLED
    ensures NotStalledThrough(th, s, probes, k)
    ensures var earliest := since + QuietThreshold(th, s.row.executionState) + th.stallGrace;
            earliest <= probes[k].now < earliest + 2.0 * gap
  {
    var tool := s.row.executionState == TOOL_RUNNING;
    var due := since + QuietThreshold(th, s.row.executionState);
    k := OpeningComes(th, s, probes, since, gap, tool, due);
    var openedAt := probes[k].now;
    OpeningStep(th, s, probes, k, since, tool);
    if 0.0 < th.stallGrace {
      k := VerdictComes(th, s, probes, since, gap, k + 1, openedAt);
    }
  }

  // ---- a frozen agent ------------------------------------------------------------

  /** `n` looks at an agent that answers the same every time, `gap` seconds apart. */
  function FrozenProbes(since: real, gap: real, still: Snapshot, n: nat): seq<Probe> {
    seq(n, i => Probe(TimeOf(since, gap, i), false, Answer(still), None))
  }

  function TimeOf(since: real, gap: real, i: int): real {
    since + i as real * gap
  }

  lemma NextTime(since: real, gap: real, i: nat)
    ensures TimeOf(since, gap, i + 1) == TimeOf(since, gap, i) + gap
  {
    assert (i + 1) as real == i as real + 1.0;
    assert (i + 1) as real * gap == i as real * gap + gap;
  }

  lemma SameAnswerKeepsHash(th: Thresholds, s: Supervised, p: Probe)
    requires p.heartbeat.Answer? && s.row.lastStateHash == Some(p.heartbeat.snapshot)
    ensures Tick(th, s, p).task.row.lastStateHash == s.row.lastStateHash
  {
    JudgementKeepsAnswer(th, s, p);
    JudgementKeepsAnswer(th, s.(row := SnapshotRow(s.row, p.heartbeat.snapshot, p.now)), p);
  }

  lemma {:induction false} FrozenKeepsHash(th: Thresholds, s: Supervised, probes: seq<Probe>, still: Snapshot, n: nat)
    requires n <= |probes| && s.row.lastStateHash == Some(still)
    requires forall i :: 0 <= i < |probes| ==> probes[i].heartbeat == Answer(still)
    ensures After(th, s, probes, n).row.lastStateHash == Some(still)
    decreases n
  {
    if n == 0 {
    } else {
      FrozenKeepsHash(th, s, probes, still, n - 1);
      SameAnswerKeepsHash(th, After(th, s, probes, n - 1), probes[n - 1]);
    }
  }

  lemma FrozenIsSilent(th: Thresholds, s: Supervised, since: real, gap: real, still: Snapshot, n: nat)
    requires s.row.lastStateHash == Some(still)
    ensures SilentRun(th, s, FrozenProbes(since, gap, still, n))
  {
    var probes := FrozenProbes(since, gap, still, n);
    forall i | 0 <= i < |probes| ensures Silent(th, After(th, s, probes, i), probes[i]) {
      FrozenKeepsHash(th, s, probes, still, i);
    }
  }

  lemma FrozenIsPaced(since: real, gap: real, still: Snapshot, n: nat)
    requires 0.0 <= gap
    ensures Paced(FrozenProbes(since, gap, still, n), gap)
  {
    var probes := FrozenProbes(since, gap, still, n);
    forall i | 0 <= i < |probes| - 1 ensures probes[i].now <= probes[i + 1].now <= probes[i].now + gap {
      NextTime(since, gap, i);
      assert probes[i].now == TimeOf(since, gap, i) && probes[i + 1].now == TimeOf(since, gap, i + 1);
    }
  }

  /** The window is met by every frozen agent: alive, answering, and never moving, in
      whatever state it froze, it is stalled within the window of its last progress. */
  lemma FrozenAgentStalls(
      th: Thresholds, s: Supervised, still: Snapshot, since: real, gap: real, n: nat) returns (k: nat)
    requires th.Ordered() && th.emergencyCap.None? && 0.0 <= th.stallGrace && since > 0.0 && 0.0 < gap
    requires Quiet(s, since) && s.rt.graceStartedAt.None? && s.row.lastStateHash == Some(still)
    requires 0 < n && (n - 1) as real * gap >= QuietThreshold(th, s.row.executionState) + th.stallGrace + 2.0 * gap
    ensures var probes := FrozenProbes(since, gap, still, n);
            var earliest := since + QuietThreshold(th, s.row.executionState) + th.stallGrace;
            && k < n && After(th, s, probes, k + 1).row.executionState == STALLED
            && NotStalledThrough(th, s, probes, k)
            && earliest <= probes[k].now < earliest + 2.0 * gap
  {
    var probes := FrozenProbes(since, gap, still, n);
    FrozenIsSilent(th, s, since, gap, still, n);
    FrozenIsPaced(since, gap, still, n);
    FrozenEnds(since, gap, still, n);
    k := StallVerdictWindow(th, s, probes, since, gap);
  }

  lemma FrozenEnds(since: real, gap: real, still: Snapshot, n: nat)
    requires 0 < n
    ensures var probes := FrozenProbes(since, gap, still, n);
            |probes| == n && probes[0].now == since && probes[n - 1].now == since + (n - 1) as real * gap
  {
  }
}
