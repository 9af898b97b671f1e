/**
 The laws of the watchdog in terms of columns, clock readings and thresholds: when a tick
 asks the agent, what it makes of the answer, when proof of work counts, when the cap
 strikes, and where an event leaves a task.
 */
module WatchdogLaws {
  import opened Wrappers
  import opened Rows
  import opened RegistryDb
  import opened Watchdog

  /** A task the tick goes on to look at: live, the process too, and below its cap. */
  predicate Watched(th: Thresholds, row: TaskRow, p: Probe) {
    && !Final(row.executionState) && !p.exited
    && (th.emergencyCap.Some? ==> p.now - OrElse(row.startedAt, p.now) < th.emergencyCap.value)
  }

  // ---- asking -------------------------------------------------------------------------

  /** An agent that leaves a due heartbeat unanswered is unresponsive at once, however
      recent its last progress, and what it was doing is remembered. */
  lemma DeafAgentIsUnresponsive(th: Thresholds, s: Supervised, p: Probe)
    requires Watched(th, s.row, p) && p.heartbeat.NoAnswer?
    requires p.now - OrElse(s.row.lastStateAt, p.now) >= th.heartbeat
    ensures Tick(th, s, p).task.row == s.row.(executionState := UNRESPONSIVE)
    ensures Tick(th, s, p).task.rt.preUnresponsive
         == if s.rt.preUnresponsive.Some? then s.rt.preUnresponsive else Some(s.row.executionState)
    ensures Tick(th, s, p).notice.None? && !Tick(th, s, p).stallAbort
  {
  }

  /** Idle long enough for its state to be called quiet. */
  predicate TooQuiet(th: Thresholds, row: TaskRow, now: real) {
    var idle := now - OrElse(row.lastProgressAt, now);
    idle >= th.waiting && idle >= if row.executionState == TOOL_RUNNING then th.toolStall else th.softStall
  }

  /** Before its time, and on a task that is not too quiet, the agent is not asked: what
      it would have answered makes no difference, and the columns of the heartbeat stay. */
  lemma EarlyTickDoesNotAsk(th: Thresholds, s: Supervised, p: Probe, other: Heartbeat)
    requires p.now - OrElse(s.row.lastStateAt, p.now) < th.heartbeat && !TooQuiet(th, s.row, p.now)
    ensures Tick(th, s, p.(heartbeat := other)) == Tick(th, s, p)
    ensures Tick(th, s, p).task.row.lastStateAt == s.row.lastStateAt
  {
  }

  /** What a tick that asks and is answered stores, and what it does about a change. */
  lemma AnswerIsStored(th: Thresholds, s: Supervised, p: Probe)
    requires Watched(th, s.row, p) && p.heartbeat.Answer?
    requires p.now - OrElse(s.row.lastStateAt, p.now) >= th.heartbeat || TooQuiet(th, s.row, p.now)
    ensures var row, seen := Tick(th, s, p).task.row, p.heartbeat.snapshot;
            && row.lastStateAt == Some(p.now) && row.lastStateHash == Some(seen)
            && row.messageCount == seen.messageCount && row.isStreaming == seen.isStreaming
            && row.isCompacting == seen.isCompacting
            && (s.row.lastStateHash != Some(seen) ==>
                  && row.lastProgressAt == Some(p.now) && Tick(th, s, p).task.rt.graceStartedAt.None?
                  && row.executionState == (match s.row.executionState
                       case WAITING => RUNNING
                       case STALLED => RUNNING
                       case UNRESPONSIVE =>
                         if s.rt.preUnresponsive.Some? then s.rt.preUnresponsive.value else RUNNING
                       case e => e))
  {
    if s.row.lastStateHash == Some(p.heartbeat.snapshot) {
      JudgementKeepsAnswer(th, s.(row := SnapshotRow(s.row, p.heartbeat.snapshot, p.now)), p);
    }
  }

  /** What the last answer left on the row. */
  predicate SameAnswer(row: TaskRow, row': TaskRow) {
    && row'.lastStateAt == row.lastStateAt && row'.lastStateHash == row.lastStateHash
    && row'.messageCount == row.messageCount && row'.isStreaming == row.isStreaming
    && row'.isCompacting == row.isCompacting
  }

  lemma JudgementKeepsAnswer(th: Thresholds, s: Supervised, p: Probe)
    ensures SameAnswer(s.row, Judge(th, s, p).task.row)
  {
    QuietKeepsAnswer(th, s, p);
  }

  lemma QuietKeepsAnswer(th: Thresholds, s: Supervised, p: Probe)
    ensures SameAnswer(s.row, JudgeQuiet(th, s, p).task.row)
  {
    StateAndWakeKeepAnswer(s.row, STALLED, p.now);
    StateAndWakeKeepAnswer(s.row, WAITING, p.now);
    var row := JudgeQuiet(th, s, p).task.row;
    assert row in {s.row.(lastProgressAt := Some(p.now)), BeginWakeRow(s.row.(executionState := STALLED), p.now),
                   s.row.(executionState := WAITING), s.row};
  }

  lemma StateAndWakeKeepAnswer(row: TaskRow, e: ExecutionState, now: real)
    ensures SameAnswer(row, row.(executionState := e)) && SameAnswer(row, row.(lastProgressAt := Some(now)))
    ensures SameAnswer(row, BeginWakeRow(row.(executionState := e), now))
  {
  }

  // ---- an agent that stops answering ------------------------------------------------------

  /** The task after the first `n` ticks. */
  function After(th: Thresholds, s: Supervised, probes: seq<Probe>, n: nat): Supervised
    requires n <= |probes|
  {
    if n == 0 then s else Tick(th, After(th, s, probes, n - 1), probes[n - 1]).task
  }

  /** Its process lives, it just does not answer. */
  predicate Deaf(p: Probe) {
    !p.exited && p.heartbeat.NoAnswer?
  }

  /** Not yet found out: live, with its last answer at `answered`. */
  predicate Unnoticed(s: Supervised, answered: real) {
    && s.row.executionState in {STARTING, RUNNING, TOOL_RUNNING, WAITING, STALLED}
    && s.row.lastStateAt == Some(answered)
  }

  lemma DeafTick(th: Thresholds, s: Supervised, p: Probe, answered: real)
    requires th.emergencyCap.None? && answered != 0.0 && Unnoticed(s, answered) && Deaf(p)
    ensures var s' := Tick(th, s, p).task;
            s'.row.executionState == UNRESPONSIVE || (Unnoticed(s', answered) && p.now - answered < th.heartbeat)
  {
    if p.now - answered >= th.heartbeat {
      DeafAgentIsUnresponsive(th, s, p);
    } else if !TooQuiet(th, s.row, p.now) {
      EarlyTickKeepsWatch(th, s, p, answered);
    } else {
      assert Tick(th, s, p).task == Unanswered(s);
    }
  }

  lemma EarlyTickKeepsWatch(th: Thresholds, s: Supervised, p: Probe, answered: real)
    requires th.emergencyCap.None? && answered != 0.0 && Unnoticed(s, answered) && Deaf(p)
    requires p.now - answered < th.heartbeat && !TooQuiet(th, s.row, p.now)
    ensures Unnoticed(Tick(th, s, p).task, answered)
  {
  }

  ghost predicate Ticks(probes: seq<Probe>, gap: real) {
    && (forall i :: 0 <= i < |probes| ==> Deaf(probes[i]))
    && (forall i :: 0 <= i < |probes| - 1 ==> probes[i].now <= probes[i + 1].now <= probes[i].now + gap)
  }

  /** An agent that stops answering is found out in time: ticked at least every `gap`
      seconds it is unresponsive within heartbeat plus gap of its last answer, whatever
      active state it is in, and however long the soft-stall threshold is. */
  lemma DeafAgentIsFoundOut(th: Thresholds, s: Supervised, probes: seq<Probe>, answered: real, gap: real)
    returns (k: nat)
    requires th.emergencyCap.None? && answered != 0.0 && Unnoticed(s, answered)
    requires Ticks(probes, gap) && probes != []
    requires probes[0].now < answered + th.heartbeat + gap && probes[|probes| - 1].now >= answered + th.heartbeat
    ensures k < |probes| && probes[k].now < answered + th.heartbeat + gap
    ensures After(th, s, probes, k + 1).row.executionState == UNRESPONSIVE
  {
    k := 0;
    assert After(th, s, probes, 0) == s;
    DeafTick(th, s, probes[0], answered);
    AfterStep(th, s, probes, 0);
    while After(th, s, probes, k + 1).row.executionState != UNRESPONSIVE
      invariant k < |probes| && probes[k].now < answered + th.heartbeat + gap
      invariant || After(th, s, probes, k + 1).row.executionState == UNRESPONSIVE
                || (Unnoticed(After(th, s, probes, k + 1), answered) && probes[k].now - answered < th.heartbeat)
      decreases |probes| - k
    {
      assert k < |probes| - 1 && probes[k + 1].now <= probes[k].now + gap;
      k := k + 1;
      DeafTick(th, After(th, s, probes, k), probes[k], answered);
      AfterStep(th, s, probes, k);
    }
  }

  lemma AfterStep(th: Thresholds, s: Supervised, probes: seq<Probe>, k: nat)
    requires k < |probes|
    ensures After(th, s, probes, k + 1) == Tick(th, After(th, s, probes, k), probes[k]).task
  {
  }

  // ---- the cap ------------------------------------------------------------------------

  /** The cap strikes exactly at its age: from then on a live task is aborted, unwoken;
      before, the tick is that of a task without a cap. */
  lemma CapStrikesAtItsAge(th: Thresholds, s: Supervised, p: Probe)
    requires !Final(s.row.executionState) && th.emergencyCap.Some?
    requires s.row.startedAt.Some? && s.row.startedAt.value != 0.0
    ensures Tick(th, s, p)
         == if p.now - s.row.startedAt.value >= th.emergencyCap.value
            then TickResult(s.(row := s.row.(executionState := ABORTED, abortRequested := true)), false, Some(Failure))
            else Tick(th.(emergencyCap := None), s, p)
  {
  }

  // ---- proof of work --------------------------------------------------------------------

  /** A silent tool is spared exactly on proof of work: a sample of its process tree before
      this one, at most three windows old, and more than half a CPU second between them. */
  lemma SilentToolIsSparedExactlyOnProof(th: Thresholds, s: Supervised, p: Probe)
    requires Watched(th, s.row, p) && p.heartbeat.Answer?
    requires s.row.executionState == TOOL_RUNNING && s.row.lastStateHash == Some(p.heartbeat.snapshot)
    requires TooQuiet(th, s.row, p.now) && s.row.lastProgressAt != Some(p.now)
    ensures var proof, s' := Proof(th, s.rt, p), Tick(th, s, p).task;
            && (s'.row.lastProgressAt == Some(p.now) <==> proof)
            && (s'.row.executionState == TOOL_RUNNING <==> proof)
            && (s'.rt.graceStartedAt.None? <==> proof)
            && s'.rt.cpu == if p.cpuTotal.Some? then Some(CpuSample(p.cpuTotal.value, p.now)) else s.rt.cpu
  {
    UnchangedQuietTickJudges(th, s, p);
    var seen := s.(row := SnapshotRow(s.row, p.heartbeat.snapshot, p.now));
    if Proof(th, s.rt, p) {
      ProvenToolIsSpared(th, seen, p);
    } else {
      UnprovenToolIsNot(th, seen, p);
    }
  }

  lemma UnchangedQuietTickJudges(th: Thresholds, s: Supervised, p: Probe)
    requires Watched(th, s.row, p) && p.heartbeat.Answer?
    requires s.row.lastStateHash == Some(p.heartbeat.snapshot) && TooQuiet(th, s.row, p.now)
    ensures Tick(th, s, p) == JudgeQuiet(th, s.(row := SnapshotRow(s.row, p.heartbeat.snapshot, p.now)), p)
  {
  }

  predicate Proof(th: Thresholds, rt: Runtime, p: Probe) {
    && p.cpuTotal.Some? && rt.cpu.Some?
    && p.cpuTotal.value - rt.cpu.value.total > 0.5
    && p.now - rt.cpu.value.at <= 3.0 * th.toolWindow
  }

  lemma ProvenToolIsSpared(th: Thresholds, s: Supervised, p: Probe)
    requires s.row.executionState == TOOL_RUNNING && Proof(th, s.rt, p)
    ensures var s' := JudgeQuiet(th, s, p).task;
            && s'.row == s.row.(lastProgressAt := Some(p.now)) && s'.rt.graceStartedAt.None?
            && s'.rt.cpu == Some(CpuSample(p.cpuTotal.value, p.now))
  {
  }

  lemma UnprovenToolIsNot(th: Thresholds, s: Supervised, p: Probe)
    requires s.row.executionState == TOOL_RUNNING && !Proof(th, s.rt, p)
    ensures var s' := JudgeQuiet(th, s, p).task;
            && s'.row.lastProgressAt == s.row.lastProgressAt && s'.row.executionState in {WAITING, STALLED}
            && s'.rt.graceStartedAt.Some?
            && s'.rt.cpu == if p.cpuTotal.Some? then Some(CpuSample(p.cpuTotal.value, p.now)) else s.rt.cpu
  {
    assert !CpuProven(th, s.rt, p);
    StallingKeepsClock(s.row, p.now);
    var row := JudgeQuiet(th, s, p).task.row;
    assert row in {BeginWakeRow(s.row.(executionState := STALLED), p.now), s.row.(executionState := WAITING)};
  }

  lemma StallingKeepsClock(row: TaskRow, now: real)
    ensures var row' := BeginWakeRow(row.(executionState := STALLED), now);
            row'.executionState == STALLED && row'.lastProgressAt == row.lastProgressAt
  {
  }

  /** Only the process tree of a tool is sampled. */
  lemma OnlyToolsAreSampled(th: Thresholds, s: Supervised, p: Probe)
    requires s.row.executionState != TOOL_RUNNING
    ensures Tick(th, s, p).task.rt.cpu == s.rt.cpu
  {
  }

  // ---- quiet times ----------------------------------------------------------------------

  /** A task that has been idle for the waiting time, but not for too long, is waiting;
      a tool goes on running, and a degraded task stays as it is. */
  lemma IdleTaskWaits(th: Thresholds, s: Supervised, p: Probe)
    requires Watched(th, s.row, p) && !TooQuiet(th, s.row, p.now)
    requires p.now - OrElse(s.row.lastStateAt, p.now) < th.heartbeat
    ensures var idle := p.now - OrElse(s.row.lastProgressAt, p.now);
            Tick(th, s, p) == TickResult(
              s.(row := s.row.(executionState :=
                   if idle >= th.waiting && s.row.executionState in {RUNNING, WAITING} then WAITING
                   else s.row.executionState)), false, None)
  {
  }

  /** Whoever is called stalled by a tick that learned nothing new is announced and woken
      by that tick. */
  lemma StallVerdictAnnounces(th: Thresholds, s: Supervised, p: Probe)
    requires Watched(th, s.row, p) && s.row.executionState != STALLED
    requires p.heartbeat.Answer? ==> s.row.lastStateHash == Some(p.heartbeat.snapshot)
    requires Tick(th, s, p).task.row.executionState == STALLED
    ensures Tick(th, s, p).notice == Some(Stall) && Tick(th, s, p).task.row.wakeState.Some?
  {
  }

  // ---- events ---------------------------------------------------------------------------

  predicate IsBoundary(e: Event) {
    e.AgentStart? || e.ToolStart? || e.ToolUpdate? || e.ToolEnd? || e.AgentSettled?
  }

  /** Where an event leaves a live task, whose state - or the state before it became
      unresponsive - was `was`: a boundary event decides by itself, any other one ends
      waiting and stalling and leaves a running agent, tool or boot as it is. So no event
      leaves a task waiting, stalled or unresponsive. */
  lemma EventPlacesTask(s: Supervised, hasVerifier: bool, e: Event, now: real, was: ExecutionState)
    requires s.row.executionState in {STARTING, RUNNING, TOOL_RUNNING, WAITING, STALLED, UNRESPONSIVE}
    requires was == if s.row.executionState != UNRESPONSIVE then s.row.executionState
                    else if s.rt.preUnresponsive.Some? then s.rt.preUnresponsive.value else RUNNING
    requires was in {STARTING, RUNNING, TOOL_RUNNING, WAITING, STALLED}
    ensures var after := OnEvent(s, hasVerifier, e, now).row.executionState;
            && (after == SETTLED <==> e.AgentSettled?)
            && (after == TOOL_RUNNING <==> e.ToolStart? || e.ToolUpdate? || (!IsBoundary(e) && was == TOOL_RUNNING))
            && (after == STARTING <==> !IsBoundary(e) && was == STARTING)
            && after in {SETTLED, TOOL_RUNNING, STARTING, RUNNING}
  {
  }

  /** What an event writes besides the state. */
  lemma EventWrites(s: Supervised, hasVerifier: bool, e: Event, now: real)
    ensures var row, row' := s.row, OnEvent(s, hasVerifier, e, now).row;
            && row'.lastProgressAt == Some(now)
            && row'.activeTool == (match e
                 case ToolStart(tool) => tool
                 case ToolEnd => None
                 case _ => row.activeTool)
            && (e.AgentSettled? ==>
                  && row'.settledAt == Some(now) && !row'.isStreaming && !row'.isCompacting
                  && (row'.verificationState == PENDING <==> hasVerifier)
                  && (row'.verificationState == NOT_RUN <==> !hasVerifier))
            && (!e.AgentSettled? ==>
                  row'.settledAt == row.settledAt && row'.verificationState == row.verificationState)
            && (e.CompactionStart? ==> row'.isCompacting) && (e.CompactionEnd? ==> !row'.isCompacting)
            && (e.AgentEnd? ==> !row'.isStreaming)
            && ((e.MessageStart? || e.MessageUpdate? || e.AgentStart? || e.ToolStart? || e.ToolUpdate?) ==>
                  (row'.isStreaming <==> row.isStreaming || !Final(row.executionState)))
            && ((e.ToolEnd? || e.EntryAppended? || e.OtherEvent? || e.CompactionStart? || e.CompactionEnd?) ==>
                  row'.isStreaming == row.isStreaming)
  {
  }

  function Messages(events: seq<Event>): nat {
    if events == [] then 0 else (if events[0].MessageStart? then 1 else 0) + Messages(events[1..])
  }

  function Received(s: Supervised, hasVerifier: bool, events: seq<Event>, now: real): Supervised
    decreases |events|
  {
    if events == [] then s else Received(OnEvent(s, hasVerifier, events[0], now), hasVerifier, events[1..], now)
  }

  /** Between heartbeats the message count is exact, up to its cap of a million: what it
      was, and one for each message begun since. */
  lemma {:induction false} MessagesAreCounted(s: Supervised, hasVerifier: bool, events: seq<Event>, now: real, n: int)
    requires s.row.messageCount == Some(n) && n <= 1_000_000
    ensures Received(s, hasVerifier, events, now).row.messageCount == Some(Min(n + Messages(events), 1_000_000))
    decreases |events|
  {
    if events == [] {
    } else {
      var s' := OnEvent(s, hasVerifier, events[0], now);
      MessageCounts(s, hasVerifier, events[0], now, n);
      MessagesAreCounted(s', hasVerifier, events[1..], now, s'.row.messageCount.value);
    }
  }

  lemma MessageCounts(s: Supervised, hasVerifier: bool, e: Event, now: real, n: int)
    requires s.row.messageCount == Some(n) && n <= 1_000_000
    ensures OnEvent(s, hasVerifier, e, now).row.messageCount
         == Some(Min(n + if e.MessageStart? then 1 else 0, 1_000_000))
  {
  }

  /** The last event's type, as the RPC spells it. */
  lemma EventIsNamed(s: Supervised, hasVerifier: bool, e: Event, now: real)
    ensures OnEvent(s, hasVerifier, e, now).row.lastEventType == Some(match e
              case AgentStart => "agent_start"
              case AgentEnd => "agent_end"
              case AgentSettled => "agent_settled"
              case ToolStart(_) => "tool_execution_start"
              case ToolUpdate => "tool_execution_update"
              case ToolEnd => "tool_execution_end"
              case EntryAppended => "entry_appended"
              case MessageStart => "message_start"
              case MessageUpdate => "message_update"
              case CompactionStart => "compaction_start"
              case CompactionEnd => "compaction_end"
              case OtherEvent(name) => name)
  {
  }

  /** A final task keeps its state under every event, and every other state is one that a
      restart picks up again. */
  lemma FinalOrResumed(s: Supervised, hasVerifier: bool, e: Event, now: real)
    ensures s.row.executionState in {SETTLED, CRASHED, ABORTED} ==>
              OnEvent(s, hasVerifier, e, now).row.executionState == s.row.executionState
    ensures Resumable(s.row.executionState) <==> s.row.executionState !in {SETTLED, CRASHED, ABORTED}
  {
    match s.row.executionState
    case SETTLED =>
    case CRASHED =>
    case ABORTED =>
    case STARTING =>
    case RUNNING =>
    case TOOL_RUNNING =>
    case WAITING =>
    case STALLED =>
    case UNRESPONSIVE =>
  }

  /** A clock column that was never set, or holds zero, counts as just now. */
  lemma UnsetClocksAreFresh(th: Thresholds, s: Supervised, p: Probe)
    requires !p.exited && !Final(s.row.executionState)
    requires s.row.lastStateAt in {None, Some(0.0)} && s.row.lastProgressAt in {None, Some(0.0)}
    requires s.row.startedAt in {None, Some(0.0)}
    requires 0.0 < th.heartbeat && 0.0 < th.waiting && (th.emergencyCap.Some? ==> 0.0 < th.emergencyCap.value)
    ensures Tick(th, s, p) == TickResult(s, false, None)
  {
  }
}
