/**
 The manager's handlers as the original has them: they read the task's row, write
 columns of it through the registry one update at a time and change the fields of
 the task's runtime, and together they do exactly what the handler functions say.
 */
module Supervisor {
  import opened Wrappers
  import opened Rows
  import opened RegistryDb
  import opened Watchdog
  import LspCheck
  import Settlement

  class TaskRuntime {
    const thresholds: Thresholds
    const hasVerifier: bool
    var stallGraceStartedAt: Option<real>
    var preUnresponsiveState: Option<ExecutionState>
    var toolCpu: Option<CpuSample>

    constructor (thresholds: Thresholds, hasVerifier: bool)
      ensures this.thresholds == thresholds && this.hasVerifier == hasVerifier && View() == FRESH_RUNTIME
    {
      this.thresholds, this.hasVerifier := thresholds, hasVerifier;
      stallGraceStartedAt, preUnresponsiveState, toolCpu := None, None, None;
    }

    function View(): Runtime
      reads this
    {
      Runtime(stallGraceStartedAt, preUnresponsiveState, toolCpu)
    }
  }

  class PiManager {
    const registry: Registry

    constructor (registry: Registry)
      ensures this.registry == registry
    {
      this.registry := registry;
    }

    ghost predicate Knows(id: string)
      reads registry
    {
      !registry.closed && id in registry.tasks
    }

    function Task(id: string, rt: TaskRuntime): Supervised
      requires id in registry.tasks
      reads registry, rt
    {
      Supervised(registry.tasks[id], rt.View())
    }

    /** A plain write of the state: the caller's guard is not part of it. */
    method SetExecutionState(id: string, e: ExecutionState)
      requires Knows(id)
      modifies registry`tasks
      ensures registry.tasks == old(registry.tasks)[id := old(registry.tasks)[id].(executionState := e)]
    {
      registry.UpdateTask(id, registry.tasks[id].(executionState := e));
    }

    method ApplyStateSnapshot(id: string, state: Snapshot, now: real) returns (changed: bool)
      requires Knows(id)
      modifies registry`tasks
      ensures changed == Changed(old(registry.tasks)[id], state)
      ensures registry.tasks == old(registry.tasks)[id := SnapshotRow(old(registry.tasks)[id], state, now)]
    {
      var row := registry.tasks[id];
      var updates := row.(lastStateAt := Some(now), lastStateHash := Some(state), messageCount := state.messageCount,
                          isStreaming := state.isStreaming, isCompacting := state.isCompacting);
      changed := row.lastStateHash != Some(state);
      if changed { updates := updates.(lastProgressAt := Some(now)); }
      registry.UpdateTask(id, updates);
    }

    method MarkUnresponsive(id: string, rt: TaskRuntime, current: ExecutionState)
      requires Knows(id) && registry.tasks[id].executionState == current
      modifies registry`tasks, rt`preUnresponsiveState
      ensures registry.tasks == old(registry.tasks)[id := Unanswered(old(Task(id, rt))).row]
      ensures rt.View() == Unanswered(old(Task(id, rt))).rt
    {
      if rt.preUnresponsiveState.None? { rt.preUnresponsiveState := Some(current); }
      SetExecutionState(id, UNRESPONSIVE);
    }

    method ApplyChangedHeartbeat(id: string, rt: TaskRuntime, current: ExecutionState)
      requires Knows(id) && registry.tasks[id].executionState == current
      modifies registry`tasks, rt
      ensures registry.tasks == old(registry.tasks)[id := Healed(old(Task(id, rt))).row]
      ensures rt.View() == Healed(old(Task(id, rt))).rt
    {
      rt.stallGraceStartedAt := None;
      if current == WAITING || current == STALLED {
        SetExecutionState(id, RUNNING);
      } else if current == UNRESPONSIVE {
        var recovered := if rt.preUnresponsiveState.Some? then rt.preUnresponsiveState.value else RUNNING;
        rt.preUnresponsiveState := None;
        SetExecutionState(id, recovered);
      }
    }

    /** Proof of work from two samples of the process tree's CPU time. */
    method ToolProcessActive(rt: TaskRuntime, p: Probe) returns (active: bool)
      modifies rt`toolCpu
      ensures active == CpuProven(rt.thresholds, old(rt.View()), p)
      ensures rt.View() == Sampled(old(rt.View()), p)
    {
      if p.cpuTotal.None? { return false; }
      var previous := rt.toolCpu;
      rt.toolCpu := Some(CpuSample(p.cpuTotal.value, p.now));
      active := previous.Some? && p.cpuTotal.value - previous.value.total > 0.5
                && p.now - previous.value.at <= rt.thresholds.toolWindow * 3.0;
    }

    /** The tail of a tick, for a quiet task that answered unchanged. */
    method JudgeQuietTask(id: string, rt: TaskRuntime, p: Probe, current: ExecutionState)
      returns (stallAbort: bool, notice: Option<Kind>)
      requires Knows(id) && registry.tasks[id].executionState == current
      modifies registry`tasks, rt
      ensures var r := JudgeQuiet(rt.thresholds, old(Task(id, rt)), p);
              && registry.tasks == old(registry.tasks)[id := r.task.row] && rt.View() == r.task.rt
              && stallAbort == r.stallAbort && notice == r.notice
    {
      notice := None;
      if current == TOOL_RUNNING {
        var active := ToolProcessActive(rt, p);
        if active {
          registry.UpdateTask(id, registry.tasks[id].(lastProgressAt := Some(p.now)));
          rt.stallGraceStartedAt := None;
          return false, None;
        }
      }
      stallAbort := rt.stallGraceStartedAt.None?;
      if stallAbort { rt.stallGraceStartedAt := Some(p.now); }
      if p.now - rt.stallGraceStartedAt.value >= rt.thresholds.stallGrace {
        SetExecutionState(id, STALLED);
        var _ := registry.BeginTerminalWake(id, p.now);
        notice := Some(Stall);
      } else if current != STALLED {
        SetExecutionState(id, WAITING);
      }
    }

    /** One watchdog evaluation step. */
    method WatchdogTick(id: string, rt: TaskRuntime, p: Probe) returns (stallAbort: bool, notice: Option<Kind>)
      modifies registry`tasks, rt
      ensures !old(Knows(id)) ==> registry.tasks == old(registry.tasks) && rt.View() == old(rt.View()) && !stallAbort
      ensures old(Knows(id)) ==>
                var r := Tick(rt.thresholds, old(Task(id, rt)), p);
                && registry.tasks == old(registry.tasks)[id := r.task.row] && rt.View() == r.task.rt
                && stallAbort == r.stallAbort && notice == r.notice
    {
      stallAbort, notice := false, None;
      var found := registry.GetTask(id);
      if found.None? { return; }
      var row, th := found.value, rt.thresholds;
      var current := row.executionState;
      if Final(current) { return; }
      if th.emergencyCap.Some? && p.now - OrElse(row.startedAt, p.now) >= th.emergencyCap.value {
        notice := Abort(id);
        return;
      }
      if p.exited {
        SetExecutionState(id, CRASHED);
        var _ := registry.BeginTerminalWake(id, p.now);
        notice := Some(Failure);
        return;
      }
      stallAbort, notice := EvaluateLive(id, rt, p);
    }

    /** The heartbeat is asked when it is due, or else only once the task has been
        quiet for too long; never twice. */
    method EvaluateLive(id: string, rt: TaskRuntime, p: Probe) returns (stallAbort: bool, notice: Option<Kind>)
      requires Knows(id)
      modifies registry`tasks, rt
      ensures var r := Evaluate(rt.thresholds, old(Task(id, rt)), p);
              && registry.tasks == old(registry.tasks)[id := r.task.row] && rt.View() == r.task.rt
              && stallAbort == r.stallAbort && notice == r.notice
    {
      stallAbort, notice := false, None;
      var row, th := registry.tasks[id], rt.thresholds;
      var current := row.executionState;
      var asked := p.now - OrElse(row.lastStateAt, p.now) >= th.heartbeat;
      if asked {
        var decided := Heartbeat(id, rt, p, current);
        if decided { return; }
      }
      var idle := p.now - OrElse(row.lastProgressAt, p.now);
      if idle < th.waiting { return; }
      if idle < QuietThreshold(th, current) {
        if current == RUNNING || current == WAITING { SetExecutionState(id, WAITING); }
        return;
      }
      if !asked {
        var decided := Heartbeat(id, rt, p, current);
        if decided { return; }
      }
      stallAbort, notice := JudgeQuietTask(id, rt, p, current);
    }

    /** Asks once; true if the answer, or its absence, already decides the tick. */
    method Heartbeat(id: string, rt: TaskRuntime, p: Probe, current: ExecutionState) returns (decided: bool)
      requires Knows(id) && registry.tasks[id].executionState == current
      modifies registry`tasks, rt
      ensures decided == (p.heartbeat.NoAnswer? || Changed(old(registry.tasks)[id], p.heartbeat.snapshot))
      ensures var s := old(Task(id, rt));
              var s' := match p.heartbeat
                        case NoAnswer => Unanswered(s)
                        case Answer(state) =>
                          var seen := s.(row := SnapshotRow(s.row, state, p.now));
                          if decided then Healed(seen) else seen;
              registry.tasks == old(registry.tasks)[id := s'.row] && rt.View() == s'.rt
    {
      match p.heartbeat
      case NoAnswer =>
        MarkUnresponsive(id, rt, current);
        decided := true;
      case Answer(state) =>
        decided := ApplyStateSnapshot(id, state, p.now);
        if decided { ApplyChangedHeartbeat(id, rt, current); }
    }

    /** The kill switch: RPC abort and signals are outside the model. */
    method Abort(id: string) returns (notice: Option<Kind>)
      requires Knows(id)
      modifies registry`tasks
      ensures registry.tasks == old(registry.tasks)[id :=
                AbortTask(Supervised(old(registry.tasks)[id], FRESH_RUNTIME)).row]
      ensures notice == if Final(old(registry.tasks)[id].executionState) then None else Some(Failure)
    {
      if Final(registry.tasks[id].executionState) { return None; }
      registry.UpdateTask(id, registry.tasks[id].(abortRequested := true));
      SetExecutionState(id, ABORTED);
      notice := Some(Failure);
    }

    /** The event's state change, guarded by the snapshot and again by the registry. */
    method MoveTo(id: string, before: ExecutionState, target: ExecutionState)
      requires Knows(id) && registry.tasks[id].executionState == before
      modifies registry`tasks
      ensures registry.tasks == old(registry.tasks)[id := TransitionRow(old(registry.tasks)[id], target)]
    {
      if !Final(before) && target != before {
        var _ := registry.TransitionTaskState(id, target);
      }
    }

    method WriteEventColumns(id: string, before: ExecutionState, hasVerifier: bool, e: Event, now: real)
      requires Knows(id)
      modifies registry`tasks
      ensures registry.tasks == old(registry.tasks)[id :=
                EventColumns(old(registry.tasks)[id], before, hasVerifier, e, now)]
    {
      registry.UpdateTask(id, EventColumns(registry.tasks[id], before, hasVerifier, e, now));
    }

    /** One RPC event: the guarded transition, then the plain columns, then the runtime. */
    method HandleEvent(id: string, rt: TaskRuntime, e: Event, now: real)
      modifies registry`tasks, rt
      ensures !old(Knows(id)) ==> registry.tasks == old(registry.tasks) && rt.View() == old(rt.View())
      ensures old(Knows(id)) ==>
                var s' := OnEvent(old(Task(id, rt)), rt.hasVerifier, e, now);
                registry.tasks == old(registry.tasks)[id := s'.row] && rt.View() == s'.rt
    {
      var found := registry.GetTask(id);
      if found.None? { return; }
      var before := found.value.executionState;
      var target := EventState(ArrivalState(before, rt.View()), e);
      MoveTo(id, before, target);
      WriteEventColumns(id, before, rt.hasVerifier, e, now);
      rt.stallGraceStartedAt := None;
      rt.preUnresponsiveState := None;
    }

    /** The semantic check before the gate: its text is stored if it reached a verdict, and
        whatever it says nothing else of the row changes. */
    method RunLspCheck(id: string, service: bool, reports: seq<LspCheck.FileReport>)
      returns (ghost scan: Option<Settlement.StoredScan>)
      requires Knows(id)
      modifies registry`tasks
      ensures scan.None? <==> !service || LspCheck.CountChecked(LspCheck.Considered(reports)) == 0
      ensures scan.Some? ==>
                var ds := LspCheck.AllDiagnostics(LspCheck.Considered(reports));
                && scan.value.result.errors == LspCheck.CountSeverity(ds, LspCheck.SEVERITY_ERROR)
                && scan.value.result.warnings == LspCheck.CountSeverity(ds, LspCheck.SEVERITY_WARNING)
      ensures registry.tasks == old(registry.tasks)[id := Settlement.ScannedRow(old(registry.tasks)[id], scan)]
    {
      var result := LspCheck.Run(service, reports);
      if result.None? {
        scan := None;
        return;
      }
      var stored := Settlement.Stored(result.value);
      scan := Some(stored);
      registry.UpdateTask(id, registry.tasks[id].(lspSummary := Some(stored.text)));
    }

    /** `run_verifier_now`: refused unless the task is settled; else pending while the gate
        runs, then its verdict. */
    method RunVerifierNow(id: string, gate: Settlement.GateRun) returns (ran: bool)
      requires Knows(id)
      modifies registry`tasks
      ensures ran == (old(registry.tasks)[id].executionState == SETTLED)
      ensures !ran ==> registry.tasks == old(registry.tasks)
      ensures ran ==> registry.tasks == old(registry.tasks)[id :=
                        Settlement.JudgedRow(old(registry.tasks)[id], gate)]
      ensures ran ==> var v := registry.tasks[id].verificationState;
                && (v == PASS <==> gate == Settlement.Exited(0))
                && (v == UNRUNNABLE <==> gate.TimedOut? || gate in {Settlement.Exited(126), Settlement.Exited(127)})
                && (v == FAIL <==> gate.Blew? || (gate.Exited? && gate.code !in {0, 126, 127}))
    {
      ran := registry.tasks[id].executionState == SETTLED;
      if !ran { return; }
      registry.UpdateTask(id, registry.tasks[id].(verificationState := PENDING));
      registry.UpdateTask(id, Settlement.JudgedRow(registry.tasks[id], gate));
    }

    /** Recovery of one interrupted task; spawning and the identity check are the input. */
    method RecoverInterrupted(id: string, outcome: Reattach, now: real)
      requires Knows(id) && Resumable(registry.tasks[id].executionState)
      modifies registry`tasks
      ensures registry.tasks == old(registry.tasks)[id :=
                RecoverTask(Supervised(old(registry.tasks)[id], FRESH_RUNTIME), outcome, now).row]
    {
      match outcome
      case Reject =>
        SetExecutionState(id, ABORTED);
        var _ := registry.BeginTerminalWake(id, now);
      case Attach(state) =>
        var _ := ApplyStateSnapshot(id, state, now);
        registry.UpdateTask(id, registry.tasks[id].(executionState := WAITING, lastProgressAt := Some(now)));
    }

    method RecoverSettled(id: string, gate: Settlement.GateRun, now: real)
      requires Knows(id) && registry.tasks[id].executionState == SETTLED
      modifies registry`tasks
      ensures registry.tasks == old(registry.tasks)[id :=
                Settlement.RecoverSettledRow(old(registry.tasks)[id], gate, now)]
    {
      var row := registry.tasks[id];
      if (row.verificationState == PENDING || row.verificationState == NOT_RUN) && row.verifierSpec != NoSpec {
        if row.verifierSpec == Loadable {
          var _ := RunVerifierNow(id, gate);
          var _ := registry.BeginTerminalWake(id, now);
        }
      } else {
        var resolved := row.verificationState in {PASS, FAIL, UNRUNNABLE}
                        || (row.verificationState == NOT_RUN && row.verifierSpec == NoSpec);
        if resolved && row.wakeState.None? { var _ := registry.BeginTerminalWake(id, now); }
      }
    }

    method SweepInterrupted(reattach: string -> Reattach, now: real)
      requires !registry.closed
      modifies registry`tasks
      ensures registry.tasks == map id | id in old(registry.tasks) ::
                if Resumable(old(registry.tasks)[id].executionState)
                then Reattached(old(registry.tasks)[id], reattach(id), now)
                else old(registry.tasks)[id]
    {
      ghost var before := registry.tasks;
      var todo := set id | id in registry.tasks && Resumable(registry.tasks[id].executionState);
      while todo != {}
        invariant todo <= before.Keys == registry.tasks.Keys
        invariant forall id :: id in todo ==> Resumable(before[id].executionState)
        invariant forall id :: id in before ==>
                    registry.tasks[id] == if Resumable(before[id].executionState) && id !in todo
                                          then Reattached(before[id], reattach(id), now)
                                          else before[id]
        decreases todo
      {
        var id :| id in todo;
        assert registry.tasks[id] == before[id];
        RecoverInterrupted(id, reattach(id), now);
        todo := todo - {id};
      }
    }

    method SweepSettled(gate: string -> Settlement.GateRun, now: real)
      requires !registry.closed
      modifies registry`tasks
      ensures registry.tasks == map id | id in old(registry.tasks) ::
                if old(registry.tasks)[id].executionState == SETTLED
                then Settlement.RecoverSettledRow(old(registry.tasks)[id], gate(id), now) else old(registry.tasks)[id]
    {
      ghost var before := registry.tasks;
      var todo := set id | id in registry.tasks && registry.tasks[id].executionState == SETTLED;
      while todo != {}
        invariant todo <= before.Keys == registry.tasks.Keys
        invariant forall id :: id in todo ==> before[id].executionState == SETTLED
        invariant forall id :: id in before ==>
                    registry.tasks[id] == if before[id].executionState == SETTLED && id !in todo
                                          then Settlement.RecoverSettledRow(before[id], gate(id), now) else before[id]
        decreases todo
      {
        var id :| id in todo;
        assert registry.tasks[id] == before[id];
        RecoverSettled(id, gate(id), now);
        todo := todo - {id};
      }
    }

    /** The boot-time sweep: first everything that was running, then everything settled. */
    method RecoverAll(reattach: string -> Reattach, gate: string -> Settlement.GateRun, now: real)
      modifies registry`tasks
      ensures registry.closed ==> registry.tasks == old(registry.tasks)
      ensures !registry.closed ==>
                registry.tasks == map id | id in old(registry.tasks) ::
                                    Settlement.RecoverRow(old(registry.tasks)[id], reattach(id), gate(id), now)
    {
      if registry.closed { return; }
      SweepInterrupted(reattach, now);
      SweepSettled(gate, now);
    }
  }

  function Reattached(row: TaskRow, outcome: Reattach, now: real): (r: TaskRow)
    ensures Resumable(row.executionState) ==> r.executionState in {WAITING, ABORTED}
  {
    RecoverTask(Supervised(row, FRESH_RUNTIME), outcome, now).row
  }
}
