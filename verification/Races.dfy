/**
 Handlers between their read and their write: an event's write is guarded, those of a
 tick, an abort and a recovery are not. What that means for a task that becomes final in
 between.
 */
module Races {
  import opened Wrappers
  import opened Rows
  import opened RegistryDb
  import opened Watchdog
  import WatchdogRuns

  /** The state that a tick of a live, uncapped task writes in the end, if it writes one.
      The row is the one the tick read, the runtime the one it finds when it writes. */
  function TickState(th: Thresholds, s: Supervised, p: Probe): Option<ExecutionState> {
    if p.exited then Some(CRASHED)
    else if Asks(th, s.row, p.now) && p.heartbeat.NoAnswer? then Some(UNRESPONSIVE)
    else if Asks(th, s.row, p.now) && Changed(s.row, p.heartbeat.snapshot) then HealState(s)
    else JudgedState(th, s, p)
  }

  function HealState(s: Supervised): Option<ExecutionState> {
    if s.row.executionState in {WAITING, STALLED} then Some(RUNNING)
    else if s.row.executionState == UNRESPONSIVE then Some(ArrivalState(UNRESPONSIVE, s.rt))
    else None
  }

  function JudgedState(th: Thresholds, s: Supervised, p: Probe): Option<ExecutionState> {
    var current := s.row.executionState;
    if Idle(s.row, p.now) < th.waiting then None
    else if Idle(s.row, p.now) < QuietThreshold(th, current) then
      if current in {RUNNING, WAITING} then Some(WAITING) else None
    else if current == TOOL_RUNNING && CpuProven(th, s.rt, p) then None
    else if s.rt.graceStartedAt.Some? && p.now - s.rt.graceStartedAt.value >= th.stallGrace then Some(STALLED)
    else if s.rt.graceStartedAt.None? && th.stallGrace <= 0.0 then Some(STALLED)
    else if current != STALLED then Some(WAITING)
    else None
  }

  /** Undisturbed, it is the state the tick leaves. */
  lemma TickLeavesTickState(th: Thresholds, s: Supervised, p: Probe)
    requires !Final(s.row.executionState) && !CapReached(th, s.row, p.now)
    ensures Tick(th, s, p).task.row.executionState
         == if TickState(th, s, p).Some? then TickState(th, s, p).value else s.row.executionState
  {
    WatchdogRuns.TickEnds(th, s, p);
  }

  /** A handler that writes the state without a guard, between its read and that write. */
  datatype Plan =
    | Ticking(row: TaskRow)
    | Aborting(seen: ExecutionState)
    | Recovering(seen: ExecutionState)

  /** An event handler holds the state it read; its write is guarded. */
  datatype Racing = Racing(row: TaskRow, held: map<nat, ExecutionState>, plans: map<nat, Plan>)

  datatype RaceStep =
    | ReadRow(reader: nat)
    | WriteRow(reader: nat, rt: Runtime, hasVerifier: bool, e: Event, now: real)
    | ReadTick(reader: nat)
    | ReadAbort(reader: nat)
    | ReadRecovery(reader: nat)
    | WritePlan(reader: nat, rt: Runtime, th: Thresholds, p: Probe, outcome: Reattach)

  /** A tick whose time is up hands over to the abort, which reads the row again. */
  predicate HandsOver(r: Racing, step: RaceStep) {
    && step.WritePlan? && step.reader in r.plans
    && var plan := r.plans[step.reader];
       plan.Ticking? && !Final(plan.row.executionState) && CapReached(step.th, plan.row, step.p.now)
  }

  /** The state that the unguarded write of a handler sets, if there is one. */
  function PlainWrite(plan: Plan, step: RaceStep): Option<ExecutionState>
    requires step.WritePlan?
  {
    match plan
    case Ticking(row) =>
      if Final(row.executionState) || CapReached(step.th, row, step.p.now) then None
      else TickState(step.th, Supervised(row, step.rt), step.p)
    case Aborting(seen) => if Final(seen) then None else Some(ABORTED)
    case Recovering(seen) =>
      if seen == SETTLED then None else Some(if step.outcome.Reject? then ABORTED else WAITING)
  }

  /** The write half of an event: a compare-and-set with the target worked out from the
      possibly stale snapshot, then the plain columns. Of the others only the state. */
  function RaceApply(r: Racing, step: RaceStep): Racing {
    match step
    case ReadRow(i) => r.(held := r.held[i := r.row.executionState])
    case WriteRow(i, rt, hasVerifier, e, now) =>
      if i !in r.held then r
      else
        var before := r.held[i];
        var target := EventState(ArrivalState(before, rt), e);
        var row := if !Final(before) && target != before then TransitionRow(r.row, target) else r.row;
        r.(row := EventColumns(row, before, hasVerifier, e, now), held := r.held - {i})
    case ReadTick(i) => r.(plans := r.plans[i := Ticking(r.row)])
    case ReadAbort(i) => r.(plans := r.plans[i := Aborting(r.row.executionState)])
    case ReadRecovery(i) => r.(plans := r.plans[i := Recovering(r.row.executionState)])
    case WritePlan(i, _, _, _, _) =>
      if i !in r.plans then r
      else if HandsOver(r, step) then r.(plans := r.plans[i := Aborting(r.row.executionState)])
      else
        var e := PlainWrite(r.plans[i], step);
        r.(row := if e.Some? then r.row.(executionState := e.value) else r.row, plans := r.plans - {i})
  }

  function RaceRun(r: Racing, steps: seq<RaceStep>): Racing
    decreases |steps|
  {
    if steps == [] then r else RaceRun(RaceApply(r, steps[0]), steps[1..])
  }

  /** A handler whose read keeps it from touching a final row. */
  predicate Harmless(plan: Plan) {
    match plan
    case Ticking(row) => Final(row.executionState)
    case Aborting(seen) => Final(seen)
    case Recovering(seen) => seen == SETTLED
  }

  /** No unguarded writer is under way that read the row before it became final. */
  ghost predicate NoOldWriter(r: Racing) {
    forall i :: i in r.plans ==> Harmless(r.plans[i])
  }

  lemma RaceStepKeepsFinal(r: Racing, step: RaceStep)
    requires Final(r.row.executionState) && NoOldWriter(r)
    requires r.row.executionState != SETTLED ==> !step.ReadRecovery?
    ensures RaceApply(r, step).row.executionState == r.row.executionState && NoOldWriter(RaceApply(r, step))
  {
  }

  /** No number of event handlers that read the row before it became final, interleaved
      in any way with each other and with ticks, aborts and recoveries that read it after,
      brings a final task back; only a crashed or aborted one is brought back by a
      recovery, and on purpose. */
  lemma {:induction false} StaleEventsNeverResurrect(r: Racing, steps: seq<RaceStep>)
    requires Final(r.row.executionState) && NoOldWriter(r)
    requires r.row.executionState != SETTLED ==> forall i :: 0 <= i < |steps| ==> !steps[i].ReadRecovery?
    ensures RaceRun(r, steps).row.executionState == r.row.executionState
    decreases |steps|
  {
    if steps == [] {
    } else {
      RaceStepKeepsFinal(r, steps[0]);
      StaleEventsNeverResurrect(RaceApply(r, steps[0]), steps[1..]);
    }
  }

  /** The unguarded write, still to come, of a handler that found the task unsettled. */
  predicate OldWrite(r: Racing, step: RaceStep) {
    && step.WritePlan? && step.reader in r.plans
    && !Harmless(r.plans[step.reader])
    && PlainWrite(r.plans[step.reader], step).Some?
  }

  lemma PlainWritesNeverSettle(plan: Plan, step: RaceStep)
    requires step.WritePlan?
    requires step.rt.preUnresponsive.Some? ==> !Final(step.rt.preUnresponsive.value)
    ensures PlainWrite(plan, step) != Some(SETTLED)
  {
  }

  /** The runtime never remembers a final state: `UnresponsiveRemembers`. */
  predicate Remembers(step: RaceStep) {
    step.WritePlan? && step.rt.preUnresponsive.Some? ==> !Final(step.rt.preUnresponsive.value)
  }

  lemma SettlementStep(r: Racing, step: RaceStep)
    requires r.row.executionState == SETTLED && Remembers(step)
    ensures RaceApply(r, step).row.executionState != SETTLED <==> OldWrite(r, step)
  {
    if step.WritePlan? && step.reader in r.plans { PlainWritesNeverSettle(r.plans[step.reader], step); }
  }

  function After(r: Racing, steps: seq<RaceStep>, k: nat): Racing
    requires k <= |steps|
  {
    RaceRun(r, steps[..k])
  }

  lemma AfterFirst(r: Racing, steps: seq<RaceStep>, k: nat)
    requires steps != [] && k < |steps|
    ensures After(r, steps, k + 1) == After(RaceApply(r, steps[0]), steps[1..], k)
  {
    assert steps[..k + 1] == [steps[0]] + steps[1..][..k];
    RaceFirst(r, steps[0], steps[1..][..k]);
  }

  /** How a settlement is lost, over whole races: in any interleaving of events, ticks,
      aborts and recoveries the task is at some point found no longer settled if and only
      if, at some point, a tick or an abort that read it live, or a recovery that read it
      unsettled, comes to its unguarded write. No event write does it, stale or not. */
  lemma {:induction false} SettlementIsLostExactlyToOldWrites(r: Racing, steps: seq<RaceStep>)
    requires r.row.executionState == SETTLED && forall i :: 0 <= i < |steps| ==> Remembers(steps[i])
    ensures (exists k :: 0 <= k <= |steps| && After(r, steps, k).row.executionState != SETTLED)
            <==> exists k :: 0 <= k < |steps| && OldWrite(After(r, steps, k), steps[k])
    decreases |steps|
  {
    if steps == [] {
      assert After(r, steps, 0) == r;
    } else {
      var r', rest := RaceApply(r, steps[0]), steps[1..];
      assert After(r, steps, 0) == r;
      SettlementStep(r, steps[0]);
      AfterFirst(r, steps, 0);
      assert After(r', rest, 0) == r';
      if !OldWrite(r, steps[0]) {
        SettlementIsLostExactlyToOldWrites(r', rest);
        ShiftLoss(r, steps);
        ShiftWrite(r, steps);
      }
    }
  }

  lemma ShiftLoss(r: Racing, steps: seq<RaceStep>)
    requires steps != [] && r.row.executionState == SETTLED
    ensures (exists k :: 0 <= k <= |steps| && After(r, steps, k).row.executionState != SETTLED)
            <==> exists k :: 0 <= k <= |steps[1..]|
                   && After(RaceApply(r, steps[0]), steps[1..], k).row.executionState != SETTLED
  {
    var r', rest := RaceApply(r, steps[0]), steps[1..];
    assert After(r, steps, 0) == r;
    if k :| 0 <= k <= |steps| && After(r, steps, k).row.executionState != SETTLED {
      AfterFirst(r, steps, k - 1);
      assert After(r', rest, k - 1).row.executionState != SETTLED;
    }
    if k :| 0 <= k <= |rest| && After(r', rest, k).row.executionState != SETTLED {
      AfterFirst(r, steps, k);
      assert After(r, steps, k + 1).row.executionState != SETTLED;
    }
  }

  lemma ShiftWrite(r: Racing, steps: seq<RaceStep>)
    requires steps != [] && !OldWrite(r, steps[0])
    ensures (exists k :: 0 <= k < |steps| && OldWrite(After(r, steps, k), steps[k]))
            <==> exists k :: 0 <= k < |steps[1..]|
                   && OldWrite(After(RaceApply(r, steps[0]), steps[1..], k), steps[1..][k])
  {
    var r', rest := RaceApply(r, steps[0]), steps[1..];
    assert After(r, steps, 0) == r;
    if k :| 0 <= k < |steps| && OldWrite(After(r, steps, k), steps[k]) {
      AfterFirst(r, steps, k - 1);
      assert OldWrite(After(r', rest, k - 1), rest[k - 1]);
    }
    if k :| 0 <= k < |rest| && OldWrite(After(r', rest, k), rest[k]) {
      AfterFirst(r, steps, k);
      assert OldWrite(After(r, steps, k + 1), steps[k + 1]);
    }
  }

  /** A read, an event that settles the task, and the write the read has led to. */
  function Overtaken(read: RaceStep, hasVerifier: bool, now: real, write: RaceStep): seq<RaceStep> {
    [read, ReadRow(1), WriteRow(1, FRESH_RUNTIME, hasVerifier, AgentSettled, now), write]
  }

  lemma OvertakenRuns(row: TaskRow, read: RaceStep, hasVerifier: bool, now: real, write: RaceStep, plan: Plan)
    requires row.executionState == RUNNING && write.WritePlan? && write.reader == 0
    requires RaceApply(Racing(row, map[], map[]), read) == Racing(row, map[], map[0 := plan])
    requires PlainWrite(plan, write).Some? && !(plan.Ticking? && CapReached(write.th, plan.row, write.p.now))
    ensures var r, steps := Racing(row, map[], map[]), Overtaken(read, hasVerifier, now, write);
            && RaceRun(r, steps[..3]).row.executionState == SETTLED
            && RaceRun(r, steps).row.executionState == PlainWrite(plan, write).value
  {
    var r := Racing(row, map[], map[]);
    var b, c := ReadRow(1), WriteRow(1, FRESH_RUNTIME, hasVerifier, AgentSettled, now);
    var r1 := RaceApply(r, read);
    var r2 := RaceApply(r1, b);
    var r3 := RaceApply(r2, c);
    assert r3.row.executionState == SETTLED && r3.plans == map[0 := plan];
    RaceThree(r, read, b, c, []);
    RaceThree(r, read, b, c, [write]);
    RaceFirst(r3, write, []);
    assert [write] + [] == [write];
    assert Overtaken(read, hasVerifier, now, write)[..3] == [read, b, c] + [];
    assert Overtaken(read, hasVerifier, now, write) == [read, b, c] + [write];
  }

  lemma RaceThree(r: Racing, a: RaceStep, b: RaceStep, c: RaceStep, steps: seq<RaceStep>)
    ensures RaceRun(r, [a, b, c] + steps) == RaceRun(RaceApply(RaceApply(RaceApply(r, a), b), c), steps)
  {
    var r1 := RaceApply(r, a);
    var r2 := RaceApply(r1, b);
    assert [a, b, c] + steps == [a] + ([b] + ([c] + steps));
    RaceFirst(r, a, [b] + ([c] + steps));
    RaceFirst(r1, b, [c] + steps);
    RaceFirst(r2, c, steps);
  }

  /** It happens to all three: a settlement is overwritten by the WAITING of a tick that
      read a running, quiet task, by the ABORTED of an abort, and by the WAITING of a
      reattachment. */
  lemma SettlementCanBeOverwritten(row: TaskRow, th: Thresholds, p: Probe, snapshot: Snapshot, hasVerifier: bool)
    requires row.executionState == RUNNING && !CapReached(th, row, p.now)
    requires TickState(th, Supervised(row, FRESH_RUNTIME), p) == Some(WAITING)
    ensures var r, write := Racing(row, map[], map[]), WritePlan(0, FRESH_RUNTIME, th, p, Attach(snapshot));
            && RaceRun(r, Overtaken(ReadTick(0), hasVerifier, p.now, write)[..3]).row.executionState == SETTLED
            && RaceRun(r, Overtaken(ReadTick(0), hasVerifier, p.now, write)).row.executionState == WAITING
            && RaceRun(r, Overtaken(ReadAbort(0), hasVerifier, p.now, write)[..3]).row.executionState == SETTLED
            && RaceRun(r, Overtaken(ReadAbort(0), hasVerifier, p.now, write)).row.executionState == ABORTED
            && RaceRun(r, Overtaken(ReadRecovery(0), hasVerifier, p.now, write)[..3]).row.executionState == SETTLED
            && RaceRun(r, Overtaken(ReadRecovery(0), hasVerifier, p.now, write)).row.executionState == WAITING
  {
    var write := WritePlan(0, FRESH_RUNTIME, th, p, Attach(snapshot));
    OvertakenRuns(row, ReadTick(0), hasVerifier, p.now, write, Ticking(row));
    OvertakenRuns(row, ReadAbort(0), hasVerifier, p.now, write, Aborting(RUNNING));
    OvertakenRuns(row, ReadRecovery(0), hasVerifier, p.now, write, Recovering(RUNNING));
  }

  /** A capped tick, however old its read, spares a task that is final by the time its
      abort reads it. */
  lemma CappedTickSparesFinal(r: Racing, step: RaceStep, write: RaceStep)
    requires Final(r.row.executionState) && HandsOver(r, step) && write.WritePlan? && write.reader == step.reader
    ensures RaceApply(RaceApply(r, step), write).row.executionState == r.row.executionState
  {
  }

  lemma RaceFirst(r: Racing, step: RaceStep, steps: seq<RaceStep>)
    ensures RaceRun(r, [step] + steps) == RaceRun(RaceApply(r, step), steps)
  {
    assert ([step] + steps)[1..] == steps;
  }

  /** Without interference the two halves are the atomic handlers. */
  lemma UninterruptedRaceIsOnEvent(s: Supervised, hasVerifier: bool, e: Event, now: real, i: nat)
    ensures RaceRun(Racing(s.row, map[], map[]), [ReadRow(i), WriteRow(i, s.rt, hasVerifier, e, now)]).row
         == OnEvent(s, hasVerifier, e, now).row
  {
    var r, a, b := Racing(s.row, map[], map[]), ReadRow(i), WriteRow(i, s.rt, hasVerifier, e, now);
    RaceFirst(r, a, [b]);
    RaceFirst(RaceApply(r, a), b, []);
    assert [a] + [b] == [a, b] && [b] + [] == [b];
  }

  lemma UninterruptedTick(th: Thresholds, s: Supervised, p: Probe, outcome: Reattach, i: nat)
    requires !Final(s.row.executionState) && !CapReached(th, s.row, p.now)
    ensures var r, write := Racing(s.row, map[], map[]), WritePlan(i, s.rt, th, p, outcome);
            RaceApply(RaceApply(r, ReadTick(i)), write).row.executionState == Tick(th, s, p).task.row.executionState
  {
    TickLeavesTickState(th, s, p);
  }

  lemma UninterruptedCappedTick(th: Thresholds, s: Supervised, p: Probe, outcome: Reattach, i: nat)
    requires !Final(s.row.executionState) && CapReached(th, s.row, p.now)
    ensures var r, write := Racing(s.row, map[], map[]), WritePlan(i, s.rt, th, p, outcome);
            RaceApply(RaceApply(RaceApply(r, ReadTick(i)), write), write).row.executionState
            == Tick(th, s, p).task.row.executionState
  {
  }

  lemma UninterruptedAbort(th: Thresholds, s: Supervised, p: Probe, outcome: Reattach, i: nat)
    ensures var r, write := Racing(s.row, map[], map[]), WritePlan(i, s.rt, th, p, outcome);
            RaceApply(RaceApply(r, ReadAbort(i)), write).row.executionState == AbortTask(s).row.executionState
  {
  }

  lemma UninterruptedRecovery(th: Thresholds, s: Supervised, p: Probe, outcome: Reattach, i: nat)
    ensures var r, write := Racing(s.row, map[], map[]), WritePlan(i, s.rt, th, p, outcome);
            RaceApply(RaceApply(r, ReadRecovery(i)), write).row.executionState
            == RecoverTask(s, outcome, p.now).row.executionState
  {
  }
}
