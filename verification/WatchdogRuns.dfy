/**
 What every run of the handlers keeps: ticks, events, aborts and recoveries of one
 task in any order and at any clock readings.
 */
module WatchdogRuns {
  import opened Wrappers
  import opened Rows
  import opened RegistryDb
  import opened Watchdog

  /** The task with a history: the times of the RPC aborts the watchdog requested,
      how many graces were opened, the progress column when the last one was, and
      whether the latest tool or agent boundary event was a tool start or update. */
  datatype Watched = Watched(
    s: Supervised, aborts: seq<real>, graces: nat, progressAtGrace: Timestamp, toolLive: bool)

  datatype Action =
    | Ticked(p: Probe)
    | Received(e: Event, hasVerifier: bool, now: real)
    | AbortRequested
    | Recovered(outcome: Reattach, now: real)

  function ToolLive(before: bool, e: Event): bool {
    match e
    case ToolStart(_) => true
    case ToolUpdate => true
    case ToolEnd => false
    case AgentStart => false
    case AgentSettled => false
    case _ => before
  }

  /** The ways a tick can end, as far as states, grace and progress are concerned. */
  datatype TickEnd = Over | Missed | Moved | Calm | Working | InGrace

  ghost predicate EndsAs(th: Thresholds, s: Supervised, now: real, end: TickEnd, s': Supervised, abort: bool) {
    var before, after := s.row.executionState, s'.row.executionState;
    var grace := if s.rt.graceStartedAt.None? then now else s.rt.graceStartedAt.value;
    && (abort ==> end.InGrace?)
    && (s'.rt.graceStartedAt == match end
          case Moved => None
          case Working => None
          case InGrace => Some(grace)
          case _ => s.rt.graceStartedAt)
    && (s'.rt.preUnresponsive == match end
          case Missed => if s.rt.preUnresponsive.None? then Some(before) else s.rt.preUnresponsive
          case Moved => if before == UNRESPONSIVE then None else s.rt.preUnresponsive
          case _ => s.rt.preUnresponsive)
    && (s'.row.lastProgressAt == if end.Moved? || end.Working? then Some(now) else s.row.lastProgressAt)
    && match end
       case Over => if Final(before) then after == before else after in {CRASHED, ABORTED}
       case Missed => after == UNRESPONSIVE
       case Moved => after == (if before in {WAITING, STALLED} then RUNNING
                               else if before == UNRESPONSIVE then ArrivalState(before, s.rt) else before)
       case Calm => after == before || after == WAITING
       case Working => before == after == TOOL_RUNNING
       case InGrace =>
         && Idle(s.row, now) >= QuietThreshold(th, before) && Idle(s.row, now) >= th.waiting
         && abort == s.rt.graceStartedAt.None?
         && after == (if now - grace >= th.stallGrace || before == STALLED then STALLED else WAITING)
  }

  function EndOf(th: Thresholds, s: Supervised, p: Probe): TickEnd {
    if Final(s.row.executionState) || CapReached(th, s.row, p.now) || p.exited then Over
    else if Asks(th, s.row, p.now) && p.heartbeat.NoAnswer? then Missed
    else if Asks(th, s.row, p.now) && Changed(s.row, p.heartbeat.snapshot) then Moved
    else if Idle(s.row, p.now) < th.waiting || Idle(s.row, p.now) < QuietThreshold(th, s.row.executionState) then Calm
    else if s.row.executionState == TOOL_RUNNING && CpuProven(th, s.rt, p) then Working
    else InGrace
  }

  lemma TickEnds(th: Thresholds, s: Supervised, p: Probe)
    ensures EndsAs(th, s, p.now, EndOf(th, s, p), Tick(th, s, p).task, Tick(th, s, p).stallAbort)
  {
  }

  /** A grace is opened when the runtime's grace field becomes set. */
  predicate OpensGrace(s: Supervised, s': Supervised) {
    s.rt.graceStartedAt.None? && s'.rt.graceStartedAt.Some?
  }

  function Ticking(w: Watched, now: real, s': Supervised, abort: bool): Watched {
    Watched(s',
            if abort then w.aborts + [now] else w.aborts,
            if OpensGrace(w.s, s') then w.graces + 1 else w.graces,
            if OpensGrace(w.s, s') then w.s.row.lastProgressAt else w.progressAtGrace,
            w.toolLive)
  }

  function DoTick(th: Thresholds, w: Watched, p: Probe): Watched {
    Ticking(w, p.now, Tick(th, w.s, p).task, Tick(th, w.s, p).stallAbort)
  }

  function Apply(th: Thresholds, w: Watched, a: Action): Watched {
    match a
    case Ticked(p) => DoTick(th, w, p)
    case Received(e, hasVerifier, now) =>
      w.(s := OnEvent(w.s, hasVerifier, e, now), toolLive := ToolLive(w.toolLive, e))
    case AbortRequested => w.(s := AbortTask(w.s))
    case Recovered(outcome, now) => w.(s := RecoverTask(w.s, outcome, now))
  }

  function Run(th: Thresholds, w: Watched, acts: seq<Action>): Watched
    decreases |acts|
  {
    if acts == [] then w else Run(th, Apply(th, w, acts[0]), acts[1..])
  }

  /** A task as the boot leaves it to the watchdog. */
  ghost predicate Booted(w: Watched) {
    && w.s.row.executionState == RUNNING && w.s.rt == FRESH_RUNTIME
    && w.aborts == [] && w.graces == 0 && !w.toolLive
  }

  ghost predicate GraceInv(th: Thresholds, w: Watched) {
    && |w.aborts| == w.graces
    && (w.s.rt.graceStartedAt.Some? ==>
          var g := w.s.rt.graceStartedAt.value;
          && w.s.row.lastProgressAt == w.progressAtGrace
          && OrElse(w.progressAtGrace, g) + th.softStall <= g
          && w.aborts != [] && w.aborts[|w.aborts| - 1] == g)
  }

  ghost predicate DegradedInv(w: Watched) {
    && (w.s.row.executionState == UNRESPONSIVE ==> w.s.rt.preUnresponsive.Some?)
    && (w.s.rt.preUnresponsive.Some? ==>
          w.s.rt.preUnresponsive.value in {STARTING, RUNNING, TOOL_RUNNING, WAITING, STALLED})
    && (w.s.row.executionState == TOOL_RUNNING ==> w.toolLive)
    && (w.s.rt.preUnresponsive == Some(TOOL_RUNNING) ==> w.toolLive)
  }

  lemma EndKeepsGrace(th: Thresholds, w: Watched, now: real, end: TickEnd, s': Supervised, abort: bool)
    requires th.Ordered() && GraceInv(th, w) && EndsAs(th, w.s, now, end, s', abort)
    ensures GraceInv(th, Ticking(w, now, s', abort))
  {
  }

  lemma TickKeepsGrace(th: Thresholds, w: Watched, p: Probe)
    requires th.Ordered() && GraceInv(th, w)
    ensures GraceInv(th, DoTick(th, w, p))
  {
    TickEnds(th, w.s, p);
    EndKeepsGrace(th, w, p.now, EndOf(th, w.s, p), Tick(th, w.s, p).task, Tick(th, w.s, p).stallAbort);
  }

  lemma StepKeepsGrace(th: Thresholds, w: Watched, a: Action)
    requires th.Ordered() && GraceInv(th, w)
    ensures GraceInv(th, Apply(th, w, a))
  {
    if a.Ticked? { TickKeepsGrace(th, w, a.p); }
  }

  /** What an event does to the state and the runtime, whatever else it writes. */
  lemma EventOutcome(s: Supervised, hasVerifier: bool, e: Event, now: real)
    ensures var s' := OnEvent(s, hasVerifier, e, now);
            && s'.rt.preUnresponsive.None? && s'.rt.graceStartedAt.None?
            && s'.row.executionState == (if Final(s.row.executionState) then s.row.executionState
                                         else EventState(ArrivalState(s.row.executionState, s.rt), e))
            && s'.row.lastProgressAt == Some(now)
            && SameWakeColumns(s.row, s'.row)
  {
  }

  lemma EventKeepsDegraded(w: Watched, e: Event, hasVerifier: bool, now: real)
    requires DegradedInv(w)
    ensures DegradedInv(w.(s := OnEvent(w.s, hasVerifier, e, now), toolLive := ToolLive(w.toolLive, e)))
  {
    EventOutcome(w.s, hasVerifier, e, now);
  }

  lemma EndKeepsDegraded(th: Thresholds, w: Watched, now: real, end: TickEnd, s': Supervised, abort: bool)
    requires DegradedInv(w) && EndsAs(th, w.s, now, end, s', abort)
    requires end.Over? || !Final(w.s.row.executionState)
    ensures DegradedInv(Ticking(w, now, s', abort))
  {
  }

  lemma TickKeepsDegraded(th: Thresholds, w: Watched, p: Probe)
    requires DegradedInv(w)
    ensures DegradedInv(DoTick(th, w, p))
  {
    TickEnds(th, w.s, p);
    EndKeepsDegraded(th, w, p.now, EndOf(th, w.s, p), Tick(th, w.s, p).task, Tick(th, w.s, p).stallAbort);
  }

  lemma StepKeepsDegraded(th: Thresholds, w: Watched, a: Action)
    requires DegradedInv(w)
    ensures DegradedInv(Apply(th, w, a))
  {
    match a
    case Ticked(p) => TickKeepsDegraded(th, w, p);
    case Received(e, hasVerifier, now) => EventKeepsDegraded(w, e, hasVerifier, now);
    case _ =>
  }

  lemma {:induction false} RunKeepsInv(th: Thresholds, w: Watched, acts: seq<Action>)
    requires th.Ordered() && GraceInv(th, w) && DegradedInv(w)
    ensures GraceInv(th, Run(th, w, acts)) && DegradedInv(Run(th, w, acts))
    decreases |acts|
  {
    if acts == [] {
    } else {
      StepKeepsGrace(th, w, acts[0]);
      StepKeepsDegraded(th, w, acts[0]);
      RunKeepsInv(th, Apply(th, w, acts[0]), acts[1..]);
    }
  }

  /** An open grace is honest: it was opened with its own single RPC abort, only
      after the soft threshold had passed without progress, and the progress clock
      has not moved since. */
  lemma OpenGraceIsHonest(th: Thresholds, w: Watched, acts: seq<Action>)
    requires th.Ordered() && Booted(w)
    ensures var v := Run(th, w, acts);
            && |v.aborts| == v.graces
            && (v.s.rt.graceStartedAt.Some? ==>
                  var g := v.s.rt.graceStartedAt.value;
                  && OrElse(v.s.row.lastProgressAt, g) + th.softStall <= g
                  && v.s.row.lastProgressAt == v.progressAtGrace
                  && v.aborts != [] && v.aborts[|v.aborts| - 1] == g)
  {
    RunKeepsInv(th, w, acts);
  }

  // ---- entering STALLED -------------------------------------------------------------

  predicate Enters(e: ExecutionState, s: Supervised, s': Supervised) {
    s.row.executionState != e && s'.row.executionState == e
  }

  /** A stall that was earned: an abort went out at `g`, the grace has passed since,
      and the task had been idle for the soft threshold by then and has not moved. */
  ghost predicate EarnedStall(th: Thresholds, v: Watched, now: real) {
    && v.aborts != []
    && var g := v.aborts[|v.aborts| - 1];
       && g + th.stallGrace <= now
       && v.s.rt.graceStartedAt == Some(g)
       && OrElse(v.s.row.lastProgressAt, g) + th.softStall <= g
  }

  /** The exception: an unresponsive task that was stalled before answers with a
      changed snapshot, and is put back to STALLED although it has just moved. */
  predicate Relapses(th: Thresholds, s: Supervised, p: Probe) {
    && s.row.executionState == UNRESPONSIVE && s.rt.preUnresponsive == Some(STALLED)
    && !CapReached(th, s.row, p.now) && !p.exited && Asks(th, s.row, p.now)
    && p.heartbeat.Answer? && Changed(s.row, p.heartbeat.snapshot)
  }

  lemma OnlyTicksStall(th: Thresholds, w: Watched, a: Action)
    requires DegradedInv(w) && Enters(STALLED, w.s, Apply(th, w, a).s)
    ensures a.Ticked?
  {
    if a.Received? { EventOutcome(w.s, a.hasVerifier, a.e, a.now); }
  }

  lemma StallEnd(th: Thresholds, w: Watched, now: real, end: TickEnd, s': Supervised, abort: bool)
    requires th.Ordered() && GraceInv(th, w) && DegradedInv(w)
    requires EndsAs(th, w.s, now, end, s', abort) && Enters(STALLED, w.s, s')
    ensures if w.s.row.executionState == UNRESPONSIVE && w.s.rt.preUnresponsive == Some(STALLED) && end.Moved?
            then s'.row.lastProgressAt == Some(now) && s'.rt.graceStartedAt.None?
            else end.InGrace? && EarnedStall(th, Ticking(w, now, s', abort), now)
  {
    EndKeepsGrace(th, w, now, end, s', abort);
  }

  lemma StallTick(th: Thresholds, w: Watched, p: Probe)
    requires th.Ordered() && GraceInv(th, w) && DegradedInv(w)
    requires Enters(STALLED, w.s, DoTick(th, w, p).s)
    ensures EarnedStall(th, DoTick(th, w, p), p.now) <==> !Relapses(th, w.s, p)
  {
    TickEnds(th, w.s, p);
    StallEnd(th, w, p.now, EndOf(th, w.s, p), Tick(th, w.s, p).task, Tick(th, w.s, p).stallAbort);
  }

  lemma RelapseEnters(th: Thresholds, w: Watched, p: Probe)
    requires Relapses(th, w.s, p)
    ensures Enters(STALLED, w.s, DoTick(th, w, p).s)
    ensures DoTick(th, w, p).s.row.lastProgressAt == Some(p.now)
  {
  }

  /** The stall law and exactly where it fails: only a tick stalls a task, and it is
      an earned stall - abort, full grace, no progress - unless it is a relapse. */
  lemma StallsAreEarnedUnlessRelapse(th: Thresholds, w: Watched, acts: seq<Action>, a: Action)
    requires th.Ordered() && Booted(w)
    requires Enters(STALLED, Run(th, w, acts).s, Apply(th, Run(th, w, acts), a).s)
    ensures a.Ticked?
    ensures var v := Run(th, w, acts); EarnedStall(th, Apply(th, v, a), a.p.now) <==> !Relapses(th, v.s, a.p)
  {
    RunKeepsInv(th, w, acts);
    OnlyTicksStall(th, Run(th, w, acts), a);
    StallTick(th, Run(th, w, acts), a.p);
  }

  lemma {:induction false} RunSnoc(th: Thresholds, w: Watched, acts: seq<Action>, a: Action)
    ensures Run(th, w, acts + [a]) == Apply(th, Run(th, w, acts), a)
    decreases |acts|
  {
    if acts == [] {
      assert [a][1..] == [];
    } else {
      assert (acts + [a])[1..] == acts[1..] + [a];
      RunSnoc(th, Apply(th, w, acts[0]), acts[1..], a);
    }
  }

  const SHIPPED := Thresholds(20.0, 10.0, 450.0, 1200.0, 120.0, 60.0, None)

  lemma QuietThenMissed(s: Supervised, still: Snapshot)
    requires s.row.executionState == RUNNING && s.rt == FRESH_RUNTIME
    requires s.row.lastProgressAt == Some(1.0) && s.row.lastStateAt == Some(1.0)
    requires s.row.lastStateHash == Some(still)
    ensures var s1 := Tick(SHIPPED, s, Probe(460.0, false, Answer(still), None)).task;
            var s2 := Tick(SHIPPED, s1, Probe(600.0, false, Answer(still), None)).task;
            var s3 := Tick(SHIPPED, s2, Probe(630.0, false, NoAnswer, None)).task;
            && s1.row.executionState == WAITING && s2.row.executionState == STALLED
            && s3.row.executionState == UNRESPONSIVE && s3.rt.preUnresponsive == Some(STALLED)
            && s3.row.lastStateHash == Some(still) && s3.row.lastStateAt == Some(600.0)
  {
    var s1 := Tick(SHIPPED, s, Probe(460.0, false, Answer(still), None)).task;
    assert s1.row.executionState == WAITING && s1.rt == FRESH_RUNTIME.(graceStartedAt := Some(460.0));
    assert s1.row.lastProgressAt == Some(1.0) && s1.row.lastStateHash == Some(still);
    var s2 := Tick(SHIPPED, s1, Probe(600.0, false, Answer(still), None)).task;
    assert s2.row.executionState == STALLED && s2.rt == s1.rt && s2.row.lastStateAt == Some(600.0);
  }

  /** The relapse happens, with the shipped thresholds: stalled at 600 s, a missed
      heartbeat at 630 s, and the changed answer at 660 s, which proves the agent alive,
      stalls the task again without an abort or a grace. */
  lemma RelapseHappens(w: Watched, still: Snapshot, moved: Snapshot)
    requires Booted(w) && still != moved
    requires w.s.row.lastProgressAt == Some(1.0) && w.s.row.lastStateAt == Some(1.0)
    requires w.s.row.lastStateHash == Some(still)
    ensures exists acts, p :: var v, v' := Run(SHIPPED, w, acts), DoTick(SHIPPED, Run(SHIPPED, w, acts), p);
              && Enters(STALLED, v.s, v'.s) && v'.s.row.lastProgressAt == Some(p.now)
              && !EarnedStall(SHIPPED, v', p.now)
  {
    QuietThenMissed(w.s, still);
    var a1 := Ticked(Probe(460.0, false, Answer(still), None));
    var a2 := Ticked(Probe(600.0, false, Answer(still), None));
    var a3 := Ticked(Probe(630.0, false, NoAnswer, None));
    ThreeTicks(w, a1.p, a2.p, a3.p);
    RelapseIsUnearned(w, [] + [a1] + [a2] + [a3], Probe(660.0, false, Answer(moved), None));
  }

  lemma ThreeTicks(w: Watched, p1: Probe, p2: Probe, p3: Probe)
    ensures Run(SHIPPED, w, [] + [Ticked(p1)] + [Ticked(p2)] + [Ticked(p3)])
         == DoTick(SHIPPED, DoTick(SHIPPED, DoTick(SHIPPED, w, p1), p2), p3)
  {
    RunSnoc(SHIPPED, w, [], Ticked(p1));
    RunSnoc(SHIPPED, w, [] + [Ticked(p1)], Ticked(p2));
    RunSnoc(SHIPPED, w, [] + [Ticked(p1)] + [Ticked(p2)], Ticked(p3));
  }

  lemma RelapseIsUnearned(w: Watched, acts: seq<Action>, p: Probe)
    requires Booted(w) && Relapses(SHIPPED, Run(SHIPPED, w, acts).s, p)
    ensures var v, v' := Run(SHIPPED, w, acts), DoTick(SHIPPED, Run(SHIPPED, w, acts), p);
            && Enters(STALLED, v.s, v'.s) && v'.s.row.lastProgressAt == Some(p.now)
            && !EarnedStall(SHIPPED, v', p.now)
  {
    RunKeepsInv(SHIPPED, w, acts);
    RelapseEnters(SHIPPED, Run(SHIPPED, w, acts), p);
    StallTick(SHIPPED, Run(SHIPPED, w, acts), p);
  }

  // ---- degraded states ---------------------------------------------------------------

  /** UNRESPONSIVE always remembers an active state, and TOOL_RUNNING, present or
      remembered, is never a stale claim: the latest boundary event was a tool's. */
  lemma UnresponsiveRemembers(th: Thresholds, w: Watched, acts: seq<Action>)
    requires th.Ordered() && Booted(w)
    ensures var v := Run(th, w, acts);
            && (v.s.row.executionState == UNRESPONSIVE ==>
                  && v.s.rt.preUnresponsive.Some?
                  && v.s.rt.preUnresponsive.value in {STARTING, RUNNING, TOOL_RUNNING, WAITING, STALLED})
            && (v.s.row.executionState == TOOL_RUNNING || v.s.rt.preUnresponsive == Some(TOOL_RUNNING) ==> v.toolLive)
  {
    RunKeepsInv(th, w, acts);
  }

  lemma ChangedAnswerHeals(th: Thresholds, s: Supervised, p: Probe)
    requires s.row.executionState == UNRESPONSIVE && s.rt.preUnresponsive.Some?
    requires s.rt.preUnresponsive.value != UNRESPONSIVE
    requires Asks(th, s.row, p.now) && p.heartbeat.Answer? && Changed(s.row, p.heartbeat.snapshot)
    ensures Tick(th, s, p).task.row.executionState != UNRESPONSIVE
    ensures !CapReached(th, s.row, p.now) && !p.exited ==>
              Tick(th, s, p).task.row.executionState == s.rt.preUnresponsive.value
  {
  }

  /** Any event, and any changed answer to a heartbeat, ends UNRESPONSIVE; a tool that
      was running is found running again unless the event says otherwise, or the tick
      ends the task. */
  lemma ProofOfLifeEndsUnresponsive(th: Thresholds, w: Watched, acts: seq<Action>, a: Action)
    requires th.Ordered() && Booted(w)
    requires var v := Run(th, w, acts); v.s.row.executionState == UNRESPONSIVE
    requires a.Received? || (a.Ticked? && Asks(th, Run(th, w, acts).s.row, a.p.now) && a.p.heartbeat.Answer?
                             && Changed(Run(th, w, acts).s.row, a.p.heartbeat.snapshot))
    ensures var v := Run(th, w, acts);
            && Apply(th, v, a).s.row.executionState != UNRESPONSIVE
            && (v.s.rt.preUnresponsive == Some(TOOL_RUNNING)
                && (if a.Received? then ToolLive(true, a.e) else !CapReached(th, v.s.row, a.p.now) && !a.p.exited) ==>
                  Apply(th, v, a).s.row.executionState == TOOL_RUNNING)
  {
    RunKeepsInv(th, w, acts);
    var v := Run(th, w, acts);
    match a
    case Received(e, hasVerifier, now) => EventOutcome(v.s, hasVerifier, e, now);
    case Ticked(p) => ChangedAnswerHeals(th, v.s, p);
    case _ =>
  }

  // ---- settlement and wakes ------------------------------------------------------------

  /** Only the literal `agent_settled` settles a task - not `agent_end`, not a tick, not
      a recovery - and on a task that is not final it always does. */
  lemma SettledExactlyByAgentSettled(th: Thresholds, w: Watched, acts: seq<Action>, a: Action)
    requires th.Ordered() && Booted(w) && !Final(Run(th, w, acts).s.row.executionState)
    ensures Apply(th, Run(th, w, acts), a).s.row.executionState == SETTLED <==> a.Received? && a.e.AgentSettled?
  {
    RunKeepsInv(th, w, acts);
    var v := Run(th, w, acts);
    match a
    case Received(e, hasVerifier, now) => EventOutcome(v.s, hasVerifier, e, now);
    case Ticked(p) => TickNeverSettles(th, v.s, p);
    case _ =>
  }

  lemma TickNeverSettles(th: Thresholds, s: Supervised, p: Probe)
    requires !Final(s.row.executionState)
    requires s.rt.preUnresponsive.Some? ==> !Final(s.rt.preUnresponsive.value)
    ensures Tick(th, s, p).task.row.executionState != SETTLED
  {
    TickEnds(th, s, p);
  }

  lemma QuietJudgementWakes(th: Thresholds, s: Supervised, p: Probe)
    ensures var r := JudgeQuiet(th, s, p);
            if r.notice == Some(Stall) then r.task.row.executionState == STALLED && r.task.row.wakeState.Some?
            else r.notice.None? && SameWakeColumns(s.row, r.task.row)
  {
  }

  lemma JudgementWakes(th: Thresholds, s: Supervised, p: Probe)
    ensures var r := Judge(th, s, p);
            if r.notice == Some(Stall) then r.task.row.executionState == STALLED && r.task.row.wakeState.Some?
            else r.notice.None? && SameWakeColumns(s.row, r.task.row)
  {
    QuietJudgementWakes(th, s, p);
  }

  lemma HealingKeepsWake(s: Supervised, snapshot: Snapshot, now: real)
    ensures SameWakeColumns(s.row, Unanswered(s).row)
    ensures SameWakeColumns(s.row, SnapshotRow(s.row, snapshot, now))
    ensures SameWakeColumns(s.row, Healed(s).row)
  {
  }

  lemma EvaluationWakes(th: Thresholds, s: Supervised, p: Probe)
    ensures var r := Evaluate(th, s, p);
            if r.notice == Some(Stall) then r.task.row.executionState == STALLED && r.task.row.wakeState.Some?
            else r.notice.None? && SameWakeColumns(s.row, r.task.row)
  {
    if !Asks(th, s.row, p.now) {
      JudgementWakes(th, s, p);
    } else if p.heartbeat.NoAnswer? {
      HealingKeepsWake(s, Snapshot(None, None, false, false, None, None), p.now);
    } else {
      var seen := s.(row := SnapshotRow(s.row, p.heartbeat.snapshot, p.now));
      HealingKeepsWake(s, p.heartbeat.snapshot, p.now);
      HealingKeepsWake(seen, p.heartbeat.snapshot, p.now);
      JudgementWakes(th, seen, p);
    }
  }

  /** A tick opens the wake exactly when it finds the process dead or announces a stall
      verdict; otherwise, a capped task included, it leaves the wake columns alone. */
  lemma TicksWakeOnVerdicts(th: Thresholds, s: Supervised, p: Probe)
    requires !Final(s.row.executionState)
    ensures var r := Tick(th, s, p);
            if !CapReached(th, s.row, p.now) && p.exited
            then r.task.row.executionState == CRASHED && r.task.row.wakeState.Some? && r.notice == Some(Failure)
            else if r.notice == Some(Stall) then r.task.row.executionState == STALLED && r.task.row.wakeState.Some?
            else SameWakeColumns(s.row, r.task.row)
  {
    EvaluationWakes(th, s, p);
  }

  /** The abort handler opens no wake, and ends a task that is not final as ABORTED. What
      a settle event that races it does is in the settlement machine. */
  lemma AbortOpensNoWake(th: Thresholds, w: Watched)
    ensures SameWakeColumns(w.s.row, Apply(th, w, AbortRequested).s.row)
    ensures !Final(w.s.row.executionState) ==> Apply(th, w, AbortRequested).s.row.executionState == ABORTED
  {
  }

  // ---- final states --------------------------------------------------------------------

  lemma FinalStep(th: Thresholds, w: Watched, a: Action)
    requires Final(w.s.row.executionState)
    requires a.Recovered? ==> w.s.row.executionState == SETTLED
    ensures Apply(th, w, a).s.row.executionState == w.s.row.executionState
    ensures Apply(th, w, a).s.row.wakeState == w.s.row.wakeState
  {
    if a.Received? { EventOutcome(w.s, a.hasVerifier, a.e, a.now); }
  }

  /** SETTLED is absorbing; CRASHED and ABORTED are left only by a recovery. */
  lemma {:induction false} FinalStatesStay(th: Thresholds, w: Watched, acts: seq<Action>)
    requires Final(w.s.row.executionState)
    requires w.s.row.executionState != SETTLED ==> forall i :: 0 <= i < |acts| ==> !acts[i].Recovered?
    ensures Run(th, w, acts).s.row.executionState == w.s.row.executionState
    decreases |acts|
  {
    if acts == [] {
    } else {
      FinalStep(th, w, acts[0]);
      FinalStatesStay(th, Apply(th, w, acts[0]), acts[1..]);
    }
  }
}
