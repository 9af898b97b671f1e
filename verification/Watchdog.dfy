/**
 One supervised task: what a watchdog tick, an RPC event, an abort and a recovery
 do to its row and to its in-process runtime. Each handler is one atomic step
 with one clock reading.
 */
module Watchdog {
  import opened Wrappers
  import opened Rows
  import opened RegistryDb

  datatype Thresholds = Thresholds(
    heartbeat: real, waiting: real, softStall: real, toolStall: real, stallGrace: real,
    toolWindow: real, emergencyCap: Option<real>)
  {
    predicate Ordered() {
      0.0 <= waiting <= softStall <= toolStall
    }
  }

  datatype CpuSample = CpuSample(total: real, at: real)

  datatype Runtime = Runtime(
    graceStartedAt: Option<real>, preUnresponsive: Option<ExecutionState>, cpu: Option<CpuSample>)

  const FRESH_RUNTIME := Runtime(None, None, None)

  datatype Supervised = Supervised(row: TaskRow, rt: Runtime)

  datatype Heartbeat = NoAnswer | Answer(snapshot: Snapshot)

  /** What a tick finds outside: the clock, whether the process has exited, the
      answer to `get_state` (asked at most once), and the process tree's CPU time. */
  datatype Probe = Probe(now: real, exited: bool, heartbeat: Heartbeat, cpuTotal: Option<real>)

  datatype TickResult = TickResult(task: Supervised, stallAbort: bool, notice: Option<Kind>)

  function Unremarkable(s: Supervised): TickResult {
    TickResult(s, false, None)
  }

  function WithState(s: Supervised, e: ExecutionState): Supervised {
    s.(row := s.row.(executionState := e))
  }

  // ---- heartbeat ---------------------------------------------------------------

  predicate Changed(row: TaskRow, snapshot: Snapshot) {
    row.lastStateHash != Some(snapshot)
  }

  /** Only a changed snapshot counts as progress. */
  function SnapshotRow(row: TaskRow, snapshot: Snapshot, now: real): TaskRow {
    var seen := row.(lastStateAt := Some(now), lastStateHash := Some(snapshot), messageCount := snapshot.messageCount,
                     isStreaming := snapshot.isStreaming, isCompacting := snapshot.isCompacting);
    if Changed(row, snapshot) then seen.(lastProgressAt := Some(now)) else seen
  }

  function Unanswered(s: Supervised): Supervised {
    WithState(s, UNRESPONSIVE).(
      rt := if s.rt.preUnresponsive.None? then s.rt.(preUnresponsive := Some(s.row.executionState)) else s.rt)
  }

  /** After a changed snapshot has been stored: the grace is over and degraded
      states heal, an unresponsive task to whatever state preceded it. */
  function Healed(s: Supervised): Supervised {
    var t := s.(rt := s.rt.(graceStartedAt := None));
    if s.row.executionState in {WAITING, STALLED} then WithState(t, RUNNING)
    else if s.row.executionState == UNRESPONSIVE then
      WithState(t, if s.rt.preUnresponsive.Some? then s.rt.preUnresponsive.value else RUNNING).(
        rt := t.rt.(preUnresponsive := None))
    else t
  }

  // ---- one tick ------------------------------------------------------------------

  predicate CapReached(th: Thresholds, row: TaskRow, now: real) {
    th.emergencyCap.Some? && now - OrElse(row.startedAt, now) >= th.emergencyCap.value
  }

  predicate HeartbeatDue(th: Thresholds, row: TaskRow, now: real) {
    now - OrElse(row.lastStateAt, now) >= th.heartbeat
  }

  function Idle(row: TaskRow, now: real): real {
    now - OrElse(row.lastProgressAt, now)
  }

  function QuietThreshold(th: Thresholds, e: ExecutionState): real {
    if e == TOOL_RUNNING then th.toolStall else th.softStall
  }

  /** The heartbeat of a tick takes place: it is due, or the task is quiet too long. */
  predicate Asks(th: Thresholds, row: TaskRow, now: real) {
    || HeartbeatDue(th, row, now)
    || (Idle(row, now) >= th.waiting && Idle(row, now) >= QuietThreshold(th, row.executionState))
  }

  predicate CpuProven(th: Thresholds, rt: Runtime, p: Probe) {
    && p.cpuTotal.Some? && rt.cpu.Some?
    && p.cpuTotal.value - rt.cpu.value.total > 0.5
    && p.now - rt.cpu.value.at <= th.toolWindow * 3.0
  }

  function Sampled(rt: Runtime, p: Probe): Runtime {
    if p.cpuTotal.Some? then rt.(cpu := Some(CpuSample(p.cpuTotal.value, p.now))) else rt
  }

  /** A quiet task that answered unchanged: renew it on proof of work, else open a
      grace with one RPC abort, and call it stalled when the grace has passed. */
  function JudgeQuiet(th: Thresholds, s: Supervised, p: Probe): TickResult {
    var current := s.row.executionState;
    if current == TOOL_RUNNING && CpuProven(th, s.rt, p) then
      Unremarkable(Supervised(s.row.(lastProgressAt := Some(p.now)), Sampled(s.rt, p).(graceStartedAt := None)))
    else
      var rt := if current == TOOL_RUNNING then Sampled(s.rt, p) else s.rt;
      var starting := rt.graceStartedAt.None?;
      var started := if starting then p.now else rt.graceStartedAt.value;
      var t := Supervised(s.row, rt.(graceStartedAt := Some(started)));
      if p.now - started >= th.stallGrace then
        TickResult(WithState(t, STALLED).(row := BeginWakeRow(WithState(t, STALLED).row, p.now)), starting, Some(Stall))
      else TickResult(if current == STALLED then t else WithState(t, WAITING), starting, None)
  }

  function Judge(th: Thresholds, s: Supervised, p: Probe): TickResult {
    var current := s.row.executionState;
    if Idle(s.row, p.now) < th.waiting then Unremarkable(s)
    else if Idle(s.row, p.now) < QuietThreshold(th, current) then
      Unremarkable(if current in {RUNNING, WAITING} then WithState(s, WAITING) else s)
    else JudgeQuiet(th, s, p)
  }

  /** The evaluation of a live process. */
  function Evaluate(th: Thresholds, s: Supervised, p: Probe): TickResult {
    if !Asks(th, s.row, p.now) then Judge(th, s, p)
    else match p.heartbeat
      case NoAnswer => Unremarkable(Unanswered(s))
      case Answer(snapshot) =>
        var seen := s.(row := SnapshotRow(s.row, snapshot, p.now));
        if Changed(s.row, snapshot) then Unremarkable(Healed(seen)) else Judge(th, seen, p)
  }

  function Tick(th: Thresholds, s: Supervised, p: Probe): TickResult {
    if Final(s.row.executionState) then Unremarkable(s)
    else if CapReached(th, s.row, p.now) then TickResult(AbortTask(s), false, Some(Failure))
    else if p.exited then
      TickResult(s.(row := BeginWakeRow(s.row.(executionState := CRASHED), p.now)), false, Some(Failure))
    else Evaluate(th, s, p)
  }

  /** The kill switch on a task that is not final: never a wake, never a success. */
  function AbortTask(s: Supervised): Supervised {
    if Final(s.row.executionState) then s
    else s.(row := s.row.(executionState := ABORTED, abortRequested := true))
  }

  // ---- events ----------------------------------------------------------------------

  datatype Event =
    | AgentStart | AgentEnd | AgentSettled
    | ToolStart(tool: Option<string>) | ToolUpdate | ToolEnd
    | EntryAppended | MessageStart | MessageUpdate | CompactionStart | CompactionEnd
    | OtherEvent(name: string)

  function TypeName(e: Event): string {
    match e
    case AgentStart => "agent_start"
    case AgentEnd => "agent_end"
    case AgentSettled => "agent_settled"
    case ToolStart(_) => "tool_execution_start"
    case ToolUpdate => "tool_execution_update"
    case ToolEnd => "tool_execution_end"
    case EntryAppended => "entry_appended"
    case MessageStart => "message_start"
    case MessageUpdate => "message_update"
    case CompactionStart => "compaction_start"
    case CompactionEnd => "compaction_end"
    case OtherEvent(name) => name
  }

  /** The state the event is taken to arrive in: an event proves an unresponsive
      task alive, so it counts as arriving in the state that preceded that. */
  function ArrivalState(before: ExecutionState, rt: Runtime): ExecutionState {
    if before == UNRESPONSIVE then
      if rt.preUnresponsive.Some? then rt.preUnresponsive.value else RUNNING
    else before
  }

  function EventState(arrival: ExecutionState, e: Event): ExecutionState {
    match e
    case AgentStart => RUNNING
    case ToolStart(_) => TOOL_RUNNING
    case ToolUpdate => TOOL_RUNNING
    case ToolEnd => RUNNING
    case AgentSettled => SETTLED
    case _ => if arrival in {STALLED, WAITING, UNRESPONSIVE} then RUNNING else arrival
  }

  const MAX_MESSAGE_COUNT := 1_000_000

  function CountedMessages(count: Option<int>): int {
    Min((if count.Some? then count.value else 0) + 1, MAX_MESSAGE_COUNT)
  }

  /** A task that was final when the event arrived is not made to look live again. */
  function StreamingAfter(streaming: bool, before: ExecutionState, e: Event): bool {
    if e.AgentEnd? || e.AgentSettled? then false
    else if e.MessageStart? || e.AgentStart? || e.MessageUpdate? || e.ToolStart? || e.ToolUpdate? then
      !Final(before) || streaming
    else streaming
  }

  /** The columns an event writes unconditionally, over final rows too. */
  function EventColumns(row: TaskRow, before: ExecutionState, hasVerifier: bool, e: Event, now: real): TaskRow {
    row.(lastProgressAt := Some(now),
         lastEventType := Some(TypeName(e)),
         activeTool := if e.ToolStart? then e.tool else if e.ToolEnd? then None else row.activeTool,
         messageCount := if e.MessageStart? then Some(CountedMessages(row.messageCount)) else row.messageCount,
         isStreaming := StreamingAfter(row.isStreaming, before, e),
         isCompacting := if e.CompactionStart? then true
                         else if e.CompactionEnd? || e.AgentSettled? then false else row.isCompacting,
         settledAt := if e.AgentSettled? then Some(now) else row.settledAt,
         verificationState := if !e.AgentSettled? then row.verificationState
                              else if hasVerifier then PENDING else NOT_RUN)
  }

  /** An event is a compare-and-set of the state followed by a plain update. */
  function EventRow(row: TaskRow, rt: Runtime, hasVerifier: bool, e: Event, now: real): TaskRow {
    var target := EventState(ArrivalState(row.executionState, rt), e);
    EventColumns(TransitionRow(row, target), row.executionState, hasVerifier, e, now)
  }

  function OnEvent(s: Supervised, hasVerifier: bool, e: Event, now: real): Supervised {
    Supervised(EventRow(s.row, s.rt, hasVerifier, e, now), s.rt.(graceStartedAt := None, preUnresponsive := None))
  }

  // ---- recovery of a task that is not settled ------------------------------------------

  /** How an attempt to reattach ends: rejected, or attached with a probed snapshot. */
  datatype Reattach = Reject | Attach(snapshot: Snapshot)

  /** A reattached task waits, with a fresh progress clock. */
  function AttachedRow(row: TaskRow, snapshot: Snapshot, now: real): TaskRow {
    SnapshotRow(row, snapshot, now).(executionState := WAITING, lastProgressAt := Some(now))
  }

  function RecoverTask(s: Supervised, outcome: Reattach, now: real): Supervised {
    if s.row.executionState == SETTLED then s
    else match outcome
      case Reject => s.(row := BeginWakeRow(s.row.(executionState := ABORTED), now))
      case Attach(snapshot) =>
        Supervised(AttachedRow(s.row, snapshot, now), FRESH_RUNTIME)
  }
}
