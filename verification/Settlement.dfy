/**
 From `agent_settled` to the wake: the separate durable writes of settlement,
 semantic check, gate, announcement and wake, a death of the manager between any
 two of them, and the boot-time recovery that has to finish what was left.
 */
module Settlement {
  import opened Wrappers
  import opened Rows
  import opened RegistryDb
  import opened Watchdog
  import opened LspCheck
  import opened Text

  /** How the verifier command ends. */
  datatype GateRun = Exited(code: int) | TimedOut | Blew

  function Verdict(g: GateRun): VerificationState {
    match g
    case Exited(code) => if code == 0 then PASS else if code == 126 || code == 127 then UNRUNNABLE else FAIL
    case TimedOut => UNRUNNABLE
    case Blew => FAIL
  }

  /** The head of the compact verdict; the diagnosis text behind it is not modelled. */
  function VerdictLine(g: GateRun): string {
    match g
    case Exited(code) =>
      if code == 0 then "gate passed (exit 0)"
      else "gate failed (exit " + (if code < 0 then "-" + Dec(-code) else Dec(code)) + ")"
    case _ => "gate error"
  }

  predicate Undecided(v: VerificationState) {
    v == PENDING || v == NOT_RUN
  }

  /** A gate that has spoken, or a task that never had one. */
  predicate Resolved(row: TaskRow) {
    !Undecided(row.verificationState) || (row.verificationState == NOT_RUN && row.verifierSpec == NoSpec)
  }

  function JudgedRow(row: TaskRow, g: GateRun): TaskRow {
    row.(verificationState := Verdict(g), verifierSummary := Some(VerdictLine(g)))
  }

  predicate CleanScan(r: ScanResult) {
    r.errors == 0 && r.warnings == 0
  }

  /** A scan with the text stored for it. The pipeline needs of the wording only what
      the wake message looks at: its opening words. */
  datatype Scan = Scan(result: ScanResult, text: string)

  predicate OpensByCounts(s: Scan) {
    FOUND <= s.text <==> !CleanScan(s.result)
  }

  type StoredScan = s: Scan | OpensByCounts(s) witness Scan(ScanResult(1, 0, 0, 0, [], false), "")

  /** The text that is really stored has them. */
  function Stored(r: ScanResult): (s: StoredScan)
    ensures s.result == r && s.text == Bound(FormatSummary(r), SUMMARY_LIMIT)
  {
    SummaryOpensByCounts(r);
    Scan(r, Bound(FormatSummary(r), SUMMARY_LIMIT))
  }

  function ScannedRow(row: TaskRow, scan: Option<StoredScan>): TaskRow {
    if scan.None? then row else row.(lspSummary := Some(scan.value.text))
  }

  // ---- the boot-time sweep over one row ------------------------------------------

  /** `recover_all` on a settled row: rerun an undecided gate that can be loaded, or
      open a missing wake for a resolved one. */
  function RecoverSettledRow(row: TaskRow, gate: GateRun, now: real): TaskRow {
    if Undecided(row.verificationState) && row.verifierSpec != NoSpec then
      if row.verifierSpec == Loadable then BeginWakeRow(JudgedRow(row, gate), now) else row
    else if Resolved(row) && row.wakeState.None? then BeginWakeRow(row, now)
    else row
  }

  /** The whole sweep, row by row: reattach or reject what was running, finish what
      had settled. */
  function RecoverRow(row: TaskRow, reattach: Reattach, gate: GateRun, now: real): TaskRow {
    if Resumable(row.executionState) then RecoverTask(Supervised(row, FRESH_RUNTIME), reattach, now).row
    else if row.executionState == SETTLED then RecoverSettledRow(row, gate, now)
    else row
  }

  /** Rows the sweep can do nothing for: an undecided gate whose persisted spec does
      not load, or one left undecided (by an ad-hoc verification that died) on a
      task that has no spec of its own. */
  predicate Stranded(row: TaskRow) {
    || (Undecided(row.verificationState) && row.verifierSpec == Unloadable)
    || (row.verificationState == PENDING && row.verifierSpec == NoSpec)
  }

  lemma VerdictDecides(row: TaskRow, g: GateRun)
    ensures !Undecided(JudgedRow(row, g).verificationState)
    ensures JudgedRow(row, g).verifierSpec == row.verifierSpec && JudgedRow(row, g).wakeState == row.wakeState
  {
  }

  lemma SettledRowOutcome(row: TaskRow, gate: GateRun, now: real)
    ensures var row' := RecoverSettledRow(row, gate, now);
            (Resolved(row') && row'.wakeState.Some?) <==> !Stranded(row)
  {
    VerdictDecides(row, gate);
  }

  /** One completed sweep leaves a settled row with a resolved gate and a wake exactly
      when the row was not stranded: when it is not the case that its verdict is missing
      and its spec does not load, or that it is pending without a spec. */
  lemma SweepResolvesExactlyTheUnstranded(row: TaskRow, reattach: Reattach, gate: GateRun, now: real)
    requires row.executionState == SETTLED
    ensures var row' := RecoverRow(row, reattach, gate, now);
            (Resolved(row') && row'.wakeState.Some?) <==> !Stranded(row)
    ensures var v, row' := row.verificationState, RecoverRow(row, reattach, gate, now);
            && (Resolved(row') <==> row'.verificationState in {PASS, FAIL, UNRUNNABLE}
                                    || (row'.verificationState == NOT_RUN && row'.verifierSpec == NoSpec))
            && (Stranded(row) <==> (v in {PENDING, NOT_RUN} && row.verifierSpec == Unloadable)
                                   || (v == PENDING && row.verifierSpec == NoSpec))
  {
    SettledRowOutcome(row, gate, now);
  }

  /** A second sweep finds nothing left to do. */
  lemma SweepIsIdempotent(row: TaskRow, reattach: Reattach, gate: GateRun, gate': GateRun, now: real, now': real)
    requires row.executionState == SETTLED
    ensures var row' := RecoverRow(row, reattach, gate, now);
            RecoverRow(row', reattach, gate', now') == row'
  {
    SweepResolvesExactlyTheUnstranded(row, reattach, gate, now);
    SettledRowStaysSettled(row, gate, now);
  }

  lemma SettledRowStaysSettled(row: TaskRow, gate: GateRun, now: real)
    requires row.executionState == SETTLED
    ensures RecoverSettledRow(row, gate, now).executionState == SETTLED
    ensures Stranded(row) ==> RecoverSettledRow(row, gate, now) == row
  {
  }

  /** Interrupted tasks come back waiting, with a fresh progress clock, or end aborted
      with their wake opened. */
  lemma SweepPlacesInterrupted(row: TaskRow, reattach: Reattach, gate: GateRun, now: real)
    requires row.executionState !in {SETTLED, CRASHED, ABORTED}
    ensures var row' := RecoverRow(row, reattach, gate, now);
            || (reattach.Attach? && row'.executionState == WAITING && row'.lastProgressAt == Some(now)
                && SameWakeColumns(row, row'))
            || (reattach.Reject? && row'.executionState == ABORTED && row'.wakeState.Some?)
  {
  }

  // ---- the manager's threads, write by write ------------------------------------------

  /** A thread of the manager between two of its durable writes. The settle thread
      goes from `Settling` to `Waking`; an ad-hoc verification arms and judges without
      announcing; a watchdog verdict and a rejected recovery have written the state and
      still have to open the wake. */
  datatype Thread =
    | Settling(hasVerifier: bool)     // the state is written, the other columns are not
    | Scanning(hasVerifier: bool)
    | Gating                          // about to look whether the task is settled
    | Arming(announces: bool)         // about to write PENDING
    | Judging(announces: bool)        // the command runs, the verdict is next
    | Announcing
    | Waking
    | Aborting                        // the abort was requested, ABORTED is next
    | Resuming                        // an explicit resume found the task unsettled, its write is next

  /** What a thread's next step finds outside. */
  datatype Found = Found(now: real, scan: Option<StoredScan>, gate: GateRun, reattach: Reattach)

  /** A gate that has run, and how many settle events had been handled by its verdict. */
  datatype GateEntry = Gate(run: GateRun, settledBefore: nat)

  /** The tools wait for the manager's lock until the sweep is over, so nothing runs beside
      its look at the row. */
  datatype Phase = Down | Sweeping | Up

  /** Everything but the row dies with the manager. `agent` is the attached runtime and
      says whether it carries a verifier. History: gates and scans run, settle events
      handled, watchdog verdicts, rejections, wakes opened, and whether the sweep of
      this manager came upon the row settled, unwoken and stranded. */
  datatype Machine = Machine(
    row: TaskRow, phase: Phase, agent: Option<bool>, threads: map<nat, Thread>, next: nat,
    gates: seq<GateEntry>, scans: seq<StoredScan>, settledEvents: nat, verdicts: nat, rejections: nat,
    wakesOpened: nat, overlooked: bool)

  datatype Action =
    | AgentSettles
    | Moves(state: ExecutionState)
    | Stalls
    | Crashes
    | AbortBegins
    | VerifyBegins
    | Resumes
    | Proceed(thread: nat, found: Found)
    | Sweep(now: real, reattach: Reattach)
    | Die
    | Boot

  function Fork(m: Machine, t: Thread): Machine {
    m.(threads := m.threads[m.next := t], next := m.next + 1)
  }

  function WithState(m: Machine, e: ExecutionState): Machine {
    m.(row := m.row.(executionState := e))
  }

  /** The event that settles, at whatever state it finds: the guarded transition, and a
      thread for the rest. */
  function Settle(m: Machine): Machine {
    if m.agent.None? then m
    else Fork(m.(row := TransitionRow(m.row, SETTLED), settledEvents := m.settledEvents + 1), Settling(m.agent.value))
  }

  /** A watchdog verdict on a live task: the state, and the wake as a write of its own. */
  function Judged(m: Machine, e: ExecutionState): Machine {
    if m.agent.None? || Final(m.row.executionState) then m
    else Fork(WithState(m, e).(verdicts := m.verdicts + 1), Waking)
  }

  /** Where a thread goes after its next write; nowhere if it was the last. */
  function NextOf(t: Thread, row: TaskRow, f: Found): Option<Thread> {
    match t
    case Settling(hasVerifier) => Some(Scanning(hasVerifier))
    case Scanning(hasVerifier) => Some(if hasVerifier then Gating else Announcing)
    case Gating => Some(if row.executionState == SETTLED then Arming(true) else Announcing)
    case Arming(announces) => Some(Judging(announces))
    case Judging(announces) => if announces then Some(Announcing) else None
    case Announcing => Some(Waking)
    case Waking => None
    case Aborting => None
    case Resuming => if f.reattach.Reject? then Some(Waking) else None
  }

  /** What a thread's next step writes to the row. */
  function Written(t: Thread, row: TaskRow, f: Found): TaskRow {
    match t
    case Settling(hasVerifier) =>
      row.(settledAt := Some(f.now), verificationState := if hasVerifier then PENDING else NOT_RUN)
    case Scanning(_) => ScannedRow(row, f.scan)
    case Gating => row
    case Arming(_) => row.(verificationState := PENDING)
    case Judging(_) => JudgedRow(row, f.gate)
    case Announcing => row
    case Waking => BeginWakeRow(row, f.now)
    case Aborting => row.(executionState := ABORTED)
    case Resuming =>
      match f.reattach
      case Reject => row.(executionState := ABORTED)
      case Attach(snapshot) => AttachedRow(row, snapshot, f.now)
  }

  function Threads(m: Machine, k: nat, t: Option<Thread>): map<nat, Thread> {
    if t.Some? then m.threads[k := t.value] else m.threads - {k}
  }

  function Advance(m: Machine, k: nat, f: Found): Machine
    requires k in m.threads
  {
    var t := m.threads[k];
    m.(row := Written(t, m.row, f),
       agent := if t.Resuming? && f.reattach.Attach? then Some(m.row.verifierSpec == Loadable) else m.agent,
       threads := Threads(m, k, NextOf(t, m.row, f)),
       gates := if t.Judging? then m.gates + [Gate(f.gate, m.settledEvents)] else m.gates,
       scans := if t.Scanning? && f.scan.Some? then m.scans + [f.scan.value] else m.scans,
       rejections := if t.Resuming? && f.reattach.Reject? then m.rejections + 1 else m.rejections,
       wakesOpened := if t.Waking? && m.row.wakeState.None? then m.wakesOpened + 1 else m.wakesOpened)
  }

  /** The sweep's look at the row decides how it goes on. */
  function Look(m: Machine, now: real, reattach: Reattach): Machine {
    if Resumable(m.row.executionState) then
      match reattach
      case Attach(_) =>
        m.(row := RecoverTask(Supervised(m.row, FRESH_RUNTIME), reattach, now).row,
           agent := Some(m.row.verifierSpec == Loadable))
      case Reject => Fork(WithState(m, ABORTED).(rejections := m.rejections + 1), Waking)
    else if m.row.executionState != SETTLED then m
    else if Undecided(m.row.verificationState) && m.row.verifierSpec != NoSpec then
      if m.row.verifierSpec == Loadable then Fork(m, Arming(true)) else PassOver(m)
    else if Resolved(m.row) && m.row.wakeState.None? then Fork(m, Waking)
    else PassOver(m)
  }

  function PassOver(m: Machine): Machine {
    m.(overlooked := Stranded(m.row) && m.row.wakeState.None?)
  }

  /** An explicit resume: a settled task has an undecided gate that loads rerun, any other
      one is to be reattached or rejected, crashed and aborted ones included. */
  function Resume(m: Machine): Machine {
    if m.row.executionState != SETTLED then Fork(m, Resuming)
    else if Undecided(m.row.verificationState) && m.row.verifierSpec == Loadable then Fork(m, Arming(true))
    else m
  }

  function Apply(m: Machine, a: Action): Machine {
    match a
    case AgentSettles => Settle(m)
    case Moves(e) => if m.agent.None? || Final(m.row.executionState) || Final(e) then m else WithState(m, e)
    case Stalls => Judged(m, STALLED)
    case Crashes => Judged(m, CRASHED)
    case AbortBegins =>
      if !m.phase.Up? || Final(m.row.executionState) then m
      else Fork(m.(row := m.row.(abortRequested := true)), Aborting)
    case VerifyBegins => if !m.phase.Up? || m.row.executionState != SETTLED then m else Fork(m, Arming(false))
    case Resumes => if !m.phase.Up? then m else Resume(m)
    case Proceed(k, f) => if k !in m.threads then m else Advance(m, k, f)
    case Sweep(now, reattach) => if !m.phase.Sweeping? then m else Look(m.(phase := Up), now, reattach)
    case Die => m.(phase := Down, agent := None, threads := map[], overlooked := false)
    case Boot => if m.phase.Down? then m.(phase := Sweeping) else m
  }

  /** The actions that start a thread, or change nothing. */
  predicate Forks(a: Action) {
    a.AgentSettles? || a.Stalls? || a.Crashes? || a.AbortBegins? || a.VerifyBegins? || a.Resumes?
  }

  function Run(m: Machine, acts: seq<Action>): Machine
    decreases |acts|
  {
    if acts == [] then m else Run(Apply(m, acts[0]), acts[1..])
  }

  /** A task as `start_task` and the boot leave it. */
  ghost predicate Started(m: Machine) {
    && m.row.executionState == RUNNING && m.row.verificationState == NOT_RUN
    && m.row.wakeState.None? && m.row.lspSummary.None?
    && m.phase.Up? && m.agent == Some(m.row.verifierSpec != NoSpec) && m.threads == map[]
    && m.gates == [] && m.scans == [] && m.settledEvents == 0 && m.verdicts == 0 && m.rejections == 0
    && m.wakesOpened == 0 && !m.overlooked
  }

  /** The manager is up, its sweep is over and no thread has anything left to write. */
  ghost predicate Quiescent(m: Machine) {
    m.phase.Up? && m.threads == map[]
  }

  // ---- what every run keeps -------------------------------------------------------------

  /** Threads that will still write a verdict, given that the task is settled. */
  predicate WillJudge(t: Thread) {
    match t
    case Settling(hasVerifier) => hasVerifier
    case Scanning(hasVerifier) => hasVerifier
    case Gating => true
    case Arming(_) => true
    case Judging(_) => true
    case _ => false
  }

  /** Threads that will still ask for the wake. */
  predicate WillWake(t: Thread) {
    match t
    case Arming(announces) => announces
    case Judging(announces) => announces
    case Aborting => false
    case Resuming => false
    case _ => true
  }

  predicate IsVerification(t: Thread) {
    t == Arming(false) || t == Judging(false)
  }

  ghost predicate Judges(m: Machine) {
    exists k :: k in m.threads && WillJudge(m.threads[k])
  }

  ghost predicate Wakes(m: Machine) {
    exists k :: k in m.threads && WillWake(m.threads[k])
  }

  ghost predicate HistoryInv(m: Machine) {
    && m.wakesOpened == (if m.row.wakeState.Some? then 1 else 0)
    && (!Undecided(m.row.verificationState) ==>
          m.gates != [] && m.row.verificationState == Verdict(m.gates[|m.gates| - 1].run))
  }

  predicate WorksOnSettled(t: Thread) {
    !t.Aborting? && !t.Waking? && !t.Resuming?
  }

  /** Nothing works on a settlement, and no gate runs, before a settle event. */
  ghost predicate OrderInv(m: Machine) {
    && (m.row.executionState == SETTLED ==> 1 <= m.settledEvents)
    && (forall k :: k in m.threads && WorksOnSettled(m.threads[k]) ==> 1 <= m.settledEvents)
    && (forall i :: 0 <= i < |m.gates| ==> 1 <= m.gates[i].settledBefore)
  }

  /** The stored summary is that of the last scan that reached a verdict. */
  ghost predicate ScanInv(m: Machine) {
    if m.scans == [] then m.row.lspSummary.None?
    else m.row.lspSummary == Some(m.scans[|m.scans| - 1].text)
  }

  /** A runtime has the verifier whose spec loads, and none where there is no spec. */
  predicate Fits(hasVerifier: bool, spec: VerifierSpec) {
    (spec == Loadable ==> hasVerifier) && (spec == NoSpec ==> !hasVerifier)
  }

  predicate ThreadFits(t: Thread, row: TaskRow) {
    (t.Settling? || t.Scanning?) ==> Fits(t.hasVerifier, row.verifierSpec)
  }

  /** Where the manager is, and what may be under way there. */
  ghost predicate PhaseInv(m: Machine) {
    && (forall k :: k in m.threads ==> k < m.next && ThreadFits(m.threads[k], m.row))
    && (m.agent.Some? ==> m.phase.Up? && Fits(m.agent.value, m.row.verifierSpec))
    && (!m.phase.Up? ==> m.threads == map[])
    && (m.overlooked ==>
          && m.phase.Up? && m.agent.None? && m.row.executionState == SETTLED && m.row.wakeState.None?
          && m.row.verifierSpec != Loadable
          && forall k :: k in m.threads ==> IsVerification(m.threads[k]))
  }

  /** A settled task that lacks its verdict or its wake has a thread that will see to it. */
  ghost predicate DutyInv(m: Machine) {
    m.phase.Up? && m.row.executionState == SETTLED ==>
      && (Undecided(m.row.verificationState) && m.row.verifierSpec == Loadable ==> Judges(m))
      && (m.row.wakeState.None? && !m.overlooked ==> Wakes(m))
  }

  /** What a write touches of the columns the invariants are about. */
  lemma WriteTouches(t: Thread, row: TaskRow, f: Found)
    ensures var row' := Written(t, row, f);
            && row'.verifierSpec == row.verifierSpec
            && row'.executionState == (match t
                 case Aborting => ABORTED
                 case Resuming => if f.reattach.Reject? then ABORTED else WAITING
                 case _ => row.executionState)
            && row'.verificationState == (match t
                 case Settling(hasVerifier) => if hasVerifier then PENDING else NOT_RUN
                 case Arming(_) => PENDING
                 case Judging(_) => Verdict(f.gate)
                 case _ => row.verificationState)
            && (row'.wakeState.Some? <==> row.wakeState.Some? || t.Waking?)
            && row'.lspSummary == if t.Scanning? && f.scan.Some? then Some(f.scan.value.text) else row.lspSummary
  {
  }

  lemma AdvanceKeepsHistory(m: Machine, k: nat, f: Found)
    requires k in m.threads && HistoryInv(m)
    ensures HistoryInv(Advance(m, k, f))
  {
    WriteTouches(m.threads[k], m.row, f);
  }

  lemma LookKeepsHistory(m: Machine, now: real, reattach: Reattach)
    requires HistoryInv(m)
    ensures HistoryInv(Look(m, now, reattach))
  {
  }

  lemma StepKeepsHistory(m: Machine, a: Action)
    requires HistoryInv(m)
    ensures HistoryInv(Apply(m, a))
  {
    match a
    case Proceed(k, f) => if k in m.threads { AdvanceKeepsHistory(m, k, f); }
    case Sweep(now, reattach) => LookKeepsHistory(m.(phase := Up), now, reattach);
    case _ =>
  }

  lemma AdvanceKeepsScans(m: Machine, k: nat, f: Found)
    requires k in m.threads && ScanInv(m)
    ensures ScanInv(Advance(m, k, f))
  {
    WriteTouches(m.threads[k], m.row, f);
    if m.threads[k].Scanning? && f.scan.Some? {
      assert Advance(m, k, f).scans[|m.scans|] == f.scan.value;
    }
  }

  lemma LookKeepsScans(m: Machine, now: real, reattach: Reattach)
    ensures Look(m, now, reattach).scans == m.scans
    ensures Look(m, now, reattach).row.lspSummary == m.row.lspSummary
  {
  }

  lemma StepKeepsScans(m: Machine, a: Action)
    requires ScanInv(m)
    ensures ScanInv(Apply(m, a))
  {
    match a
    case Proceed(k, f) => if k in m.threads { AdvanceKeepsScans(m, k, f); }
    case Sweep(now, reattach) => LookKeepsScans(m.(phase := Up), now, reattach);
    case _ =>
  }

  lemma AdvanceKeepsPhase(m: Machine, k: nat, f: Found)
    requires k in m.threads && PhaseInv(m)
    ensures PhaseInv(Advance(m, k, f))
  {
    WriteTouches(m.threads[k], m.row, f);
  }

  lemma LookKeepsPhase(m: Machine, now: real, reattach: Reattach)
    requires PhaseInv(m) && m.phase.Sweeping?
    ensures PhaseInv(Look(m.(phase := Up), now, reattach))
  {
  }

  lemma ForkKeepsPhase(m: Machine, m': Machine, t: Thread)
    requires PhaseInv(m) && m.phase.Up? && ThreadFits(t, m'.row)
    requires m'.threads == m.threads[m.next := t] && m'.next == m.next + 1
    requires m'.phase == m.phase && m'.agent == m.agent && m'.overlooked == m.overlooked
    requires m'.row.verifierSpec == m.row.verifierSpec && m'.row.wakeState == m.row.wakeState
    requires m.overlooked ==> IsVerification(t) && m'.row.executionState == SETTLED
    ensures PhaseInv(m')
  {
  }

  lemma ForkActionKeepsPhase(m: Machine, a: Action)
    requires PhaseInv(m) && Forks(a)
    ensures PhaseInv(Apply(m, a)) && Apply(m, a).row.verifierSpec == m.row.verifierSpec
  {
    var m' := Apply(m, a);
    if m' != m {
      ForkKeepsPhase(m, m', m'.threads[m.next]);
    }
  }

  lemma StepKeepsPhase(m: Machine, a: Action)
    requires PhaseInv(m)
    ensures PhaseInv(Apply(m, a)) && Apply(m, a).row.verifierSpec == m.row.verifierSpec
  {
    if Forks(a) {
      ForkActionKeepsPhase(m, a);
    } else {
      match a
      case Proceed(k, f) => if k in m.threads { AdvanceKeepsPhase(m, k, f); }
      case Sweep(now, reattach) => if m.phase.Sweeping? { LookKeepsPhase(m, now, reattach); }
      case _ =>
    }
  }

  lemma AdvanceKeepsDuty(m: Machine, k: nat, f: Found)
    requires k in m.threads && PhaseInv(m) && DutyInv(m)
    ensures DutyInv(Advance(m, k, f))
  {
    WriteTouches(m.threads[k], m.row, f);
    var m' := Advance(m, k, f);
    if m.phase.Up? && m'.row.executionState == SETTLED {
      if Undecided(m'.row.verificationState) && m.row.verifierSpec == Loadable {
        if WillJudge(m.threads[k]) {
          assert k in m'.threads && WillJudge(m'.threads[k]);
        } else {
          var w :| w in m.threads && WillJudge(m.threads[w]);
          assert w in m'.threads && m'.threads[w] == m.threads[w];
        }
      }
      if m'.row.wakeState.None? && !m.overlooked {
        if WillWake(m.threads[k]) {
          assert k in m'.threads && WillWake(m'.threads[k]);
        } else {
          var w :| w in m.threads && WillWake(m.threads[w]);
          assert w in m'.threads && m'.threads[w] == m.threads[w];
        }
      }
    }
  }

  lemma ForkKeepsDuty(m: Machine, m': Machine, t: Thread)
    requires DutyInv(m) && (forall k :: k in m.threads ==> k < m.next)
    requires m'.threads == m.threads[m.next := t] && m'.phase == m.phase && m'.overlooked == m.overlooked
    requires m'.row.executionState == SETTLED && m'.row.executionState != m.row.executionState ==>
               WillWake(t) && (m'.row.verifierSpec == Loadable ==> WillJudge(t))
    requires m'.row.verificationState == m.row.verificationState && m'.row.verifierSpec == m.row.verifierSpec
    requires m'.row.wakeState == m.row.wakeState
    ensures DutyInv(m')
  {
    assert m.next in m'.threads && m'.threads[m.next] == t;
    if Judges(m) {
      var w :| w in m.threads && WillJudge(m.threads[w]);
      assert w in m'.threads && WillJudge(m'.threads[w]);
    }
    if Wakes(m) {
      var w :| w in m.threads && WillWake(m.threads[w]);
      assert w in m'.threads && WillWake(m'.threads[w]);
    }
  }

  lemma LookKeepsDuty(m: Machine, now: real, reattach: Reattach)
    requires PhaseInv(m) && m.phase.Sweeping?
    ensures DutyInv(Look(m.(phase := Up), now, reattach))
  {
    var m' := Look(m.(phase := Up), now, reattach);
    if m'.next != m.next { assert m.next in m'.threads; }
  }

  lemma StepKeepsDuty(m: Machine, a: Action)
    requires PhaseInv(m) && DutyInv(m)
    ensures DutyInv(Apply(m, a))
  {
    match a
    case Proceed(k, f) => if k in m.threads { AdvanceKeepsDuty(m, k, f); }
    case Sweep(now, reattach) => if m.phase.Sweeping? { LookKeepsDuty(m, now, reattach); }
    case AgentSettles => if m.agent.Some? { ForkKeepsDuty(m, Settle(m), Settling(m.agent.value)); }
    case VerifyBegins => if Apply(m, a) != m { ForkKeepsDuty(m, Apply(m, a), Arming(false)); }
    case Resumes => if Apply(m, a) != m { ForkKeepsDuty(m, Apply(m, a), Apply(m, a).threads[m.next]); }
    case AbortBegins => if Apply(m, a) != m { ForkKeepsDuty(m, Apply(m, a), Aborting); }
    case _ =>
  }

  lemma AdvanceKeepsOrder(m: Machine, k: nat, f: Found)
    requires k in m.threads && OrderInv(m)
    ensures OrderInv(Advance(m, k, f))
  {
    WriteTouches(m.threads[k], m.row, f);
  }

  lemma LookKeepsOrder(m: Machine, now: real, reattach: Reattach)
    requires OrderInv(m)
    ensures OrderInv(Look(m, now, reattach))
  {
  }

  lemma StepKeepsOrder(m: Machine, a: Action)
    requires OrderInv(m)
    ensures OrderInv(Apply(m, a))
  {
    match a
    case Proceed(k, f) => if k in m.threads { AdvanceKeepsOrder(m, k, f); }
    case Sweep(now, reattach) => LookKeepsOrder(m.(phase := Up), now, reattach);
    case _ =>
  }

  lemma {:induction false} RunKeepsOrder(m: Machine, acts: seq<Action>)
    requires OrderInv(m)
    ensures OrderInv(Run(m, acts))
    decreases |acts|
  {
    if acts == [] {
    } else {
      StepKeepsOrder(m, acts[0]);
      RunKeepsOrder(Apply(m, acts[0]), acts[1..]);
    }
  }

  lemma {:induction false} RunKeepsHistory(m: Machine, acts: seq<Action>)
    requires HistoryInv(m) && ScanInv(m)
    ensures HistoryInv(Run(m, acts)) && ScanInv(Run(m, acts))
    decreases |acts|
  {
    if acts == [] {
    } else {
      StepKeepsHistory(m, acts[0]);
      StepKeepsScans(m, acts[0]);
      RunKeepsHistory(Apply(m, acts[0]), acts[1..]);
    }
  }

  lemma {:induction false} RunKeepsDuty(m: Machine, acts: seq<Action>)
    requires PhaseInv(m) && DutyInv(m)
    ensures PhaseInv(Run(m, acts)) && DutyInv(Run(m, acts))
    ensures Run(m, acts).row.verifierSpec == m.row.verifierSpec
    decreases |acts|
  {
    if acts == [] {
    } else {
      StepKeepsPhase(m, acts[0]);
      StepKeepsDuty(m, acts[0]);
      RunKeepsDuty(Apply(m, acts[0]), acts[1..]);
    }
  }

  /** Whatever runs beside the settle thread - stall verdicts before it, aborts, further
      settle events, ad-hoc verifications - and wherever the manager dies and boots
      again: the wake is opened exactly once if at all. When nothing is left to run, a
      settled task has its verdict unless it is stranded, and its wake unless the
      sweep came upon it unwoken and stranded. */
  lemma CrashesLoseNothing(m: Machine, acts: seq<Action>)
    requires Started(m)
    ensures var n := Run(m, acts);
            && n.wakesOpened == (if n.row.wakeState.Some? then 1 else 0)
            && (Quiescent(n) && n.row.executionState == SETTLED ==>
                  && (Resolved(n.row) <==> !Stranded(n.row))
                  && (n.row.wakeState.Some? <==> !n.overlooked))
  {
    RunKeepsHistory(m, acts);
    RunKeepsDuty(m, acts);
  }

  // ---- what the wake message claims --------------------------------------------------

  /** The parts of the wake message that are decided rather than worded. */
  datatype SemanticLine = Check(text: string) | NotAvailable | Silence
  datatype WakeMessage = WakeMessage(gate: Option<string>, semantic: SemanticLine, completeOutcome: bool)

  function NonEmpty(t: Option<string>): Option<string> {
    if t.Some? && t.value != "" then t else None
  }

  function FormatTerminalWake(row: TaskRow): WakeMessage {
    var gate, lsp := NonEmpty(row.verifierSummary), NonEmpty(row.lspSummary);
    WakeMessage(
      gate,
      if lsp.Some? then Check(lsp.value)
      else if row.verificationState != NOT_RUN || gate.Some? then NotAvailable else Silence,
      && row.executionState == SETTLED && row.verificationState == PASS
      && !(FOUND <= if row.lspSummary.Some? then row.lspSummary.value else ""))
  }

  /** "This is the complete outcome" is said exactly of a settled task whose gate
      passed and whose last scan, if any reached a verdict, counted no error and no
      warning; and then the last gate did exit 0, after the agent had settled. */
  lemma CompleteOutcomeIsEarned(m: Machine, acts: seq<Action>)
    requires Started(m)
    ensures var n := Run(m, acts);
            && (FormatTerminalWake(n.row).completeOutcome <==>
                  && n.row.executionState == SETTLED && n.row.verificationState == PASS
                  && (n.scans != [] ==> CleanScan(n.scans[|n.scans| - 1].result)))
            && (FormatTerminalWake(n.row).completeOutcome ==>
                  n.gates != [] && n.gates[|n.gates| - 1].run == Exited(0) && 1 <= n.gates[|n.gates| - 1].settledBefore)
  {
    RunKeepsHistory(m, acts);
    RunKeepsOrder(m, acts);
    var n := Run(m, acts);
    assert n.scans != [] ==> OpensByCounts(n.scans[|n.scans| - 1]);
  }
}
