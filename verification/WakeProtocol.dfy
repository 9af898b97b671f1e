/**
 The terminal wake protocol: any number of wake workers, each with its own
 registry handle, interleaved step by step with each other, with process deaths
 and with plugin teardown. An action that is not possible in a state leaves the
 state alone, so a run is any finite sequence of actions.
 */
module WakeProtocol {
  import opened Wrappers
  import opened Rows
  import opened RegistryDb

  /** `maxAttempts` is an arbitrary int, as the constructor accepts; an empty
      backoff tuple is replaced by the default one, so the schedule is never empty. */
  datatype Policy = Policy(maxAttempts: int, backoff: seq<real>) {
    ghost predicate Valid() { |backoff| > 0 }

    /** Claims a task can get: at least one, because the budget is only
        consulted after a dispatch has failed. */
    function Budget(): nat { Max(1, maxAttempts) }
  }

  /** What a dispatch knows: after the claim only the listed row (with its stale
      attempt count), then the fresh count, then also the gateway's answer. */
  datatype Phase =
    | Claimed(listedAttempts: nat)
    | Ready(attempts: nat)
    | Injected(attempts: nat, accepted: bool)

  datatype Flight = Flight(task: string, phase: Phase)

  /** `injections` and `accepts` are what the gateway saw, per task. */
  datatype System = System(
    tasks: Tasks,
    flights: map<nat, Flight>,
    closed: set<nat>,
    injections: multiset<string>,
    accepts: multiset<string>)

  datatype Action =
    | Create(task: string, row: TaskRow)
    | Write(task: string, row: TaskRow)
    | Begin(task: string, now: real)
    | SettleStale(worker: nat)
    | Claim(worker: nat, task: string, listedAttempts: nat)
    | Read(worker: nat)
    | Inject(worker: nat, accepts: bool)
    | Record(worker: nat, now: real)
    | Crash(worker: nat)
    | CloseHandle(worker: nat)

  predicate FreshWake(row: TaskRow) {
    row.wakeState.None? && row.wakeAttempts == 0
  }

  /** The outcome of one dispatch whose injection the gateway has answered. */
  function RecordRow(p: Policy, row: TaskRow, attempts: nat, accepted: bool, now: real): TaskRow
    requires p.Valid()
  {
    if accepted then AcceptWakeRow(row, now)
    else if attempts < p.maxAttempts
    then RetryWakeRow(row, now + PyIndex(p.backoff, BackoffIndex(p, attempts)))
    else ExhaustWakeRow(row)
  }

  function BackoffIndex(p: Policy, attempts: nat): (i: int)
    requires p.Valid()
    ensures -1 <= i < |p.backoff|
  {
    Min(attempts - 1, |p.backoff| - 1)
  }

  function SetTask(s: System, t: string, row: TaskRow): System {
    s.(tasks := s.tasks[t := row])
  }

  function SetFlight(s: System, w: nat, t: string, phase: Phase): System {
    s.(flights := s.flights[w := Flight(t, phase)])
  }

  function DoClaim(s: System, w: nat, t: string, listed: nat): System {
    if w in s.closed || w in s.flights || t !in s.tasks || s.tasks[t].wakeState != Some(WakePending) then s
    else SetFlight(SetTask(s, t, ClaimWakeRow(s.tasks[t])), w, t, Claimed(listed))
  }

  /** The fresh row, or the listed one when the handle no longer reads. */
  function DoRead(s: System, w: nat): System {
    if w !in s.flights || !s.flights[w].phase.Claimed? then s
    else
      var f := s.flights[w];
      var attempts := if w !in s.closed && f.task in s.tasks then s.tasks[f.task].wakeAttempts
                      else f.phase.listedAttempts;
      SetFlight(s, w, f.task, Ready(attempts))
  }

  function DoInject(s: System, w: nat, accepts: bool): System {
    if w !in s.flights || !s.flights[w].phase.Ready? then s
    else
      var f := s.flights[w];
      SetFlight(s, w, f.task, Injected(f.phase.attempts, accepts)).(
        injections := s.injections[f.task := s.injections[f.task] + 1],
        accepts := if accepts then s.accepts[f.task := s.accepts[f.task] + 1] else s.accepts)
  }

  function DoRecord(p: Policy, s: System, w: nat, now: real): System
    requires p.Valid()
  {
    if w !in s.flights || !s.flights[w].phase.Injected? then s
    else
      var f := s.flights[w];
      var landed := s.(flights := s.flights - {w});
      if w in s.closed || f.task !in s.tasks then landed
      else SetTask(landed, f.task, RecordRow(p, s.tasks[f.task], f.phase.attempts, f.phase.accepted, now))
  }

  function Apply(p: Policy, s: System, a: Action): System
    requires p.Valid()
  {
    match a
    case Create(t, row) => if t in s.tasks || !FreshWake(row) then s else SetTask(s, t, row)
    case Write(t, row) =>
      if t !in s.tasks || !SameWakeColumns(s.tasks[t], row) then s else SetTask(s, t, row)
    case Begin(t, now) => if t !in s.tasks then s else SetTask(s, t, BeginWakeRow(s.tasks[t], now))
    case SettleStale(w) => if w in s.closed then s else s.(tasks := StaleWakes(s.tasks))
    case Claim(w, t, listed) => DoClaim(s, w, t, listed)
    case Read(w) => DoRead(s, w)
    case Inject(w, accepts) => DoInject(s, w, accepts)
    case Record(w, now) => DoRecord(p, s, w, now)
    case Crash(w) => s.(flights := s.flights - {w})
    case CloseHandle(w) => s.(closed := s.closed + {w})
  }

  function Run(p: Policy, s: System, acts: seq<Action>): System
    requires p.Valid()
    decreases |acts|
  {
    if acts == [] then s else Run(p, Apply(p, s, acts[0]), acts[1..])
  }

  const START := System(map[], map[], {}, multiset{}, multiset{})

  lemma {:induction false} RunConcat(p: Policy, s: System, a: seq<Action>, b: seq<Action>)
    requires p.Valid()
    ensures Run(p, s, a + b) == Run(p, Run(p, s, a), b)
    decreases |a|
  {
    if a == [] {
      assert a + b == b;
    } else {
      assert (a + b)[1..] == a[1..] + b;
      RunConcat(p, Apply(p, s, a[0]), a[1..], b);
    }
  }

  // ---- the invariant --------------------------------------------------------

  ghost predicate Grounded(s: System, t: string) {
    forall w :: w in s.flights ==> s.flights[w].task != t
  }

  ghost predicate SoleFlights(s: System) {
    forall v, w :: v in s.flights && w in s.flights && s.flights[v].task == s.flights[w].task ==> v == w
  }

  ghost predicate Bounded(p: Policy, row: TaskRow) {
    && row.wakeAttempts <= p.Budget()
    && (row.wakeState == Some(WakePending) ==> row.wakeAttempts < p.Budget())
    && (row.wakeState == Some(Dispatching) ==> 1 <= row.wakeAttempts)
    && (row.wakeState.None? ==> row.wakeAttempts == 0)
  }

  /** A dispatch can only be under way while its outcome is open. */
  ghost predicate TaskInv(p: Policy, s: System, t: string)
    requires t in s.tasks
  {
    var row := s.tasks[t];
    && Bounded(p, row)
    && s.injections[t] <= row.wakeAttempts
    && s.accepts[t] <= 1
    && (row.wakeState !in {Some(Dispatching), Some(Uncertain)} ==> Grounded(s, t))
    && (s.accepts[t] == 1 ==> row.wakeState in {Some(Dispatching), Some(Uncertain), Some(Accepted)})
    && (row.wakeState == Some(Accepted) ==> s.accepts[t] == 1)
  }

  ghost predicate FlightInv(s: System, w: nat)
    requires w in s.flights && s.flights[w].task in s.tasks
  {
    var f := s.flights[w];
    var row := s.tasks[f.task];
    && (!f.phase.Injected? ==> s.accepts[f.task] == 0 && s.injections[f.task] < row.wakeAttempts)
    && (f.phase.Injected? ==> s.accepts[f.task] == if f.phase.accepted then 1 else 0)
    && (w !in s.closed && !f.phase.Claimed? ==> f.phase.attempts == row.wakeAttempts)
    && 1 <= row.wakeAttempts
  }

  ghost predicate Inv(p: Policy, s: System) {
    && SoleFlights(s)
    && (forall w :: w in s.flights ==> s.flights[w].task in s.tasks && FlightInv(s, w))
    && (forall t :: t in s.tasks ==> TaskInv(p, s, t))
    && (forall t :: t !in s.tasks ==> s.accepts[t] == 0 && s.injections[t] == 0)
  }

  /** What a row may do without a dispatch taking part. */
  ghost predicate QuietRowStep(row: TaskRow, row': TaskRow) {
    && row'.wakeAttempts == row.wakeAttempts
    && (row'.wakeState == row.wakeState
        || (row.wakeState.None? && row'.wakeState in {Some(WakePending), Some(Disabled)})
        || (row.wakeState == Some(Dispatching) && row'.wakeState == Some(Uncertain)))
  }

  ghost predicate QuietTableStep(t: Tasks, t': Tasks) {
    && (forall id :: id in t ==> id in t' && QuietRowStep(t[id], t'[id]))
    && (forall id :: id in t' ==> id in t || FreshWake(t'[id]))
  }

  lemma RowsKeepInv(p: Policy, s: System, tasks: Tasks)
    requires p.Valid() && Inv(p, s) && QuietTableStep(s.tasks, tasks)
    ensures Inv(p, s.(tasks := tasks))
  {
    var s' := s.(tasks := tasks);
    forall w | w in s'.flights ensures s'.flights[w].task in s'.tasks && FlightInv(s', w) {
      assert FlightInv(s, w);
    }
    forall t | t in s'.tasks ensures TaskInv(p, s', t) {
      if t in s.tasks { assert TaskInv(p, s, t); }
    }
  }

  lemma TableStepIsQuiet(p: Policy, s: System, a: Action)
    requires p.Valid()
    requires a.Create? || a.Write? || a.Begin? || a.SettleStale?
    ensures QuietTableStep(s.tasks, Apply(p, s, a).tasks)
    ensures Apply(p, s, a) == s.(tasks := Apply(p, s, a).tasks)
  {
  }

  lemma ClaimKeepsInv(p: Policy, s: System, w: nat, t: string, listed: nat)
    requires p.Valid() && Inv(p, s)
    ensures Inv(p, DoClaim(s, w, t, listed))
  {
    var s' := DoClaim(s, w, t, listed);
    if s' != s {
      assert TaskInv(p, s, t);
      forall v | v in s'.flights ensures s'.flights[v].task in s'.tasks && FlightInv(s', v) {
        if v != w { assert FlightInv(s, v); }
      }
      forall u | u in s'.tasks ensures TaskInv(p, s', u) { assert TaskInv(p, s, u); }
    }
  }

  lemma ReadKeepsInv(p: Policy, s: System, w: nat)
    requires p.Valid() && Inv(p, s)
    ensures Inv(p, DoRead(s, w))
  {
    var s' := DoRead(s, w);
    if s' != s {
      assert FlightInv(s, w);
      forall v | v in s'.flights ensures s'.flights[v].task in s'.tasks && FlightInv(s', v) {
        assert FlightInv(s, v);
      }
      forall u | u in s'.tasks ensures TaskInv(p, s', u) { assert TaskInv(p, s, u); }
    }
  }

  lemma InjectKeepsInv(p: Policy, s: System, w: nat, accepts: bool)
    requires p.Valid() && Inv(p, s)
    ensures Inv(p, DoInject(s, w, accepts))
  {
    var s' := DoInject(s, w, accepts);
    if s' != s {
      var t := s.flights[w].task;
      assert FlightInv(s, w) && TaskInv(p, s, t);
      forall v | v in s'.flights ensures s'.flights[v].task in s'.tasks && FlightInv(s', v) {
        if v != w { assert FlightInv(s, v) && s.flights[v].task != t; }
      }
      forall u | u in s'.tasks ensures TaskInv(p, s', u) { assert TaskInv(p, s, u); }
    }
  }

  lemma LandKeepsInv(p: Policy, s: System, w: nat)
    requires p.Valid() && Inv(p, s)
    ensures Inv(p, s.(flights := s.flights - {w}))
  {
    var s' := s.(flights := s.flights - {w});
    forall v | v in s'.flights ensures s'.flights[v].task in s'.tasks && FlightInv(s', v) {
      assert FlightInv(s, v);
    }
    forall u | u in s'.tasks ensures TaskInv(p, s', u) { assert TaskInv(p, s, u); }
  }

  lemma RecordKeepsInv(p: Policy, s: System, w: nat, now: real)
    requires p.Valid() && Inv(p, s)
    ensures Inv(p, DoRecord(p, s, w, now))
  {
    LandKeepsInv(p, s, w);
    if w in s.flights && s.flights[w].phase.Injected? && w !in s.closed {
      var t := s.flights[w].task;
      var landed, s' := s.(flights := s.flights - {w}), DoRecord(p, s, w, now);
      assert FlightInv(s, w) && TaskInv(p, s, t) && Grounded(landed, t);
      forall v | v in s'.flights ensures s'.flights[v].task in s'.tasks && FlightInv(s', v) {
        assert FlightInv(landed, v);
      }
      forall u | u in s'.tasks ensures TaskInv(p, s', u) { assert TaskInv(p, landed, u); }
    }
  }

  lemma CloseKeepsInv(p: Policy, s: System, w: nat)
    requires p.Valid() && Inv(p, s)
    ensures Inv(p, s.(closed := s.closed + {w}))
  {
    var s' := s.(closed := s.closed + {w});
    forall v | v in s'.flights ensures s'.flights[v].task in s'.tasks && FlightInv(s', v) {
      assert FlightInv(s, v);
    }
    forall u | u in s'.tasks ensures TaskInv(p, s', u) { assert TaskInv(p, s, u); }
  }

  lemma StepKeepsInv(p: Policy, s: System, a: Action)
    requires p.Valid() && Inv(p, s)
    ensures Inv(p, Apply(p, s, a))
  {
    match a
    case Claim(w, t, listed) => ClaimKeepsInv(p, s, w, t, listed);
    case Read(w) => ReadKeepsInv(p, s, w);
    case Inject(w, accepts) => InjectKeepsInv(p, s, w, accepts);
    case Record(w, now) => RecordKeepsInv(p, s, w, now);
    case Crash(w) => LandKeepsInv(p, s, w);
    case CloseHandle(w) => CloseKeepsInv(p, s, w);
    case _ =>
      TableStepIsQuiet(p, s, a);
      RowsKeepInv(p, s, Apply(p, s, a).tasks);
  }

  lemma {:induction false} RunKeepsInv(p: Policy, s: System, acts: seq<Action>)
    requires p.Valid() && Inv(p, s)
    ensures Inv(p, Run(p, s, acts))
    decreases |acts|
  {
    if acts == [] {
    } else {
      StepKeepsInv(p, s, acts[0]);
      RunKeepsInv(p, Apply(p, s, acts[0]), acts[1..]);
    }
  }

  // ---- at most one accepted injection ---------------------------------------

  lemma StartInv(p: Policy)
    ensures Inv(p, START)
  {
  }

  /** In every reachable state at most one dispatch per task is under way, the
      gateway has accepted at most one injection for it, and the row says
      'accepted' only if it did. */
  lemma AtMostOneAcceptance(p: Policy, acts: seq<Action>, t: string)
    requires p.Valid()
    ensures var s := Run(p, START, acts);
            && s.accepts[t] <= 1
            && (forall v, w ::
                  v in s.flights && w in s.flights && s.flights[v].task == t == s.flights[w].task ==> v == w)
            && (t in s.tasks && s.tasks[t].wakeState == Some(Accepted) ==> s.accepts[t] == 1)
  {
    StartInv(p);
    RunKeepsInv(p, START, acts);
  }

  lemma OnlyInjectionsCount(p: Policy, s: System, a: Action)
    requires p.Valid() && !a.Inject?
    ensures Apply(p, s, a).accepts == s.accepts && Apply(p, s, a).injections == s.injections
  {
  }

  lemma NoInjectionAfterAcceptance(s: System, w: nat, accepts: bool, t: string)
    requires s.accepts[t] == 1
    requires w in s.flights ==> s.flights[w].task in s.tasks && FlightInv(s, w)
    ensures DoInject(s, w, accepts).accepts[t] == 1 && DoInject(s, w, accepts).injections[t] == s.injections[t]
  {
  }

  lemma StepAfterAcceptance(p: Policy, s: System, a: Action, t: string)
    requires p.Valid() && Inv(p, s) && s.accepts[t] == 1
    ensures Apply(p, s, a).accepts[t] == 1 && Apply(p, s, a).injections[t] == s.injections[t]
  {
    if a.Inject? {
      NoInjectionAfterAcceptance(s, a.worker, a.accepts, t);
    } else {
      OnlyInjectionsCount(p, s, a);
    }
  }

  lemma {:induction false} RunAfterAcceptance(p: Policy, s: System, acts: seq<Action>, t: string)
    requires p.Valid() && Inv(p, s) && s.accepts[t] == 1
    ensures Run(p, s, acts).accepts[t] == 1 && Run(p, s, acts).injections[t] == s.injections[t]
    decreases |acts|
  {
    if acts == [] {
    } else {
      StepKeepsInv(p, s, acts[0]);
      StepAfterAcceptance(p, s, acts[0], t);
      RunAfterAcceptance(p, Apply(p, s, acts[0]), acts[1..], t);
    }
  }

  /** Once the gateway has accepted an injection, whatever happens next - other
      workers, a death before the outcome is recorded, a reload - the task is
      never injected again and its row is never pending again. */
  lemma AcceptanceIsForever(p: Policy, acts: seq<Action>, later: seq<Action>, t: string)
    requires p.Valid() && Run(p, START, acts).accepts[t] == 1
    ensures var s, s' := Run(p, START, acts), Run(p, START, acts + later);
            && s'.injections[t] == s.injections[t]
            && s'.accepts[t] == 1
            && t in s'.tasks && s'.tasks[t].wakeState in {Some(Dispatching), Some(Uncertain), Some(Accepted)}
  {
    StartInv(p);
    RunKeepsInv(p, START, acts);
    RunKeepsInv(p, START, acts + later);
    RunConcat(p, START, acts, later);
    RunAfterAcceptance(p, Run(p, START, acts), later, t);
    assert TaskInv(p, Run(p, START, acts + later), t);
  }

  lemma {:induction false} AcceptedIsAbsorbing(p: Policy, s: System, acts: seq<Action>, t: string)
    requires p.Valid() && Inv(p, s) && WakeOf(s, t) == Some(Accepted)
    ensures WakeOf(Run(p, s, acts), t) == Some(Accepted)
    decreases |acts|
  {
    if acts == [] {
    } else {
      StepKeepsInv(p, s, acts[0]);
      StepsAreLegalMoves(p, s, acts[0], t);
      AcceptedIsAbsorbing(p, Apply(p, s, acts[0]), acts[1..], t);
    }
  }

  /** An acceptance recorded through an open handle is the last word on the wake,
      even if the row had been given up as uncertain in the meantime. */
  lemma RecordedAcceptanceSticks(p: Policy, acts: seq<Action>, w: nat, now: real, later: seq<Action>)
    requires p.Valid()
    requires var s := Run(p, START, acts);
             w in s.flights && w !in s.closed && s.flights[w].phase.Injected? && s.flights[w].phase.accepted
    ensures var t := Run(p, START, acts).flights[w].task;
            WakeOf(Run(p, START, acts + ([Record(w, now)] + later)), t) == Some(Accepted)
  {
    StartInv(p);
    RunKeepsInv(p, START, acts);
    var s := Run(p, START, acts);
    assert FlightInv(s, w);
    StepKeepsInv(p, s, Record(w, now));
    assert ([Record(w, now)] + later)[1..] == later;
    RunConcat(p, START, acts, [Record(w, now)] + later);
    AcceptedIsAbsorbing(p, Apply(p, s, Record(w, now)), later, s.flights[w].task);
  }

  // ---- the retry budget ------------------------------------------------------

  /** Across all restarts a task is injected at most as often as it is claimed,
      and claimed at most as often as the budget allows. */
  lemma InjectionsWithinBudget(p: Policy, acts: seq<Action>, t: string)
    requires p.Valid()
    ensures var s := Run(p, START, acts);
            && s.injections[t] <= p.Budget()
            && (t in s.tasks ==> s.injections[t] <= s.tasks[t].wakeAttempts <= p.Budget())
  {
    StartInv(p);
    RunKeepsInv(p, START, acts);
    if t in Run(p, START, acts).tasks { assert TaskInv(p, Run(p, START, acts), t); }
  }

  function WakeOf(s: System, t: string): Option<WakeState> {
    if t in s.tasks then s.tasks[t].wakeState else None
  }

  function Rank(p: Policy, s: System, t: string): int {
    match WakeOf(s, t)
    case None => 2 * p.Budget() + 2
    case Some(WakePending) => 2 * (p.Budget() - s.tasks[t].wakeAttempts) + 1
    case Some(Dispatching) => 2 * (p.Budget() - s.tasks[t].wakeAttempts) + 2
    case Some(Uncertain) => 1
    case _ => 0
  }

  /** The edges of the wake state machine, with what happens to the attempt count. */
  predicate LegalMove(row: TaskRow, row': TaskRow) {
    match (row.wakeState, row'.wakeState)
    case (Some(WakePending), Some(Dispatching)) => row'.wakeAttempts == row.wakeAttempts + 1
    case (a, b) =>
      && row'.wakeAttempts == row.wakeAttempts
      && (a == b
          || (a.None? && b in {Some(WakePending), Some(Disabled)})
          || (a == Some(Dispatching) && b in {Some(WakePending), Some(Exhausted), Some(Uncertain), Some(Accepted)})
          || (a == Some(Uncertain) && b == Some(Accepted)))
  }

  /** Nothing any worker does, stale ones included, leaves those edges. */
  lemma StepsAreLegalMoves(p: Policy, s: System, a: Action, t: string)
    requires p.Valid() && Inv(p, s) && t in s.tasks
    ensures t in Apply(p, s, a).tasks && LegalMove(s.tasks[t], Apply(p, s, a).tasks[t])
  {
    match a
    case Claim(w, u, listed) => ClaimIsLegalMove(s, w, u, listed, t);
    case Read(w) =>
    case Inject(w, accepts) =>
    case Record(w, now) => RecordIsLegalMove(p, s, w, now, t);
    case Crash(w) =>
    case CloseHandle(w) =>
    case _ => TableStepIsQuiet(p, s, a);
  }

  lemma ClaimIsLegalMove(s: System, w: nat, u: string, listed: nat, t: string)
    requires t in s.tasks
    ensures t in DoClaim(s, w, u, listed).tasks && LegalMove(s.tasks[t], DoClaim(s, w, u, listed).tasks[t])
  {
  }

  lemma RecordIsLegalMove(p: Policy, s: System, w: nat, now: real, t: string)
    requires p.Valid() && Inv(p, s) && t in s.tasks
    ensures t in DoRecord(p, s, w, now).tasks && LegalMove(s.tasks[t], DoRecord(p, s, w, now).tasks[t])
  {
    if w in s.flights && s.flights[w].task == t { assert TaskInv(p, s, t); }
  }

  lemma LegalMoveLowersRank(p: Policy, s: System, s': System, t: string)
    requires t in s.tasks && t in s'.tasks && LegalMove(s.tasks[t], s'.tasks[t])
    requires Bounded(p, s.tasks[t]) && Bounded(p, s'.tasks[t])
    ensures 0 <= Rank(p, s', t)
    ensures if WakeOf(s', t) == WakeOf(s, t) then Rank(p, s', t) == Rank(p, s, t) else Rank(p, s', t) < Rank(p, s, t)
  {
  }

  lemma StepLowersRank(p: Policy, s: System, a: Action, t: string)
    requires p.Valid() && Inv(p, s)
    ensures 0 <= Rank(p, Apply(p, s, a), t)
    ensures if WakeOf(Apply(p, s, a), t) == WakeOf(s, t) then Rank(p, Apply(p, s, a), t) == Rank(p, s, t)
            else Rank(p, Apply(p, s, a), t) < Rank(p, s, t)
  {
    StepKeepsInv(p, s, a);
    if t in s.tasks {
      assert TaskInv(p, s, t);
      StepsAreLegalMoves(p, s, a, t);
      assert TaskInv(p, Apply(p, s, a), t);
      LegalMoveLowersRank(p, s, Apply(p, s, a), t);
    }
  }

  /** How often the wake state of one task changes along a run. */
  function Moves(p: Policy, s: System, acts: seq<Action>, t: string): nat
    requires p.Valid()
    decreases |acts|
  {
    if acts == [] then 0
    else
      var s' := Apply(p, s, acts[0]);
      (if WakeOf(s', t) != WakeOf(s, t) then 1 else 0) + Moves(p, s', acts[1..], t)
  }

  lemma {:induction false} MovesWithinRank(p: Policy, s: System, acts: seq<Action>, t: string)
    requires p.Valid() && Inv(p, s)
    requires 0 <= Rank(p, s, t)
    ensures Moves(p, s, acts, t) + Rank(p, Run(p, s, acts), t) <= Rank(p, s, t)
    ensures 0 <= Rank(p, Run(p, s, acts), t)
    decreases |acts|
  {
    if acts == [] {
    } else {
      StepKeepsInv(p, s, acts[0]);
      StepLowersRank(p, s, acts[0], t);
      MovesWithinRank(p, Apply(p, s, acts[0]), acts[1..], t);
    }
  }

  /** Every wake comes to rest: over its whole history, restarts included, a task
      makes at most 2 * budget + 2 wake transitions. */
  lemma WakeComesToRest(p: Policy, acts: seq<Action>, t: string)
    requires p.Valid()
    ensures Moves(p, START, acts, t) <= 2 * p.Budget() + 2
  {
    StartInv(p);
    MovesWithinRank(p, START, acts, t);
  }

  /** Where the backoff delay is looked up: through an open handle the index is a
      proper one; through a closed handle the stale attempt count can be 0 and
      Python reads the last entry, but then nothing is written. */
  lemma BackoffLookup(p: Policy, acts: seq<Action>, w: nat, now: real)
    requires p.Valid()
    requires var s := Run(p, START, acts); w in s.flights && s.flights[w].phase.Injected?
    ensures var s := Run(p, START, acts);
            var f := s.flights[w];
            if w in s.closed then DoRecord(p, s, w, now).tasks == s.tasks
            else 1 <= f.phase.attempts && 0 <= BackoffIndex(p, f.phase.attempts) < |p.backoff|
  {
    StartInv(p);
    RunKeepsInv(p, START, acts);
    assert FlightInv(Run(p, START, acts), w);
  }

  /** The wake columns stay as opened until the first claim. */
  ghost predicate AsOpened(row: TaskRow, row': TaskRow) {
    1 <= row'.wakeAttempts || SameWakeColumns(row, row')
  }

  lemma TableStepLeavesOpened(p: Policy, s: System, a: Action, t: string, row: TaskRow)
    requires p.Valid() && t in s.tasks && AsOpened(row, s.tasks[t])
    requires row.wakeState in {Some(WakePending), Some(Disabled)}
    requires a.Create? || a.Write? || a.Begin? || a.SettleStale?
    ensures t in Apply(p, s, a).tasks && AsOpened(row, Apply(p, s, a).tasks[t])
  {
  }

  lemma RecordLeavesOpened(p: Policy, s: System, w: nat, now: real, t: string, row: TaskRow)
    requires p.Valid() && Inv(p, s) && t in s.tasks && AsOpened(row, s.tasks[t])
    ensures t in DoRecord(p, s, w, now).tasks && AsOpened(row, DoRecord(p, s, w, now).tasks[t])
  {
    if w in s.flights { assert FlightInv(s, w); }
  }

  lemma StepLeavesOpened(p: Policy, s: System, a: Action, t: string, row: TaskRow)
    requires p.Valid() && Inv(p, s) && t in s.tasks && AsOpened(row, s.tasks[t])
    requires row.wakeState in {Some(WakePending), Some(Disabled)}
    ensures t in Apply(p, s, a).tasks && AsOpened(row, Apply(p, s, a).tasks[t])
  {
    match a
    case Record(w, now) => RecordLeavesOpened(p, s, w, now, t, row);
    case Claim(w, u, listed) =>
    case Read(w) =>
    case Inject(w, accepts) =>
    case Crash(w) =>
    case CloseHandle(w) =>
    case _ => TableStepLeavesOpened(p, s, a, t, row);
  }

  lemma {:induction false} RunLeavesOpened(p: Policy, s: System, acts: seq<Action>, t: string, row: TaskRow)
    requires p.Valid() && Inv(p, s) && t in s.tasks && AsOpened(row, s.tasks[t])
    requires row.wakeState in {Some(WakePending), Some(Disabled)}
    ensures t in Run(p, s, acts).tasks && AsOpened(row, Run(p, s, acts).tasks[t])
    decreases |acts|
  {
    if acts == [] {
    } else {
      StepLeavesOpened(p, s, acts[0], t, row);
      StepKeepsInv(p, s, acts[0]);
      RunLeavesOpened(p, Apply(p, s, acts[0]), acts[1..], t, row);
    }
  }

  /** Whatever happens meanwhile, an opened wake that nobody has claimed yet is listed
      exactly from the moment it was opened - and never, if the task may not continue:
      then it is disabled. */
  lemma OpenedWakeIsListedFromItsOpening(
      p: Policy, acts: seq<Action>, t: string, now: real, later: seq<Action>, at: real)
    requires p.Valid() && t in Run(p, START, acts).tasks && Run(p, START, acts).tasks[t].wakeState.None?
    requires Run(p, Apply(p, Run(p, START, acts), Begin(t, now)), later).tasks.Keys >= {t}
    requires Run(p, Apply(p, Run(p, START, acts), Begin(t, now)), later).tasks[t].wakeAttempts == 0
    ensures var enabled := Run(p, START, acts).tasks[t].continuationEnabled;
            var row := Run(p, Apply(p, Run(p, START, acts), Begin(t, now)), later).tasks[t];
            && (WakeDue(row, at) <==> enabled && now <= at)
            && row.wakeState == Some(if enabled then WakePending else Disabled)
  {
    StartInv(p);
    RunKeepsInv(p, START, acts);
    var s := Run(p, START, acts);
    var s1 := Apply(p, s, Begin(t, now));
    StepKeepsInv(p, s, Begin(t, now));
    OpenedWake(s.tasks[t], now, at);
    RunLeavesOpened(p, s1, later, t, s1.tasks[t]);
  }

  const WITNESS_POLICY := Policy(5, [30.0])

  /** A worker whose injection was accepted, but not yet recorded when another worker's
      pass gave its dispatch up. */
  lemma GivenUpRun(row: TaskRow) returns (acts: seq<Action>)
    requires row.wakeState == Some(WakePending) && row.wakeAttempts == 0
    ensures var s := Run(WITNESS_POLICY, START.(tasks := map["t" := row]), acts);
            && s.tasks == map["t" := ClaimWakeRow(row).(wakeState := Some(Uncertain))] && s.closed == {}
            && s.flights == map[0 := Flight("t", Injected(1, true))]
  {
    var p, s0 := WITNESS_POLICY, START.(tasks := map["t" := row]);
    var s1 := DoClaim(s0, 0, "t", 0);
    var s2 := DoRead(s1, 0);
    var s3 := DoInject(s2, 0, true);
    assert s1.tasks == map["t" := ClaimWakeRow(row)] && s1.flights == map[0 := Flight("t", Claimed(0))];
    assert s2.tasks == s1.tasks && s2.flights == map[0 := Flight("t", Ready(1))];
    assert s3.tasks == s1.tasks && s3.flights == map[0 := Flight("t", Injected(1, true))];
    RunOne(p, s0, [], Claim(0, "t", 0));
    RunOne(p, s0, [] + [Claim(0, "t", 0)], Read(0));
    RunOne(p, s0, [] + [Claim(0, "t", 0)] + [Read(0)], Inject(0, true));
    RunOne(p, s0, [] + [Claim(0, "t", 0)] + [Read(0)] + [Inject(0, true)], SettleStale(1));
    acts := [] + [Claim(0, "t", 0)] + [Read(0)] + [Inject(0, true)] + [SettleStale(1)];
  }

  lemma RunOne(p: Policy, s: System, acts: seq<Action>, a: Action)
    requires p.Valid()
    ensures Run(p, s, acts + [a]) == Apply(p, Run(p, s, acts), a)
  {
    RunConcat(p, s, acts, [a]);
    assert [a][1..] == [];
  }

  /** The edge that is not compare-and-set is really taken. */
  lemma UncertainCanBeAccepted(row: TaskRow)
    requires FreshWake(row) && row.continuationEnabled
    ensures exists acts, a :: WakeOf(Run(WITNESS_POLICY, START, acts), "t") == Some(Uncertain)
                              && WakeOf(Run(WITNESS_POLICY, START, acts + [a]), "t") == Some(Accepted)
  {
    var p := WITNESS_POLICY;
    var begun := [Create("t", row)] + [Begin("t", 0.0)];
    RunOne(p, START, [], Create("t", row));
    assert [] + [Create("t", row)] == [Create("t", row)];
    RunOne(p, START, [Create("t", row)], Begin("t", 0.0));
    var s := Run(p, START, begun);
    assert s == START.(tasks := map["t" := BeginWakeRow(row, 0.0)]);
    var acts := GivenUpRun(BeginWakeRow(row, 0.0));
    RunConcat(p, START, begun, acts);
    RunOne(p, START, begun + acts, Record(0, 1.0));
    assert WakeOf(Run(p, START, begun + acts), "t") == Some(Uncertain);
    assert WakeOf(Run(p, START, begun + acts + [Record(0, 1.0)]), "t") == Some(Accepted);
  }
}
