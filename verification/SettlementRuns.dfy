/**
 Particular runs of the settlement machine: aborted tasks that wake, rows that a death
 strands, the sweep that finishes, and the wakes that a death loses.
 */
module SettlementRuns {
  import opened Wrappers
  import opened Rows
  import opened RegistryDb
  import opened Watchdog
  import opened Settlement
  import SettlementCauses

  lemma {:induction false} RunConcat(m: Machine, a: seq<Action>, b: seq<Action>)
    ensures Run(m, a + b) == Run(Run(m, a), b)
    decreases |a|
  {
    if a == [] {
      assert a + b == b;
    } else {
      assert (a + b)[1..] == a[1..] + b;
      RunConcat(Apply(m, a[0]), a[1..], b);
    }
  }

  lemma RunOne(m: Machine, acts: seq<Action>, a: Action)
    ensures Run(m, acts + [a]) == Apply(Run(m, acts), a)
  {
    RunConcat(m, acts, [a]);
    assert [a][1..] == [];
  }

  function Times(a: Action, n: nat): seq<Action> {
    if n == 0 then [] else [a] + Times(a, n - 1)
  }

  lemma RunTimes(m: Machine, a: Action, n: nat)
    requires n > 0
    ensures Run(m, Times(a, n)) == Run(Apply(m, a), Times(a, n - 1))
  {
    assert Times(a, n)[1..] == Times(a, n - 1);
  }

  /** A step that finds no scan verdict. */
  function Plainly(now: real, gate: GateRun): Found {
    Found(now, None, gate, Reject)
  }

  /** How many steps a thread can have ahead of it. */
  function Ahead(t: Thread): nat {
    match t
    case Settling(_) => 7
    case Scanning(_) => 6
    case Gating => 5
    case Arming(_) => 4
    case Judging(_) => 3
    case Announcing => 2
    case _ => 1
  }

  lemma LoneStep(m: Machine, k: nat, p: Action)
    requires k in m.threads && m.threads == map[k := m.threads[k]] && p.Proceed? && p.thread == k
    ensures var t := NextOf(m.threads[k], m.row, p.found);
            Apply(m, p).threads == if t.Some? then map[k := t.value] else map[]
    ensures Apply(m, p).row == Written(m.threads[k], m.row, p.found) && Apply(m, p).phase == m.phase
    ensures !m.threads[k].Judging? ==> Apply(m, p).gates == m.gates
  {
  }

  /** A thread left alone comes to its end, with the wake if it was on its way there. */
  lemma {:induction false} LoneThreadFinishes(m: Machine, k: nat, t: Thread, p: Action, n: nat)
    requires m.threads == map[k := t] && p.Proceed? && p.thread == k && Ahead(t) <= n && !t.Aborting? && !t.Resuming?
    ensures var m' := Run(m, Times(p, n));
            && m'.threads == map[] && m'.phase == m.phase && m'.row.executionState == m.row.executionState
            && (m.row.wakeState.Some? || WillWake(t) ==> m'.row.wakeState.Some?)
            && (m.row.executionState != SETTLED && !t.Arming? && !t.Judging? ==> m'.gates == m.gates)
    decreases n
  {
    LoneStep(m, k, p);
    WriteTouches(t, m.row, p.found);
    RunTimes(m, p, n);
    var next := NextOf(t, m.row, p.found);
    if next.Some? {
      LoneThreadFinishes(Apply(m, p), k, next.value, p, n - 1);
    } else {
      NothingLeft(Apply(m, p), p, n - 1);
    }
  }

  lemma {:induction false} NothingLeft(m: Machine, p: Action, n: nat)
    requires m.threads == map[] && p.Proceed?
    ensures Run(m, Times(p, n)) == m
    decreases n
  {
    if n == 0 {
    } else {
      RunTimes(m, p, n);
      NothingLeft(m, p, n - 1);
    }
  }

  lemma AbortThen(m: Machine, a: Action) returns (acts: seq<Action>)
    requires Started(m)
    ensures acts == [AbortBegins, a]
    ensures Run(m, acts)
         == Apply(Fork(m.(row := m.row.(abortRequested := true)), Aborting), a)
  {
    RunOne(m, [], AbortBegins);
    RunOne(m, [] + [AbortBegins], a);
    acts := [AbortBegins, a];
    assert [] + [AbortBegins] + [a] == acts;
  }

  lemma AbortOverSettle(m: Machine)
    requires m.agent.Some? && m.row.executionState == RUNNING && m.threads == map[m.next - 1 := Aborting] && 0 < m.next
    ensures var n := Apply(Settle(m), Proceed(m.next - 1, Plainly(0.0, Blew)));
            && n.row.executionState == ABORTED && n.phase == m.phase
            && n.threads == map[m.next := Settling(m.agent.value)]
  {
    var m1 := Settle(m);
    assert m1.threads == map[m.next - 1 := Aborting, m.next := Settling(m.agent.value)];
    assert m1.threads - {m.next - 1} == map[m.next := Settling(m.agent.value)];
  }

  lemma SettleOverAbort(m: Machine)
    requires m.agent.Some? && m.row.executionState == RUNNING && m.threads == map[m.next - 1 := Aborting] && 0 < m.next
    ensures var n := Settle(Apply(m, Proceed(m.next - 1, Plainly(0.0, Blew))));
            && n.row.executionState == ABORTED && n.phase == m.phase
            && n.threads == map[m.next := Settling(m.agent.value)]
  {
    var m1 := Apply(m, Proceed(m.next - 1, Plainly(0.0, Blew)));
    assert m1.threads == map[] && m1.row.executionState == ABORTED;
  }

  ghost predicate AbortedWithSettleThread(m: Machine, acts: seq<Action>) {
    && AbortBegins in acts && SettlementCauses.NoDeath(acts)
    && var n := Run(m, acts);
       && m.agent.Some? && n.row.executionState == ABORTED && n.phase.Up? && n.gates == m.gates
       && n.threads == map[m.next + 1 := Settling(m.agent.value)]
  }

  lemma SettleAfterAbort(m: Machine) returns (acts: seq<Action>)
    requires Started(m)
    ensures AbortedWithSettleThread(m, acts)
  {
    var m1 := Fork(m.(row := m.row.(abortRequested := true)), Aborting);
    assert m1.threads == map[m.next := Aborting];
    acts := AbortThen(m, Proceed(m.next, Plainly(0.0, Blew)));
    RunOne(m, acts, AgentSettles);
    SettleOverAbort(m1);
    acts := acts + [AgentSettles];
  }

  lemma SettleDuringAbort(m: Machine) returns (acts: seq<Action>)
    requires Started(m)
    ensures AbortedWithSettleThread(m, acts)
  {
    var m1 := Fork(m.(row := m.row.(abortRequested := true)), Aborting);
    assert m1.threads == map[m.next := Aborting];
    acts := AbortThen(m, AgentSettles);
    RunOne(m, acts, Proceed(m.next, Plainly(0.0, Blew)));
    AbortOverSettle(m1);
    acts := acts + [Proceed(m.next, Plainly(0.0, Blew))];
  }

  /** It happens, with the settle event on either side of the ABORTED write: the aborted
      task is woken, though a manual abort is documented never to do that. Its gate, if it
      has one, does not run. */
  lemma AbortedTaskCanWake(m: Machine, late: bool)
    requires Started(m)
    ensures exists acts :: AbortBegins in acts && SettlementCauses.NoDeath(acts) && Quiescent(Run(m, acts))
                           && Run(m, acts).row.executionState == ABORTED && Run(m, acts).row.wakeState.Some?
                           && Run(m, acts).gates == []
  {
    var acts;
    if late {
      acts := SettleAfterAbort(m);
    } else {
      acts := SettleDuringAbort(m);
    }
    var p := Proceed(m.next + 1, Plainly(0.0, Blew));
    LoneThreadFinishes(Run(m, acts), m.next + 1, Settling(m.agent.value), p, 7);
    RunConcat(m, acts, Times(p, 7));
    TimesIs(p, 7);
    assert SettlementCauses.NoDeath(acts + Times(p, 7)) && AbortBegins in acts + Times(p, 7);
  }

  lemma {:induction false} TimesIs(a: Action, n: nat)
    ensures |Times(a, n)| == n && forall i :: 0 <= i < n ==> Times(a, n)[i] == a
    decreases n
  {
    if n == 0 {
    } else {
      TimesIs(a, n - 1);
    }
  }

  /** A death, a boot and the sweep's look, from any machine. */
  lemma Restarted(m: Machine, acts: seq<Action>, now: real, reattach: Reattach)
    ensures Run(m, acts + Restart(now, reattach)) == Look(Rebooted(Run(m, acts)), now, reattach)
  {
    RunOne(m, acts, Die);
    RunOne(m, acts + [Die], Boot);
    RunOne(m, acts + [Die] + [Boot], Sweep(now, reattach));
    assert acts + [Die] + [Boot] + [Sweep(now, reattach)] == acts + Restart(now, reattach);
    RebootSteps(Run(m, acts), now, reattach);
  }

  function Rebooted(m: Machine): Machine {
    m.(phase := Up, agent := None, threads := map[], overlooked := false)
  }

  lemma RebootSteps(m: Machine, now: real, reattach: Reattach)
    ensures Apply(Apply(Apply(m, Die), Boot), Sweep(now, reattach)) == Look(Rebooted(m), now, reattach)
  {
    var m1 := m.(phase := Down, agent := None, threads := map[], overlooked := false);
    assert Apply(m, Die) == m1 && Apply(m1, Boot) == m1.(phase := Sweeping);
    assert m1.(phase := Sweeping).(phase := Up) == Rebooted(m);
  }

  function Restart(now: real, reattach: Reattach): seq<Action> {
    [Die, Boot, Sweep(now, reattach)]
  }

  /** A persisted spec that does not load is stranded by a death right after the event. Such
      a spec is that of an empty argv given to `start_task` (the tool drops one), or a
      damaged column. */
  lemma UnloadableStrands(m: Machine, now: real)
    requires Started(m) && m.row.verifierSpec == Unloadable
    ensures var n := Run(m, [AgentSettles] + Restart(now, Reject));
            && Quiescent(n) && n.row.executionState == SETTLED && Stranded(n.row) && n.row.wakeState.None?
            && n.overlooked
  {
    RunOne(m, [], AgentSettles);
    assert [] + [AgentSettles] == [AgentSettles];
    Restarted(m, [AgentSettles], now, Reject);
    var r := Run(m, [AgentSettles]);
    assert r.row == m.row.(executionState := SETTLED);
  }

  /** A task without a spec has settled; its settle thread has written its columns. */
  lemma UngatedColumns(m: Machine, p: Action) returns (acts: seq<Action>)
    requires Started(m) && m.row.verifierSpec == NoSpec && p.Proceed? && p.thread == m.next
    ensures var n := Run(m, acts);
            && n.phase.Up? && n.next == m.next + 1 && n.threads == map[m.next := Scanning(false)]
            && n.row.executionState == SETTLED && n.row.verificationState == NOT_RUN
            && n.row.wakeState.None? && n.row.verifierSpec == NoSpec
  {
    acts := [];
    RunOne(m, acts, AgentSettles);
    acts := acts + [AgentSettles];
    assert Run(m, acts).threads == map[m.next := Settling(false)];
    LoneStep(Run(m, acts), m.next, p);
    RunOne(m, acts, p);
    acts := acts + [p];
  }

  lemma VerificationArms(m: Machine, acts: seq<Action>, p: Action) returns (more: seq<Action>)
    requires var r := Run(m, acts);
             r.phase.Up? && r.row.executionState == SETTLED && p.Proceed? && p.thread == r.next
    ensures var r, n := Run(m, acts), Run(m, more);
            && n == r.(row := r.row.(verificationState := PENDING), next := r.next + 1,
                       threads := r.threads[r.next := Judging(false)])
  {
    RunOne(m, acts, VerifyBegins);
    more := acts + [VerifyBegins];
    assert Run(m, more).threads[p.thread] == Arming(false);
    RunOne(m, more, p);
    more := more + [p];
  }

  /** An ad-hoc verification that dies at work strands a task that has no spec. */
  lemma DeadVerificationStrands(m: Machine, now: real)
    requires Started(m) && m.row.verifierSpec == NoSpec
    ensures exists acts :: Quiescent(Run(m, acts)) && Run(m, acts).row.executionState == SETTLED
                           && Stranded(Run(m, acts).row) && Run(m, acts).row.wakeState.None?
  {
    var acts := UngatedColumns(m, Proceed(m.next, Plainly(now, Blew)));
    acts := VerificationArms(m, acts, Proceed(m.next + 1, Plainly(now, Blew)));
    Restarted(m, acts, now, Reject);
    assert Quiescent(Run(m, acts + Restart(now, Reject)));
  }

  lemma VerdictComes(m: Machine, k: nat, p: Action)
    requires m.phase.Up? && m.threads == map[k := Judging(false)] && m.row.executionState == SETTLED
    requires p.Proceed? && p.thread == k
    ensures Quiescent(Apply(m, p)) && Apply(m, p).row == JudgedRow(m.row, p.found.gate)
    ensures Apply(m, p).overlooked == m.overlooked
  {
    LoneStep(m, k, p);
  }

  /** A stranded task that is verified again afterwards has its verdict, and no wake before
      the next boot, whatever happens until then - an ad-hoc verification does not ask for
      one, and a resume finds nothing to do. */
  lemma LateVerdictDoesNotWake(m: Machine, now: real)
    requires Started(m) && m.row.verifierSpec == Unloadable
    ensures exists acts :: Quiescent(Run(m, acts)) && Run(m, acts).row.executionState == SETTLED
                           && Resolved(Run(m, acts).row)
                           && forall later ::
                                SettlementCauses.NoDeath(later) ==> Run(m, acts + later).row.wakeState.None?
  {
    UnloadableStrands(m, now);
    var acts := [AgentSettles] + Restart(now, Reject);
    var k := Run(m, acts).next;
    var p := Proceed(k, Plainly(now, Exited(0)));
    var more := VerificationArms(m, acts, p);
    VerdictComes(Run(m, more), k, p);
    RunOne(m, more, p);
    forall later | SettlementCauses.NoDeath(later) ensures Run(m, more + [p] + later).row.wakeState.None? {
      OverlookedIsNotWoken(m, more + [p], later);
    }
    assert Quiescent(Run(m, more + [p]));
  }

  /** A row that the sweep has passed over is not woken in that manager's life. */
  lemma OverlookedIsNotWoken(m: Machine, acts: seq<Action>, later: seq<Action>)
    requires Started(m) && Run(m, acts).overlooked && SettlementCauses.NoDeath(later)
    ensures Run(m, acts + later).row.wakeState.None?
  {
    RunKeepsDuty(m, acts);
    RunConcat(m, acts, later);
    OverlookedUntilDeath(Run(m, acts), later);
    RunKeepsDuty(m, acts + later);
  }

  // ---- the sweep completes, or loses a wake ---------------------------------------------

  lemma GateFinishes(m: Machine, k: nat, p: Action)
    requires m.threads == map[k := Arming(true)] && p.Proceed? && p.thread == k
    ensures var n := Run(m, Times(p, 4));
            && n.threads == map[] && n.phase == m.phase
            && n.row == BeginWakeRow(JudgedRow(m.row, p.found.gate), p.found.now)
  {
    var m1 := Apply(m, p);
    var m2 := Apply(m1, p);
    var m3 := Apply(m2, p);
    LoneStep(m, k, p);
    LoneStep(m1, k, p);
    LoneStep(m2, k, p);
    LoneStep(m3, k, p);
    RunTimes(m, p, 4);
    RunTimes(m1, p, 3);
    RunTimes(m2, p, 2);
    RunTimes(m3, p, 1);
    NothingLeft(Apply(m3, p), p, 0);
    assert m2.row == JudgedRow(m.row, p.found.gate);
  }

  /** The settle thread of a gated task, left alone. */
  lemma GatedThreadFinishes(m: Machine, k: nat, p: Action)
    requires m.threads == map[k := Settling(true)] && m.phase.Up? && m.row.executionState == SETTLED
    requires p.Proceed? && p.thread == k && p.found.scan.None?
    ensures var n := Run(m, Times(p, 7));
            && Quiescent(n) && n.row.executionState == SETTLED && n.row.wakeState.Some?
            && n.row.verificationState == Verdict(p.found.gate) && n.row.lspSummary == m.row.lspSummary
  {
    var m1 := Apply(m, p);
    var m2 := Apply(m1, p);
    var m3 := Apply(m2, p);
    LoneStep(m, k, p);
    WriteTouches(Settling(true), m.row, p.found);
    LoneStep(m1, k, p);
    WriteTouches(Scanning(true), m1.row, p.found);
    LoneStep(m2, k, p);
    RunTimes(m, p, 7);
    RunTimes(m1, p, 6);
    RunTimes(m2, p, 5);
    GateFinishes(m3, k, p);
    WriteTouches(Judging(true), m3.row, p.found);
    WriteTouches(Waking, JudgedRow(m3.row, p.found.gate), p.found);
  }

  lemma WakeFinishes(m: Machine, k: nat, p: Action)
    requires m.threads == map[k := Waking] && p.Proceed? && p.thread == k
    ensures var n := Run(m, Times(p, 4));
            n.threads == map[] && n.phase == m.phase && n.row == BeginWakeRow(m.row, p.found.now)
  {
    LoneStep(m, k, p);
    RunTimes(m, p, 4);
    NothingLeft(Apply(m, p), p, 3);
  }

  lemma LookFinishes(r: Machine, p: Action, now: real, reattach: Reattach)
    requires r.row.executionState == SETTLED && r.threads == map[] && r.phase.Up?
    requires p.Proceed? && p.thread == r.next
    ensures var n := Run(Look(r, now, reattach), Times(p, 4));
            Quiescent(n) && n.row == RecoverSettledRow(r.row, p.found.gate, p.found.now)
  {
    var m := Look(r, now, reattach);
    if m.next == r.next {
      NothingLeft(m, p, 4);
    } else if m.threads == map[r.next := Arming(true)] {
      GateFinishes(m, r.next, p);
    } else {
      WakeFinishes(m, r.next, p);
    }
  }

  /** Nothing settled waits for more than one undisturbed boot: from any point of any
      history a death, a boot, the sweep's look and four more steps leave nothing to run,
      and what was written is what the sweep over the row computes. */
  lemma SweepCompletes(m: Machine, acts: seq<Action>, p: Action, now: real, reattach: Reattach)
    requires Started(m) && Run(m, acts).row.executionState == SETTLED
    requires p.Proceed? && p.thread == Run(m, acts).next
    ensures var n := Run(m, acts + Restart(now, reattach) + Times(p, 4));
            Quiescent(n) && n.row == RecoverRow(Run(m, acts).row, reattach, p.found.gate, p.found.now)
  {
    Restarted(m, acts, now, reattach);
    RunConcat(m, acts + Restart(now, reattach), Times(p, 4));
    LookFinishes(Rebooted(Run(m, acts)), p, now, reattach);
  }

  lemma {:induction false} OverlookedUntilDeath(m: Machine, acts: seq<Action>)
    requires m.phase.Up? && SettlementCauses.NoDeath(acts)
    ensures Run(m, acts).phase.Up? && Run(m, acts).overlooked == m.overlooked
    decreases |acts|
  {
    if acts == [] {
    } else {
      OverlookedUntilDeath(Apply(m, acts[0]), acts[1..]);
    }
  }

  /** What one sweep is worth, at any point of any history at which it finds the task
      settled: whatever happens in that manager's life, once nothing is left to run the
      task has been woken if and only if the sweep did not find it unwoken and stranded. */
  lemma SweepWakesExactlyTheUnstranded(m: Machine, acts: seq<Action>, now: real, reattach: Reattach, later: seq<Action>)
    requires Started(m) && SettlementCauses.NoDeath(later)
    requires var r := Run(m, acts); r.phase.Sweeping? && r.row.executionState == SETTLED
    requires var n := Run(m, acts + [Sweep(now, reattach)] + later); Quiescent(n) && n.row.executionState == SETTLED
    ensures var r, n := Run(m, acts), Run(m, acts + [Sweep(now, reattach)] + later);
            n.row.wakeState.Some? <==> !(Stranded(r.row) && r.row.wakeState.None?)
  {
    CrashesLoseNothing(m, acts + [Sweep(now, reattach)] + later);
    RunKeepsDuty(m, acts);
    RunOne(m, acts, Sweep(now, reattach));
    RunConcat(m, acts + [Sweep(now, reattach)], later);
    LookOverlooks(Run(m, acts), now, reattach);
    OverlookedUntilDeath(Run(m, acts + [Sweep(now, reattach)]), later);
  }

  lemma LookOverlooks(m: Machine, now: real, reattach: Reattach)
    requires m.phase.Sweeping? && m.row.executionState == SETTLED && !m.overlooked
    ensures var n := Apply(m, Sweep(now, reattach));
            n.phase.Up? && n.overlooked == (Stranded(m.row) && m.row.wakeState.None?)
  {
  }

  /** The first action that changes anything. */
  ghost function FirstEffective(m: Machine, acts: seq<Action>): Option<Action>
    decreases |acts|
  {
    if acts == [] then None
    else if Apply(m, acts[0]) == m then FirstEffective(m, acts[1..])
    else Some(acts[0])
  }

  ghost predicate DeadEnd(m: Machine) {
    && m.row.executionState in {CRASHED, ABORTED}
    && m.threads == map[] && m.agent.None?
  }

  /** No boot looks at a crashed or aborted row again. */
  lemma {:induction false} DeadEndStays(m: Machine, acts: seq<Action>)
    requires DeadEnd(m) && SettlementCauses.NoResume(acts)
    ensures Run(m, acts).row == m.row
    decreases |acts|
  {
    if acts == [] {
    } else {
      DeadEndStays(Apply(m, acts[0]), acts[1..]);
    }
  }

  lemma StepKeepsWake(m: Machine, a: Action)
    requires m.row.wakeState.Some?
    ensures Apply(m, a).row.wakeState.Some?
  {
    if a.Proceed? && a.thread in m.threads { WriteTouches(m.threads[a.thread], m.row, a.found); }
  }

  lemma {:induction false} RunKeepsWake(m: Machine, acts: seq<Action>)
    requires m.row.wakeState.Some?
    ensures Run(m, acts).row.wakeState.Some?
    decreases |acts|
  {
    if acts == [] {
    } else {
      StepKeepsWake(m, acts[0]);
      RunKeepsWake(Apply(m, acts[0]), acts[1..]);
    }
  }

  /** The end is written, the wake is the one thing left to do. */
  ghost predicate Unwoken(m: Machine, k: nat) {
    && m.row.executionState in {CRASHED, ABORTED} && m.row.wakeState.None?
    && m.phase.Up? && m.agent.None? && m.threads == map[k := Waking]
  }

  lemma UnwokenStep(m: Machine, k: nat, a: Action)
    requires Unwoken(m, k) && Apply(m, a) != m && !a.Resumes?
    ensures if a.Die? then DeadEnd(Apply(m, a)) && Apply(m, a).row == m.row
            else Apply(m, a).row.wakeState.Some?
  {
    if a.Proceed? { WriteTouches(Waking, m.row, a.found); }
  }

  lemma {:induction false} UnwokenWakes(m: Machine, k: nat, acts: seq<Action>)
    requires Unwoken(m, k) && SettlementCauses.NoResume(acts)
    ensures Run(m, acts).row.wakeState.Some? <==> FirstEffective(m, acts).Some? && !FirstEffective(m, acts).value.Die?
    decreases |acts|
  {
    if acts == [] {
    } else if Apply(m, acts[0]) == m {
      UnwokenWakes(m, k, acts[1..]);
    } else {
      UnwokenStep(m, k, acts[0]);
      if acts[0].Die? {
        DeadEndStays(Apply(m, acts[0]), acts[1..]);
      } else {
        RunKeepsWake(Apply(m, acts[0]), acts[1..]);
      }
    }
  }

  /** The sweep's guarantee stops at settled tasks. From any point of any history at which
      an unwoken task is interrupted, a rejected recovery leaves it aborted with only its
      wake to open; and unless the user resumes the task, that wake is ever opened if and
      only if the next thing that happens to it is not the manager's death. */
  lemma RejectionWakesUnlessDeath(m: Machine, acts: seq<Action>, now: real, later: seq<Action>)
    requires Started(m) && SettlementCauses.NoResume(later)
    requires Resumable(Run(m, acts).row.executionState) && Run(m, acts).row.wakeState.None?
    ensures var n := Run(m, acts + Restart(now, Reject));
            && n.row.executionState == ABORTED && n.row.wakeState.None? && !Quiescent(n)
            && (Run(n, later).row.wakeState.Some? <==>
                  FirstEffective(n, later).Some? && !FirstEffective(n, later).value.Die?)
  {
    Restarted(m, acts, now, Reject);
    var r := Run(m, acts);
    var n := Look(Rebooted(r), now, Reject);
    assert n.threads == map[r.next := Waking] && r.next in n.threads;
    UnwokenWakes(n, r.next, later);
  }

  /** The run of a rejected recovery whose manager dies before it opens the wake. */
  function LostRejection(now: real): seq<Action> {
    Restart(now, Reject) + [Die]
  }

  lemma RejectionIsLost(m: Machine, now: real)
    requires Started(m)
    ensures var n := Run(m, LostRejection(now));
            DeadEnd(n) && n.phase.Down? && n.row.executionState == ABORTED && n.row.wakeState.None?
  {
    Restarted(m, [], now, Reject);
    assert [] + Restart(now, Reject) == Restart(now, Reject);
    RunOne(m, Restart(now, Reject), Die);
  }

  lemma CrashIsLost(m: Machine)
    requires Started(m)
    ensures var n := Run(m, [Crashes] + [Die]);
            DeadEnd(n) && n.phase.Down? && n.row.executionState == CRASHED && n.row.wakeState.None?
  {
    RunOne(m, [], Crashes);
    assert [] + [Crashes] == [Crashes];
    var m1 := Run(m, [Crashes]);
    assert m1.row.executionState == CRASHED && m1.row.wakeState.None?;
    RunOne(m, [Crashes], Die);
  }

  /** The lost wake, from the start of a task: no boot opens it, only an explicit resume
      can. */
  lemma RejectionCanLoseItsWake(m: Machine, now: real, later: seq<Action>)
    requires Started(m) && SettlementCauses.NoResume(later)
    ensures var n := Run(m, LostRejection(now) + later);
            n.row.executionState == ABORTED && n.row.wakeState.None?
  {
    RejectionIsLost(m, now);
    RunConcat(m, LostRejection(now), later);
    DeadEndStays(Run(m, LostRejection(now)), later);
  }

  /** A crash verdict loses its wake the same way. */
  lemma CrashCanLoseItsWake(m: Machine, later: seq<Action>)
    requires Started(m) && SettlementCauses.NoResume(later)
    ensures var n := Run(m, [Crashes] + [Die] + later);
            n.row.executionState == CRASHED && n.row.wakeState.None?
  {
    CrashIsLost(m);
    RunConcat(m, [Crashes] + [Die], later);
    DeadEndStays(Run(m, [Crashes] + [Die]), later);
  }

  // ---- what an explicit resume does ------------------------------------------------------

  /** A settled task whose verdict is missing is judged by an explicit resume, if its spec
      loads, and woken; with a verdict, or a spec that does not load, a resume finds nothing
      to do. */
  lemma ResumeOfSettled(m: Machine, p: Action)
    requires Quiescent(m) && m.row.executionState == SETTLED && p.Proceed? && p.thread == m.next
    ensures var n := Run(m, [Resumes] + Times(p, 4));
            if m.row.verificationState in {PENDING, NOT_RUN} && m.row.verifierSpec == Loadable
            then Quiescent(n) && n.row == BeginWakeRow(JudgedRow(m.row, p.found.gate), p.found.now)
            else n == m
  {
    RunOne(m, [], Resumes);
    assert [] + [Resumes] == [Resumes];
    RunConcat(m, [Resumes], Times(p, 4));
    if m.row.verificationState in {PENDING, NOT_RUN} && m.row.verifierSpec == Loadable {
      assert Resume(m).threads == map[m.next := Arming(true)];
      GateFinishes(Resume(m), m.next, p);
    } else {
      NothingLeft(m, p, 4);
    }
  }

  /** The next boot, an explicit resume, and the rest of its thread. */
  function ResumeSteps(now: real, p: Action): seq<Action> {
    [Boot] + [Sweep(now, Reject)] + [Resumes] + [p] + [p]
  }

  lemma DeadEndBoots(m: Machine, now: real)
    requires DeadEnd(m) && m.phase.Down?
    ensures Run(m, [Boot] + [Sweep(now, Reject)]) == m.(phase := Up)
  {
    RunOne(m, [], Boot);
    assert [] + [Boot] == [Boot];
    RunOne(m, [Boot], Sweep(now, Reject));
    assert m.(phase := Sweeping).(phase := Up) == m.(phase := Up);
  }

  lemma RejectedResume(m: Machine, p: Action)
    requires DeadEnd(m) && m.phase.Up? && p.Proceed? && p.thread == m.next && p.found.reattach.Reject?
    ensures var n := Apply(Apply(Apply(m, Resumes), p), p);
            Quiescent(n) && n.row.executionState == ABORTED && n.row.wakeState.Some?
  {
    var m2 := Fork(m, Resuming);
    assert Apply(m, Resumes) == m2 && m2.threads == map[m.next := Resuming];
    LoneStep(m2, m.next, p);
    WriteTouches(Resuming, m2.row, p.found);
    LoneStep(Apply(m2, p), m.next, p);
    WriteTouches(Waking, Apply(m2, p).row, p.found);
  }

  lemma ResumeWakesDeadEnd(m: Machine, now: real, p: Action)
    requires DeadEnd(m) && m.phase.Down? && p.Proceed? && p.thread == m.next && p.found.reattach.Reject?
    ensures var n := Run(m, ResumeSteps(now, p));
            Quiescent(n) && n.row.executionState == ABORTED && n.row.wakeState.Some?
  {
    var boot := [Boot] + [Sweep(now, Reject)];
    DeadEndBoots(m, now);
    RunOne(m, boot, Resumes);
    RunOne(m, boot + [Resumes], p);
    RunOne(m, boot + [Resumes] + [p], p);
    RejectedResume(m.(phase := Up), p);
  }

  /** A lost wake is recovered by an explicit resume, and by nothing else: in every
      continuation that opens it there is one, and a rejected one at the next boot does. */
  lemma LostWakeIsRecoveredByResume(m: Machine, now: real, later: seq<Action>, p: Action)
    requires Started(m) && p.Proceed? && p.thread == Run(m, LostRejection(now)).next && p.found.reattach.Reject?
    ensures Run(m, LostRejection(now) + later).row.wakeState.Some? ==> Resumes in later
    ensures Run(m, LostRejection(now) + ResumeSteps(now, p)).row.wakeState.Some?
  {
    if Resumes !in later { RejectionCanLoseItsWake(m, now, later); }
    RejectionIsLost(m, now);
    RunConcat(m, LostRejection(now), ResumeSteps(now, p));
    ResumeWakesDeadEnd(Run(m, LostRejection(now)), now, p);
  }

  /** A resume that has to restore the verifier from a spec that does not load: the task
      settles again without its gate, and is woken without a verdict. */
  lemma ResumeCanSkipGate(m: Machine, now: real, snapshot: Snapshot)
    requires Started(m) && m.row.verifierSpec == Unloadable
    ensures exists acts :: SettlementCauses.NoDeath(acts) && Quiescent(Run(m, acts))
                           && Run(m, acts).row.executionState == SETTLED && Run(m, acts).row.wakeState.Some?
                           && !Resolved(Run(m, acts).row)
  {
    var q := Proceed(m.next, Found(now, None, Blew, Attach(snapshot)));
    var p := Proceed(m.next + 1, Plainly(now, Blew));
    var first := [Resumes] + [q] + [AgentSettles];
    RunOne(m, [], Resumes);
    assert [] + [Resumes] == [Resumes];
    RunOne(m, [Resumes], q);
    RunOne(m, [Resumes] + [q], AgentSettles);
    ReattachedSettles(m, q);
    UngatedThreadFinishes(Run(m, first), m.next + 1, p);
    RunConcat(m, first, Times(p, 4));
    TimesIs(p, 4);
    assert SettlementCauses.NoDeath(first + Times(p, 4)) && Quiescent(Run(m, first + Times(p, 4)));
  }

  lemma ReattachedSettles(m: Machine, q: Action)
    requires m.phase.Up? && m.row.executionState == RUNNING && m.row.verifierSpec == Unloadable && m.threads == map[]
    requires q.Proceed? && q.thread == m.next && q.found.reattach.Attach?
    ensures var n := Apply(Apply(Apply(m, Resumes), q), AgentSettles);
            && n.phase.Up? && n.row.executionState == SETTLED && n.row.verifierSpec == Unloadable
            && n.threads == map[m.next + 1 := Settling(false)]
  {
    var m1 := Fork(m, Resuming);
    assert Apply(m, Resumes) == m1 && m1.threads == map[m.next := Resuming];
    LoneStep(m1, m.next, q);
    WriteTouches(Resuming, m1.row, q.found);
    var m2 := Apply(m1, q);
    assert m2.agent == Some(false) && m2.threads == map[] && m2.next == m.next + 1;
  }

  lemma UngatedThreadFinishes(m: Machine, k: nat, p: Action)
    requires m.threads == map[k := Settling(false)] && m.phase.Up? && p.Proceed? && p.thread == k
    ensures var n := Run(m, Times(p, 4));
            && Quiescent(n) && n.row.executionState == m.row.executionState && n.row.wakeState.Some?
            && n.row.verificationState == NOT_RUN && n.row.verifierSpec == m.row.verifierSpec
  {
    var m1 := Apply(m, p);
    var m2 := Apply(m1, p);
    var m3 := Apply(m2, p);
    LoneStep(m, k, p);
    WriteTouches(Settling(false), m.row, p.found);
    LoneStep(m1, k, p);
    WriteTouches(Scanning(false), m1.row, p.found);
    LoneStep(m2, k, p);
    LoneStep(m3, k, p);
    WriteTouches(Waking, m3.row, p.found);
    RunTimes(m, p, 4);
    RunTimes(m1, p, 3);
    RunTimes(m2, p, 2);
    RunTimes(m3, p, 1);
    NothingLeft(Apply(m3, p), p, 0);
  }
}
