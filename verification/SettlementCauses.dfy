/**
 What opens a wake: nothing but a handled settle event, a watchdog verdict or a rejected
 recovery; and where the manager does not die, each of them does.
 */
module SettlementCauses {
  import opened Wrappers
  import opened Rows
  import opened RegistryDb
  import opened Watchdog
  import opened Settlement

  ghost predicate NoDeath(acts: seq<Action>) {
    forall i :: 0 <= i < |acts| ==> !acts[i].Die?
  }

  /** Every wake has a cause, and where nothing dies every cause gets its wake. */
  ghost predicate CauseInv(m: Machine) {
    && (m.row.executionState == SETTLED ==> 1 <= m.settledEvents)
    && (m.row.wakeState.Some? || Wakes(m) ==> m.settledEvents + m.verdicts + m.rejections >= 1)
  }

  ghost predicate NoResume(acts: seq<Action>) {
    forall i :: 0 <= i < |acts| ==> !acts[i].Resumes?
  }

  ghost predicate UndisturbedInv(m: Machine) {
    && m.phase.Up? && !m.overlooked && m.agent.Some?
    && (m.row.verifierSpec == NoSpec && m.row.verificationState == PENDING ==> Decides(m))
    && (1 <= m.settledEvents + m.verdicts + m.rejections ==> m.row.wakeState.Some? || Wakes(m))
  }

  /** A gate is running. */
  ghost predicate Decides(m: Machine) {
    exists k :: k in m.threads && m.threads[k].Judging?
  }

  /** A runtime that was never replaced has a verifier exactly if there is a spec. */
  ghost predicate UnresumedInv(m: Machine) {
    && m.phase.Up? && m.agent == Some(m.row.verifierSpec != NoSpec)
    && (forall k :: k in m.threads ==>
          && !m.threads[k].Resuming?
          && (m.threads[k].Settling? || m.threads[k].Scanning? ==>
                m.threads[k].hasVerifier == (m.row.verifierSpec != NoSpec)))
    && (m.row.executionState == SETTLED && Undecided(m.row.verificationState) && m.row.verifierSpec != NoSpec ==>
          Judges(m))
  }

  /** A thread's step does not lose a witness among the other threads. */
  lemma OthersStay(m: Machine, k: nat, t: Option<Thread>, w: nat)
    requires k in m.threads && w in m.threads && w != k
    ensures w in Threads(m, k, t) && Threads(m, k, t)[w] == m.threads[w]
  {
  }

  lemma AdvanceKeepsCause(m: Machine, k: nat, f: Found)
    requires k in m.threads && CauseInv(m)
    ensures CauseInv(Advance(m, k, f))
  {
    WriteTouches(m.threads[k], m.row, f);
    var m' := Advance(m, k, f);
    if Wakes(m') && m'.rejections == m.rejections {
      var w :| w in m'.threads && WillWake(m'.threads[w]);
      assert w in m.threads && WillWake(m.threads[w]);
    }
  }

  lemma ForkKeepsCause(m: Machine, m': Machine, t: Thread)
    requires CauseInv(m) && m'.threads == m.threads[m.next := t] && m'.row.wakeState == m.row.wakeState
    requires m'.settledEvents >= m.settledEvents && m'.verdicts >= m.verdicts && m'.rejections >= m.rejections
    requires m'.row.executionState == SETTLED ==> 1 <= m'.settledEvents
    requires WillWake(t) ==> m'.settledEvents + m'.verdicts + m'.rejections >= 1
    ensures CauseInv(m')
  {
    if Wakes(m') {
      var w :| w in m'.threads && WillWake(m'.threads[w]);
      assert w == m.next || (w in m.threads && WillWake(m.threads[w]));
    }
  }

  lemma LookKeepsCause(m: Machine, now: real, reattach: Reattach)
    requires CauseInv(m)
    ensures CauseInv(Look(m.(phase := Up), now, reattach))
  {
    var m' := Look(m.(phase := Up), now, reattach);
    if m'.next != m.next {
      ForkKeepsCause(m, m', m'.threads[m.next]);
    } else {
      assert m'.threads == m.threads;
    }
  }

  lemma StepKeepsCause(m: Machine, a: Action)
    requires CauseInv(m)
    ensures CauseInv(Apply(m, a))
  {
    var m' := Apply(m, a);
    match a
    case Proceed(k, f) => if k in m.threads { AdvanceKeepsCause(m, k, f); }
    case Sweep(now, reattach) => if m.phase.Sweeping? { LookKeepsCause(m, now, reattach); }
    case Moves(_) =>
    case Die =>
    case Boot =>
    case _ => if m' != m { ForkKeepsCause(m, m', m'.threads[m.next]); }
  }

  lemma {:induction false} RunKeepsCause(m: Machine, acts: seq<Action>)
    requires CauseInv(m)
    ensures CauseInv(Run(m, acts))
    decreases |acts|
  {
    if acts == [] {
    } else {
      StepKeepsCause(m, acts[0]);
      RunKeepsCause(Apply(m, acts[0]), acts[1..]);
    }
  }

  lemma {:induction false} SettledEventsAreActions(m: Machine, acts: seq<Action>)
    ensures m.settledEvents <= Run(m, acts).settledEvents
    ensures AgentSettles !in acts ==> Run(m, acts).settledEvents == m.settledEvents
    decreases |acts|
  {
    if acts == [] {
    } else {
      SettledEventsAreActions(Apply(m, acts[0]), acts[1..]);
    }
  }

  /** No task wakes without a cause, wherever the manager dies: a handled settle event, a
      watchdog verdict or a rejected recovery. An abort, the cap's and a manual one, is
      not among them. */
  lemma WakesHaveACause(m: Machine, acts: seq<Action>)
    requires Started(m) && Run(m, acts).row.wakeState.Some?
    ensures AgentSettles in acts || 1 <= Run(m, acts).verdicts + Run(m, acts).rejections
  {
    RunKeepsCause(m, acts);
    SettledEventsAreActions(m, acts);
  }

  lemma AdvanceKeepsUndisturbed(m: Machine, k: nat, f: Found)
    requires k in m.threads && PhaseInv(m) && UndisturbedInv(m)
    ensures UndisturbedInv(Advance(m, k, f))
  {
    WriteTouches(m.threads[k], m.row, f);
    var m', t := Advance(m, k, f), NextOf(m.threads[k], m.row, f);
    if m'.row.verifierSpec == NoSpec && m'.row.verificationState == PENDING {
      if m.threads[k].Arming? {
        assert k in m'.threads && m'.threads[k].Judging?;
      } else {
        var w :| w in m.threads && m.threads[w].Judging?;
        OthersStay(m, k, t, w);
      }
    }
    if 1 <= m'.settledEvents + m'.verdicts + m'.rejections && m'.row.wakeState.None? {
      if WillWake(m.threads[k]) || (m.threads[k].Resuming? && f.reattach.Reject?) {
        assert k in m'.threads && WillWake(m'.threads[k]);
      } else {
        var w :| w in m.threads && WillWake(m.threads[w]);
        OthersStay(m, k, t, w);
      }
    }
  }

  lemma ForkKeepsUndisturbed(m: Machine, a: Action)
    requires PhaseInv(m) && UndisturbedInv(m) && Apply(m, a) != m && Forks(a)
    ensures UndisturbedInv(Apply(m, a))
  {
    var m' := Apply(m, a);
    assert m.next in m'.threads;
    if Decides(m) {
      var w :| w in m.threads && m.threads[w].Judging?;
      assert w in m'.threads && m'.threads[w].Judging?;
    }
    if Wakes(m) {
      var w :| w in m.threads && WillWake(m.threads[w]);
      assert w in m'.threads && WillWake(m'.threads[w]);
    }
  }

  lemma StepKeepsUndisturbed(m: Machine, a: Action)
    requires PhaseInv(m) && UndisturbedInv(m) && !a.Die?
    ensures UndisturbedInv(Apply(m, a))
    ensures Apply(m, a).settledEvents == m.settledEvents + if a.AgentSettles? then 1 else 0
  {
    match a
    case Proceed(k, f) => if k in m.threads { AdvanceKeepsUndisturbed(m, k, f); }
    case Sweep(_, _) =>
    case Moves(_) =>
    case Boot =>
    case _ => if Apply(m, a) != m { ForkKeepsUndisturbed(m, a); }
  }

  lemma {:induction false} RunKeepsUndisturbed(m: Machine, acts: seq<Action>)
    requires PhaseInv(m) && UndisturbedInv(m) && NoDeath(acts)
    ensures UndisturbedInv(Run(m, acts))
    ensures AgentSettles in acts ==> 1 <= Run(m, acts).settledEvents
    decreases |acts|
  {
    if acts == [] {
    } else {
      StepKeepsPhase(m, acts[0]);
      StepKeepsUndisturbed(m, acts[0]);
      RunKeepsUndisturbed(Apply(m, acts[0]), acts[1..]);
      SettledEventsAreActions(Apply(m, acts[0]), acts[1..]);
    }
  }

  lemma AdvanceKeepsUnresumed(m: Machine, k: nat, f: Found)
    requires k in m.threads && UnresumedInv(m)
    ensures UnresumedInv(Advance(m, k, f))
  {
    WriteTouches(m.threads[k], m.row, f);
    var m', t := Advance(m, k, f), NextOf(m.threads[k], m.row, f);
    if m'.row.executionState == SETTLED && Undecided(m'.row.verificationState) && m'.row.verifierSpec != NoSpec {
      if WillJudge(m.threads[k]) {
        assert k in m'.threads && WillJudge(m'.threads[k]);
      } else {
        var w :| w in m.threads && WillJudge(m.threads[w]);
        OthersStay(m, k, t, w);
      }
    }
  }

  lemma ForkKeepsUnresumed(m: Machine, a: Action)
    requires PhaseInv(m) && UnresumedInv(m) && Apply(m, a) != m && Forks(a) && !a.Resumes?
    ensures UnresumedInv(Apply(m, a))
  {
    var m' := Apply(m, a);
    assert m.next in m'.threads;
    if Judges(m) {
      var w :| w in m.threads && WillJudge(m.threads[w]);
      assert w in m'.threads && WillJudge(m'.threads[w]);
    }
  }

  lemma StepKeepsUnresumed(m: Machine, a: Action)
    requires PhaseInv(m) && UnresumedInv(m) && !a.Die? && !a.Resumes?
    ensures UnresumedInv(Apply(m, a))
  {
    if Forks(a) {
      if Apply(m, a) != m { ForkKeepsUnresumed(m, a); }
    } else if a.Proceed? && a.thread in m.threads {
      AdvanceKeepsUnresumed(m, a.thread, a.found);
    }
  }

  lemma {:induction false} RunKeepsUnresumed(m: Machine, acts: seq<Action>)
    requires PhaseInv(m) && UnresumedInv(m) && NoDeath(acts) && NoResume(acts)
    ensures UnresumedInv(Run(m, acts))
    decreases |acts|
  {
    if acts == [] {
    } else {
      StepKeepsPhase(m, acts[0]);
      StepKeepsUnresumed(m, acts[0]);
      RunKeepsUnresumed(Apply(m, acts[0]), acts[1..]);
    }
  }

  /** Where nothing dies, nothing is stranded: when nothing is left to run, a settled task
      has its verdict and its wake. Explicit resumes do not change that, unless they had
      to restore a verifier from a spec that does not load. */
  lemma UndisturbedTasksFinish(m: Machine, acts: seq<Action>)
    requires Started(m) && NoDeath(acts)
    requires Quiescent(Run(m, acts)) && Run(m, acts).row.executionState == SETTLED
    ensures var n := Run(m, acts);
            && n.row.wakeState.Some? && n.wakesOpened == 1
            && (m.row.verifierSpec != Unloadable || NoResume(acts) ==> Resolved(n.row))
  {
    RunKeepsUndisturbed(m, acts);
    RunKeepsHistory(m, acts);
    RunKeepsDuty(m, acts);
    if NoResume(acts) { RunKeepsUnresumed(m, acts); }
  }

  /** When a task that is at rest has been woken, an aborted one included: exactly when an
      `agent_settled` was handled at whatever state, the watchdog passed a verdict, or an
      explicit resume was rejected. So an abort alone does not wake, and does not keep a
      racing settle event from waking. */
  lemma RestingTaskIsWokenExactlyBy(m: Machine, acts: seq<Action>)
    requires Started(m) && NoDeath(acts) && Quiescent(Run(m, acts))
    ensures var n := Run(m, acts);
            n.row.wakeState.Some? <==> AgentSettles in acts || 1 <= n.verdicts || 1 <= n.rejections
  {
    RunKeepsUndisturbed(m, acts);
    RunKeepsCause(m, acts);
    SettledEventsAreActions(m, acts);
  }
}
