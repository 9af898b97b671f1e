/**
 What a gate's exit comes to mean: on the row, over every history, in the sweep and in the
 wake message.
 */
module Verdicts {
  import opened Wrappers
  import opened Rows
  import opened RegistryDb
  import opened Watchdog
  import opened Settlement
  import LspCheck
  import SettlementRuns

  /** How an exit reads: success, a command that never was a gate, or a failed gate. */
  lemma ExitReads(row: TaskRow, g: GateRun)
    ensures var row' := JudgedRow(row, g);
            && (row'.verificationState == PASS <==> g == Exited(0))
            && (row'.verificationState == UNRUNNABLE <==> g.TimedOut? || g in {Exited(126), Exited(127)})
            && (row'.verificationState == FAIL <==> g.Blew? || (g.Exited? && g.code !in {0, 126, 127}))
            && row' == row.(verificationState := row'.verificationState, verifierSummary := row'.verifierSummary)
  {
  }

  /** The verdict line tells the exits apart, too. */
  lemma VerdictLineTells(g: GateRun)
    ensures ("gate passed" <= VerdictLine(g) <==> g == Exited(0))
    ensures ("gate failed" <= VerdictLine(g) <==> g.Exited? && g.code != 0)
    ensures ("gate error" <= VerdictLine(g) <==> !g.Exited?)
  {
    assert "gate passed"[5] == 'p' && "gate failed"[5] == 'f' && "gate error"[5] == 'e';
    match g
    case Exited(code) =>
      if code == 0 {
        assert VerdictLine(g) == "gate passed (exit 0)" && VerdictLine(g)[..11] == "gate passed";
      } else {
        assert VerdictLine(g)[..11] == "gate failed";
      }
    case _ => assert VerdictLine(g) == "gate error";
  }

  /** Over every history a decided row says what its last gate did: it passed if and only
      if that gate exited 0; it was unrunnable if and only if the gate timed out or could
      not be executed; and it failed otherwise. */
  lemma VerdictIsTheLastGates(m: Machine, acts: seq<Action>)
    requires Started(m) && Run(m, acts).row.verificationState in {PASS, FAIL, UNRUNNABLE}
    ensures var n := Run(m, acts);
            && n.gates != []
            && var g := n.gates[|n.gates| - 1].run;
               && (n.row.verificationState == PASS <==> g == Exited(0))
               && (n.row.verificationState == UNRUNNABLE <==> g.TimedOut? || g in {Exited(126), Exited(127)})
               && (n.row.verificationState == FAIL <==> g.Blew? || (g.Exited? && g.code !in {0, 126, 127}))
  {
    RunKeepsHistory(m, acts);
    var n := Run(m, acts);
    if n.gates != [] { ExitReads(n.row, n.gates[|n.gates| - 1].run); }
  }

  // ---- the sweep, by columns -----------------------------------------------------------

  /** One sweep over a settled row: a verdict that is there stays, one that is missing
      comes from the rerun gate if the spec loads and stays missing if not. */
  lemma SweepJudges(row: TaskRow, reattach: Reattach, gate: GateRun, now: real)
    requires row.executionState == SETTLED
    ensures var row' := RecoverRow(row, reattach, gate, now);
            var missing := row.verificationState in {PENDING, NOT_RUN};
            && row'.executionState == SETTLED && row'.verifierSpec == row.verifierSpec
            && (!missing || row.verifierSpec != Loadable ==> row'.verificationState == row.verificationState)
            && (missing && row.verifierSpec == Loadable ==>
                  && (row'.verificationState == PASS <==> gate == Exited(0))
                  && row'.verificationState in {PASS, FAIL, UNRUNNABLE})
            && (row'.wakeState.Some? <==>
                  || row.wakeState.Some?
                  || !missing
                  || row.verifierSpec == Loadable
                  || (row.verificationState == NOT_RUN && row.verifierSpec == NoSpec))
  {
    if row.verificationState in {PENDING, NOT_RUN} && row.verifierSpec == Loadable {
      ExitReads(row, gate);
      WakeOpens(JudgedRow(row, gate), now);
    } else {
      WakeOpens(row, now);
    }
  }

  lemma WakeOpens(row: TaskRow, now: real)
    ensures var row' := BeginWakeRow(row, now);
            && row'.wakeState.Some? && row'.executionState == row.executionState
            && row'.verificationState == row.verificationState && row'.verifierSpec == row.verifierSpec
  {
  }

  /** A rejected or reattached row, by columns. */
  lemma RecoveryWrites(row: TaskRow, outcome: Reattach, now: real)
    requires row.executionState !in {SETTLED, CRASHED, ABORTED}
    ensures var row' := RecoverRow(row, outcome, Blew, now);
            match outcome
            case Reject =>
              && row'.executionState == ABORTED
              && (row.wakeState.None? ==>
                    row'.wakeState == Some(if row.continuationEnabled then WakePending else Disabled))
              && row'.verificationState == row.verificationState && row'.lastProgressAt == row.lastProgressAt
            case Attach(seen) =>
              && row'.executionState == WAITING && SameWakeColumns(row, row')
              && row'.lastProgressAt == Some(now) && row'.lastStateAt == Some(now)
              && row'.lastStateHash == Some(seen) && row'.messageCount == seen.messageCount
  {
  }

  // ---- the message -----------------------------------------------------------------------

  ghost predicate LineInv(m: Machine) {
    m.row.verifierSummary == if m.gates == [] then None else Some(VerdictLine(m.gates[|m.gates| - 1].run))
  }

  lemma WriteTouchesLine(t: Thread, row: TaskRow, f: Found)
    ensures Written(t, row, f).verifierSummary
         == if t.Judging? then Some(VerdictLine(f.gate)) else row.verifierSummary
  {
  }

  lemma LookKeepsLine(m: Machine, now: real, reattach: Reattach)
    ensures Look(m, now, reattach).row.verifierSummary == m.row.verifierSummary
    ensures Look(m, now, reattach).gates == m.gates
  {
  }

  lemma StepKeepsLine(m: Machine, a: Action)
    requires LineInv(m)
    ensures LineInv(Apply(m, a))
  {
    match a
    case Proceed(k, f) => if k in m.threads { WriteTouchesLine(m.threads[k], m.row, f); }
    case Sweep(now, reattach) => LookKeepsLine(m.(phase := Up), now, reattach);
    case _ =>
  }

  lemma {:induction false} RunKeepsLine(m: Machine, acts: seq<Action>)
    requires LineInv(m)
    ensures LineInv(Run(m, acts))
    decreases |acts|
  {
    if acts == [] {
    } else {
      StepKeepsLine(m, acts[0]);
      RunKeepsLine(Apply(m, acts[0]), acts[1..]);
    }
  }

  /** What the wake message shows, over every history: the gate's line if and only if a gate
      has run, and then its last one; the last scan's text if one reached a verdict; and
      that no scan was available only where a gate has run or is asked for. */
  lemma MessageShowsTheLastRuns(m: Machine, acts: seq<Action>)
    requires Started(m) && m.row.verifierSummary.None?
    ensures var n := Run(m, acts);
            var w := FormatTerminalWake(n.row);
            && (w.gate.Some? <==> n.gates != [])
            && (n.gates != [] ==>
                  ("gate passed" <= w.gate.value <==> n.gates[|n.gates| - 1].run == Exited(0)))
            && (n.scans != [] && n.scans[|n.scans| - 1].text != "" ==>
                  w.semantic == Check(n.scans[|n.scans| - 1].text))
            && (n.scans == [] ==>
                  w.semantic == if n.gates != [] || n.row.verificationState != NOT_RUN then NotAvailable else Silence)
  {
    RunKeepsHistory(m, acts);
    RunKeepsLine(m, acts);
    var n := Run(m, acts);
    if n.gates != [] {
      VerdictLineTells(n.gates[|n.gates| - 1].run);
      LineIsNotEmpty(n.gates[|n.gates| - 1].run);
    }
    MessageParts(n.row);
  }

  lemma MessageParts(row: TaskRow)
    ensures var w := FormatTerminalWake(row);
            && w.gate == NonEmpty(row.verifierSummary)
            && (row.lspSummary.Some? && row.lspSummary.value != "" ==> w.semantic == Check(row.lspSummary.value))
            && (row.lspSummary.None? ==>
                  w.semantic == if w.gate.Some? || row.verificationState != NOT_RUN then NotAvailable else Silence)
  {
  }

  lemma LineIsNotEmpty(g: GateRun)
    ensures VerdictLine(g) != ""
  {
    if g.Exited? && g.code != 0 { assert VerdictLine(g)[..4] == "gate"; }
  }

  /** It is said: a started task whose spec loads settles, its gate exits 0, nothing was
      scanned, and the wake announces the complete outcome. */
  lemma CompleteOutcomeIsReached(m: Machine, now: real)
    requires Started(m) && m.row.verifierSpec == Loadable
    ensures exists acts :: Quiescent(Run(m, acts)) && FormatTerminalWake(Run(m, acts).row).completeOutcome
  {
    var p := Proceed(m.next, SettlementRuns.Plainly(now, Exited(0)));
    SettlementRuns.RunOne(m, [], AgentSettles);
    assert [] + [AgentSettles] == [AgentSettles];
    var m1 := Settle(m);
    assert m1.threads == map[m.next := Settling(true)] && m1.row == m.row.(executionState := SETTLED);
    SettlementRuns.GatedThreadFinishes(m1, m.next, p);
    SettlementRuns.RunConcat(m, [AgentSettles], SettlementRuns.Times(p, 7));
    var n := Run(m, [AgentSettles] + SettlementRuns.Times(p, 7));
    ExitReads(m.row, Exited(0));
    assert n.row.verificationState == PASS && n.row.lspSummary.None?;
    assert !(LspCheck.FOUND <= "");
  }

  // ---- the settle event and its thread -------------------------------------------------------

  /** The settle thread's first write is that of the event handler: the two machines agree
      on what `agent_settled` leaves for the gate. */
  lemma SettlingWritesTheEventsColumns(row: TaskRow, rt: Runtime, hasVerifier: bool, f: Found)
    ensures var byEvent := EventRow(row, rt, hasVerifier, AgentSettled, f.now);
            var byThread := Written(Settling(hasVerifier), TransitionRow(row, SETTLED), f);
            && byThread.executionState == byEvent.executionState
            && byThread.settledAt == byEvent.settledAt
            && byThread.verificationState == byEvent.verificationState
            && SameWakeColumns(byThread, byEvent)
  {
  }
}
