/**
 The wake worker's pass, and why the protocol's results hold of it: a pass is one
 particular run of the protocol, in which a single worker takes all the steps.
 */
module WakeWorker {
  import opened Wrappers
  import opened Rows
  import opened RegistryDb
  import opened WakeProtocol

  /** What `inject_message` does: True, False, or an exception. */
  datatype Reply = Accepts | Refuses | Raises

  /** One complete dispatch of a pending row: claim, inject, record. */
  function DispatchRow(p: Policy, row: TaskRow, accepted: bool, now: real): TaskRow
    requires p.Valid()
  {
    RecordRow(p, ClaimWakeRow(row), ClaimWakeRow(row).wakeAttempts, accepted, now)
  }

  function Dispatched(p: Policy, t: Tasks, id: string, accepted: bool, now: real): Tasks
    requires p.Valid()
  {
    if id in t && t[id].wakeState == Some(WakePending) then t[id := DispatchRow(p, t[id], accepted, now)] else t
  }

  function Pass(p: Policy, t: Tasks, listed: seq<string>, inject: string -> Reply, now: real): Tasks
    requires p.Valid()
    decreases |listed|
  {
    if listed == [] then t
    else Pass(p, Dispatched(p, t, listed[0], inject(listed[0]).Accepts?, now), listed[1..], inject, now)
  }

  lemma {:induction false} PassSnoc(
      p: Policy, t: Tasks, listed: seq<string>, id: string, inject: string -> Reply, now: real)
    requires p.Valid()
    ensures Pass(p, t, listed + [id], inject, now)
         == Dispatched(p, Pass(p, t, listed, inject, now), id, inject(id).Accepts?, now)
    decreases |listed|
  {
    if listed == [] {
      assert [id][1..] == [];
    } else {
      assert (listed + [id])[1..] == listed[1..] + [id];
      PassSnoc(p, Dispatched(p, t, listed[0], inject(listed[0]).Accepts?, now), listed[1..], id, inject, now);
    }
  }

  /** A pass dispatches each listed pending wake exactly once and no other row. */
  lemma {:induction false} PassOutcome(
      p: Policy, t: Tasks, listed: seq<string>, inject: string -> Reply, now: real, id: string)
    requires p.Valid() && Distinct(listed) && id in t
    ensures Pass(p, t, listed, inject, now).Keys == t.Keys
    ensures Pass(p, t, listed, inject, now)[id]
         == if id in listed && t[id].wakeState == Some(WakePending)
            then DispatchRow(p, t[id], inject(id).Accepts?, now) else t[id]
    decreases |listed|
  {
    if listed == [] {
    } else {
      var rest := listed[1..];
      assert listed == [listed[0]] + rest;
      assert forall i :: 0 <= i < |rest| ==> rest[i] == listed[i + 1];
      PassOutcome(p, Dispatched(p, t, listed[0], inject(listed[0]).Accepts?, now), rest, inject, now, id);
    }
  }

  lemma NextDispatch(p: Policy, t: Tasks, listed: seq<string>, i: nat, inject: string -> Reply, now: real)
    requires p.Valid() && Distinct(listed) && i < |listed| && listed[i] in t
    ensures var before := Pass(p, t, listed[..i], inject, now);
            && listed[i] in before && before[listed[i]] == t[listed[i]]
            && Pass(p, t, listed[..i + 1], inject, now)
            == Dispatched(p, before, listed[i], inject(listed[i]).Accepts?, now)
  {
    PassOutcome(p, t, listed[..i], inject, now, listed[i]);
    assert listed[..i + 1] == listed[..i] + [listed[i]];
    PassSnoc(p, t, listed[..i], listed[i], inject, now);
  }

  // ---- a pass is a run of the protocol ---------------------------------------

  function DispatchSteps(w: nat, t: string, listedAttempts: nat, accepts: bool, now: real): seq<Action> {
    [Claim(w, t, listedAttempts), Read(w), Inject(w, accepts), Record(w, now)]
  }

  function PassSteps(w: nat, listed: seq<string>, listing: Tasks, inject: string -> Reply, now: real): seq<Action> {
    if listed == [] then []
    else
      var attempts := if listed[0] in listing then listing[listed[0]].wakeAttempts else 0;
      DispatchSteps(w, listed[0], attempts, inject(listed[0]).Accepts?, now)
      + PassSteps(w, listed[1..], listing, inject, now)
  }

  lemma RunFour(p: Policy, s: System, a: Action, b: Action, c: Action, d: Action)
    requires p.Valid()
    ensures Run(p, s, [a, b, c, d]) == Apply(p, Apply(p, Apply(p, Apply(p, s, a), b), c), d)
  {
    var s1 := Apply(p, s, a);
    var s2 := Apply(p, s1, b);
    var s3 := Apply(p, s2, c);
    assert [a, b, c, d][1..] == [b, c, d] && [b, c, d][1..] == [c, d] && [c, d][1..] == [d] && [d][1..] == [];
    assert Run(p, s3, [d]) == Run(p, Apply(p, s3, d), []);
    assert Run(p, s2, [c, d]) == Run(p, s3, [d]);
    assert Run(p, s1, [b, c, d]) == Run(p, s2, [c, d]);
  }

  lemma DispatchLands(p: Policy, s: System, w: nat, t: string, attempts: nat, accepts: bool, now: real)
    requires p.Valid() && w !in s.closed && t in s.tasks
    requires w in s.flights && s.flights[w] == Flight(t, Ready(attempts))
    ensures DoRecord(p, DoInject(s, w, accepts), w, now)
         == s.(tasks := s.tasks[t := RecordRow(p, s.tasks[t], attempts, accepts, now)],
               flights := s.flights - {w},
               injections := s.injections[t := s.injections[t] + 1],
               accepts := if accepts then s.accepts[t := s.accepts[t] + 1] else s.accepts)
  {
    var s' := DoInject(s, w, accepts);
    assert s'.flights == s.flights[w := Flight(t, Injected(attempts, accepts))];
    assert s'.flights - {w} == s.flights - {w};
  }

  lemma DispatchIsRun(p: Policy, s: System, w: nat, t: string, n: nat, accepts: bool, now: real)
    requires p.Valid() && w !in s.flights && w !in s.closed
    requires t in s.tasks && s.tasks[t].wakeState == Some(WakePending)
    ensures var s' := Run(p, s, DispatchSteps(w, t, n, accepts, now));
            && s'.tasks == Dispatched(p, s.tasks, t, accepts, now)
            && s'.flights == s.flights && s'.closed == s.closed
            && s'.injections == s.injections[t := s.injections[t] + 1]
            && s'.accepts == if accepts then s.accepts[t := s.accepts[t] + 1] else s.accepts
  {
    RunFour(p, s, Claim(w, t, n), Read(w), Inject(w, accepts), Record(w, now));
    var s1 := DoClaim(s, w, t, n);
    var s2 := DoRead(s1, w);
    var row := ClaimWakeRow(s.tasks[t]);
    assert s2 == s.(tasks := s.tasks[t := row], flights := s.flights[w := Flight(t, Ready(row.wakeAttempts))]);
    DispatchLands(p, s2, w, t, row.wakeAttempts, accepts, now);
    var s4 := DoRecord(p, DoInject(s2, w, accepts), w, now);
    assert s2.flights - {w} == s.flights;
    assert s2.tasks[t := RecordRow(p, row, row.wakeAttempts, accepts, now)] == Dispatched(p, s.tasks, t, accepts, now);
  }

  lemma {:induction false} DispatchesAreRun(
      p: Policy, s: System, w: nat, listed: seq<string>, listing: Tasks, inject: string -> Reply, now: real)
    requires p.Valid() && w !in s.flights && w !in s.closed && Distinct(listed)
    requires forall id :: id in listed ==> id in s.tasks && s.tasks[id].wakeState == Some(WakePending)
    ensures var s' := Run(p, s, PassSteps(w, listed, listing, inject, now));
            s'.tasks == Pass(p, s.tasks, listed, inject, now) && s'.flights == s.flights && s'.closed == s.closed
    decreases |listed|
  {
    if listed == [] {
    } else {
      var t, rest := listed[0], listed[1..];
      assert listed == [t] + rest;
      assert forall i :: 0 <= i < |rest| ==> rest[i] == listed[i + 1];
      var n := if t in listing then listing[t].wakeAttempts else 0;
      var steps := DispatchSteps(w, t, n, inject(t).Accepts?, now);
      DispatchIsRun(p, s, w, t, n, inject(t).Accepts?, now);
      RunConcat(p, s, steps, PassSteps(w, rest, listing, inject, now));
      DispatchesAreRun(p, Run(p, s, steps), w, rest, listing, inject, now);
    }
  }

  /** What `RunOnce` does to the table is a run of the protocol from any system with
      that table and an idle worker with an open handle, so everything proved of all
      runs holds of the worker's loop. */
  lemma PassIsRun(p: Policy, s: System, w: nat, listed: seq<string>, limit: nat, inject: string -> Reply, now: real)
    requires p.Valid() && w !in s.flights && w !in s.closed
    requires var t := StaleWakes(s.tasks); FirstBy(WakesDue(t, now), RequestKeys(t), limit, listed)
    ensures var t := StaleWakes(s.tasks);
            var s' := Run(p, s, [SettleStale(w)] + PassSteps(w, listed, t, inject, now));
            s'.tasks == Pass(p, t, listed, inject, now) && s'.flights == s.flights && s'.closed == s.closed
  {
    var t := StaleWakes(s.tasks);
    var steps := PassSteps(w, listed, t, inject, now);
    assert ([SettleStale(w)] + steps)[1..] == steps;
    forall id | id in listed ensures id in t && t[id].wakeState == Some(WakePending) { assert id in WakesDue(t, now); }
    DispatchesAreRun(p, s.(tasks := t), w, listed, t, inject, now);
  }

  // ---- what a lone worker achieves --------------------------------------------

  /** The row after `n` dispatches that the gateway did not accept. */
  function Refused(p: Policy, row: TaskRow, n: nat, now: real): TaskRow
    requires p.Valid()
  {
    if n == 0 then row else DispatchRow(p, Refused(p, row, n - 1, now), false, now)
  }

  /** A gateway that never accepts costs exactly the budget: the wake is pending
      again after each earlier failure, and exhausted after the last one. */
  lemma {:induction false} ExhaustedExactlyAtBudget(p: Policy, row: TaskRow, n: nat, now: real)
    requires p.Valid() && row.wakeState == Some(WakePending) && row.wakeAttempts == 0 && n <= p.Budget()
    ensures Refused(p, row, n, now).wakeAttempts == n
    ensures Refused(p, row, n, now).wakeState == if n < p.Budget() then Some(WakePending) else Some(Exhausted)
  {
    if n == 0 {
    } else {
      ExhaustedExactlyAtBudget(p, row, n - 1, now);
    }
  }

  /** A dispatch the gateway accepted is the last one, with its time and its attempt. */
  lemma AcceptedDispatchEnds(p: Policy, row: TaskRow, now: real, later: real)
    requires p.Valid() && row.wakeState == Some(WakePending)
    ensures DispatchRow(p, row, true, now)
         == row.(wakeState := Some(Accepted), wakeAcceptedAt := Some(now), wakeAttempts := row.wakeAttempts + 1)
    ensures !WakeDue(DispatchRow(p, row, true, now), later)
  {
  }

  /** A dispatch the gateway did not accept is next due exactly when its backoff, by the
      number of the attempt, has passed - or never, once the budget is spent. */
  lemma RefusalWaitsItsBackoff(p: Policy, row: TaskRow, now: real, later: real)
    requires p.Valid() && row.wakeState == Some(WakePending) && row.continuationEnabled
    ensures var delay := p.backoff[Min(row.wakeAttempts, |p.backoff| - 1)];
            WakeDue(DispatchRow(p, row, false, now), later) <==>
              row.wakeAttempts + 1 < p.maxAttempts && now + delay <= later
  {
  }

  class TerminalWakeWorker {
    const registry: Registry
    const policy: Policy
    const maxPerTick: nat

    constructor (registry: Registry, policy: Policy, maxPerTick: nat)
      ensures this.registry == registry && this.policy == policy && this.maxPerTick == maxPerTick
    {
      this.registry, this.policy, this.maxPerTick := registry, policy, maxPerTick;
    }

    /** One wake pass. `listed` are the due wakes the pass set out to dispatch. */
    method RunOnce(now: real, inject: string -> Reply) returns (claimed: nat, ghost listed: seq<string>)
      requires policy.Valid()
      modifies registry`tasks
      ensures registry.closed ==> claimed == 0 && registry.tasks == old(registry.tasks)
      ensures !registry.closed ==>
                var t := StaleWakes(old(registry.tasks));
                && FirstBy(WakesDue(t, now), RequestKeys(t), maxPerTick, listed)
                && claimed == |listed|
                && registry.tasks == Pass(policy, t, listed, inject, now)
    {
      var _ := registry.SettleStaleWakeDispatching();
      ghost var t := registry.tasks;
      var due := registry.ListWakePending(now, maxPerTick);
      listed := due;
      if registry.closed { return 0, due; }
      forall id | id in due ensures id in t && t[id].wakeState == Some(WakePending) { assert id in WakesDue(t, now); }
      claimed := DispatchAll(due, now, inject);
    }

    /** Claims and dispatches the listed wakes one after the other. */
    method DispatchAll(due: seq<string>, now: real, inject: string -> Reply) returns (claimed: nat)
      requires policy.Valid() && !registry.closed && Distinct(due)
      requires forall id :: id in due ==>
                 id in registry.tasks && registry.tasks[id].wakeState == Some(WakePending)
      modifies registry`tasks
      ensures claimed == |due| && registry.tasks == Pass(policy, old(registry.tasks), due, inject, now)
    {
      ghost var t := registry.tasks;
      claimed := 0;
      var i := 0;
      while i < |due|
        invariant 0 <= i <= |due| && claimed == i
        invariant registry.tasks == Pass(policy, t, due[..i], inject, now)
      {
        NextDispatch(policy, t, due, i, inject, now);
        var won := registry.ClaimTerminalWake(due[i]);
        if won {
          claimed := claimed + 1;
          DispatchOne(due[i], now, inject);
        }
        i := i + 1;
      }
      assert due[..|due|] == due;
    }

    /** Injects a claimed wake once and records what the gateway said. */
    method DispatchOne(id: string, now: real, inject: string -> Reply)
      requires policy.Valid() && !registry.closed && id in registry.tasks
      modifies registry`tasks
      ensures registry.tasks == old(registry.tasks)[id :=
                RecordRow(policy, old(registry.tasks)[id], old(registry.tasks)[id].wakeAttempts,
                          inject(id).Accepts?, now)]
    {
      var reread := registry.GetTask(id);
      var reply := inject(id);
      if reply.Accepts? {
        registry.MarkWakeAccepted(id, now);
        return;
      }
      var attempts := reread.value.wakeAttempts;
      if attempts < policy.maxAttempts {
        var delay := PyIndex(policy.backoff, Min(attempts - 1, |policy.backoff| - 1));
        registry.MarkWakeRetry(id, now + delay);
      } else {
        registry.MarkWakeExhausted(id);
      }
    }
  }
}
