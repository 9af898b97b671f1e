/**
 The outbox worker's drain pass: that a batch claim is a run of the protocol,
 what one pass does to every row, and that passes by a lone worker finish.
 */
module OutboxWorker {
  import opened Wrappers
  import opened Rows
  import opened RegistryDb
  import opened OutboxProtocol

  /** A claimed row once its one delivery has been recorded. */
  function DeliveredRow(row: NotificationRow, reply: Reply, now: real): NotificationRow
    requires 1 <= row.attempts
  {
    RecordOutcome(row, row.attempts, OutcomeOf(row.target, reply), now)
  }

  /** The table after the first deliveries of a claimed batch. */
  function DeliveredTo(t: Notifications, ids: seq<string>, send: string -> Reply, now: real): Notifications
    requires forall id :: id in ids && id in t ==> 1 <= t[id].attempts
  {
    map id | id in t :: if id in ids then DeliveredRow(t[id], send(id), now) else t[id]
  }

  /** The table after one whole drain pass. */
  function Drained(
    t: Notifications, ids: seq<string>, worker: string, until: real, send: string -> Reply, now: real): Notifications
  {
    DeliveredTo(LeasedTo(Requeued(t, now), ids, worker, until), ids, send, now)
  }

  /** What a pass claimed and what the platform answered. */
  datatype PassLog = PassLog(ids: seq<string>, worker: string, lease: real, send: string -> Reply, now: real)

  ghost predicate IsPass(t: Notifications, log: PassLog, limit: nat, t': Notifications) {
    && FirstBy(DueIds(Requeued(t, log.now), log.now), CreationKeys(Requeued(t, log.now)), limit, log.ids)
    && t' == Drained(t, log.ids, log.worker, LeaseEnd(log.now, log.lease), log.send, log.now)
  }

  lemma ClaimedRows(t: Notifications, ids: seq<string>, worker: string, now: real, until: real, limit: nat)
    requires FirstBy(DueIds(Requeued(t, now), now), CreationKeys(Requeued(t, now)), limit, ids)
    ensures forall id :: id in ids ==> id in t && 1 <= LeasedTo(Requeued(t, now), ids, worker, until)[id].attempts
  {
    forall id | id in ids ensures id in t { assert id in DueIds(Requeued(t, now), now); }
  }

  lemma ClaimThenDeliveries(t: Notifications, log: PassLog, limit: nat, leased: Notifications, t': Notifications)
    requires FirstBy(DueIds(Requeued(t, log.now), log.now), CreationKeys(Requeued(t, log.now)), limit, log.ids)
    requires leased == LeasedTo(Requeued(t, log.now), log.ids, log.worker, LeaseEnd(log.now, log.lease))
    requires forall id :: id in log.ids && id in leased ==> 1 <= leased[id].attempts
    requires t' == DeliveredTo(leased, log.ids, log.send, log.now)
    ensures IsPass(t, log, limit, t')
  {
  }

  lemma NothingDelivered(t: Notifications, send: string -> Reply, now: real)
    ensures DeliveredTo(t, [], send, now) == t
  {
  }

  lemma NextDelivery(t: Notifications, ids: seq<string>, i: nat, send: string -> Reply, now: real)
    requires Distinct(ids) && i < |ids|
    requires forall id :: id in ids ==> id in t && 1 <= t[id].attempts
    ensures ids[i] in t && DeliveredTo(t, ids[..i], send, now)[ids[i]] == t[ids[i]]
    ensures DeliveredTo(t, ids[..i + 1], send, now)
         == DeliveredTo(t, ids[..i], send, now)[ids[i] := DeliveredRow(t[ids[i]], send(ids[i]), now)]
  {
    assert ids[i] !in ids[..i] && ids[..i + 1] == ids[..i] + [ids[i]];
  }

  // ---- a batch claim is a run of the protocol ----------------------------------

  function ClaimSteps(ids: seq<string>, worker: string, now: real, lease: real): seq<Action> {
    if ids == [] then [] else [Claim(ids[0], worker, now, lease)] + ClaimSteps(ids[1..], worker, now, lease)
  }

  lemma LeaseOne(t: Notifications, ids: seq<string>, worker: string, until: real)
    requires ids != [] && ids[0] in t && Distinct(ids)
    ensures LeasedTo(t, ids, worker, until)
         == LeasedTo(t[ids[0] := LeaseRow(t[ids[0]], worker, until)], ids[1..], worker, until)
  {
    assert forall id :: id in ids <==> id == ids[0] || id in ids[1..];
    assert ids[0] !in ids[1..];
  }

  lemma ClaimsGoOn(s: System, ids: seq<string>, now: real, id: string, worker: string, lease: real)
    requires Distinct(ids) && ids != [] && id == ids[0] && 0.0 <= lease
    requires forall i :: i in ids ==> i in s.rows && Due(s.rows[i], now)
    ensures var s', rest := DoClaim(s, id, worker, now, lease), ids[1..];
            && s'.rows == s.rows[id := LeaseRow(s.rows[id], worker, LeaseEnd(now, lease))]
            && s'.flights == s.flights[s.next := Delivery(id, s.rows[id].attempts + 1, None)] && s'.next == s.next + 1
            && Distinct(rest)
            && forall i :: i in rest ==> i in s'.rows && s'.rows[i] == s.rows[i] && Due(s'.rows[i], now)
  {
    var rest := ids[1..];
    assert forall i :: 0 <= i < |rest| ==> rest[i] == ids[i + 1];
    assert forall i :: i in rest ==> i in ids && i != id;
  }

  lemma RunFirst(s: System, a: Action, acts: seq<Action>)
    ensures Run(s, [a] + acts) == Run(Apply(s, a), acts)
  {
    assert ([a] + acts)[1..] == acts;
  }

  lemma {:induction false} ClaimsAreRun(s: System, ids: seq<string>, worker: string, now: real, lease: real)
    requires Distinct(ids) && 0.0 <= lease
    requires forall id :: id in ids ==> id in s.rows && Due(s.rows[id], now)
    ensures Run(s, ClaimSteps(ids, worker, now, lease)).rows == LeasedTo(s.rows, ids, worker, LeaseEnd(now, lease))
    decreases |ids|
  {
    if ids == [] {
      assert LeasedTo(s.rows, ids, worker, LeaseEnd(now, lease)) == s.rows;
    } else {
      ClaimsGoOn(s, ids, now, ids[0], worker, lease);
      ClaimsAreRun(DoClaim(s, ids[0], worker, now, lease), ids[1..], worker, now, lease);
      RunFirst(s, Claim(ids[0], worker, now, lease), ClaimSteps(ids[1..], worker, now, lease));
      LeaseOne(s.rows, ids, worker, LeaseEnd(now, lease));
    }
  }

  /** Each claim of the batch is a delivery under way, in the order of the batch. */
  lemma {:induction false} ClaimsTakeOff(s: System, ids: seq<string>, worker: string, now: real, lease: real, f: nat)
    requires Distinct(ids) && 0.0 <= lease && f < s.next + |ids|
    requires forall id :: id in ids ==> id in s.rows && Due(s.rows[id], now)
    requires f < s.next ==> f in s.flights
    ensures var s' := Run(s, ClaimSteps(ids, worker, now, lease));
            && f in s'.flights
            && s'.flights[f] == if f < s.next then s.flights[f]
                                else Delivery(ids[f - s.next], s.rows[ids[f - s.next]].attempts + 1, None)
    decreases |ids|
  {
    if ids == [] {
    } else {
      var s1 := DoClaim(s, ids[0], worker, now, lease);
      ClaimsGoOn(s, ids, now, ids[0], worker, lease);
      ClaimsTakeOff(s1, ids[1..], worker, now, lease, f);
      RunFirst(s, Claim(ids[0], worker, now, lease), ClaimSteps(ids[1..], worker, now, lease));
      if f >= s1.next {
        assert ids[1..][f - s1.next] == ids[f - s.next] && ids[1..][f - s1.next] in ids[1..];
      }
    }
  }

  /** The registry's one-statement claim reaches exactly the table that a requeue
      and single claims reach, so the bounds proved of runs cover it. */
  lemma BatchClaimIsRun(s: System, ids: seq<string>, worker: string, now: real, lease: real, limit: nat)
    requires 0.0 <= lease
    requires FirstBy(DueIds(Requeued(s.rows, now), now), CreationKeys(Requeued(s.rows, now)), limit, ids)
    ensures Run(s, [Requeue(now)] + ClaimSteps(ids, worker, now, lease)).rows
         == LeasedTo(Requeued(s.rows, now), ids, worker, LeaseEnd(now, lease))
  {
    RunFirst(s, Requeue(now), ClaimSteps(ids, worker, now, lease));
    ClaimsAreRun(Apply(s, Requeue(now)), ids, worker, now, lease);
  }

  /** The deliveries of a batch whose first flight is `first`: each sent, then recorded. */
  function DeliverySteps(first: nat, ids: seq<string>, send: string -> Reply, now: real): seq<Action>
    decreases |ids|
  {
    if ids == [] then []
    else [Send(first, send(ids[0])), Record(first, now)] + DeliverySteps(first + 1, ids[1..], send, now)
  }

  /** The flights from `first` on are fresh deliveries of the batch, in its order. */
  ghost predicate Airborne(s: System, first: nat, ids: seq<string>) {
    forall i :: 0 <= i < |ids| ==>
      && ids[i] in s.rows && 1 <= s.rows[ids[i]].attempts
      && first + i in s.flights && s.flights[first + i] == Delivery(ids[i], s.rows[ids[i]].attempts, None)
  }

  lemma RestIsAirborne(s: System, s': System, first: nat, ids: seq<string>)
    requires Airborne(s, first, ids) && ids != []
    requires forall id :: id in ids[1..] ==> id in s'.rows && id in s.rows && s'.rows[id] == s.rows[id]
    requires s'.flights == s.flights - {first}
    ensures Airborne(s', first + 1, ids[1..])
  {
    var rest := ids[1..];
    forall i | 0 <= i < |rest|
      ensures rest[i] in s'.rows && 1 <= s'.rows[rest[i]].attempts
      ensures first + 1 + i in s'.flights
      ensures s'.flights[first + 1 + i] == Delivery(rest[i], s'.rows[rest[i]].attempts, None)
    {
      assert rest[i] == ids[i + 1] && rest[i] in rest && first + (i + 1) in s.flights;
    }
  }

  lemma DeliveryIsRun(s: System, f: nat, id: string, reply: Reply, now: real)
    requires id in s.rows && 1 <= s.rows[id].attempts
    requires f in s.flights && s.flights[f] == Delivery(id, s.rows[id].attempts, None)
    ensures var s' := Apply(Apply(s, Send(f, reply)), Record(f, now));
            && s'.rows == s.rows[id := DeliveredRow(s.rows[id], reply, now)]
            && s'.flights == s.flights - {f}
  {
    var t := Apply(s, Send(f, reply));
    var outcome := Some(OutcomeOf(s.rows[id].target, reply));
    assert t.rows == s.rows && t.flights == s.flights[f := s.flights[f].(outcome := outcome)];
    assert t.flights - {f} == s.flights - {f};
  }

  lemma DeliverRest(t: Notifications, ids: seq<string>, send: string -> Reply, now: real)
    requires ids != [] && ids[0] in t && Distinct(ids) && forall id :: id in ids ==> id in t && 1 <= t[id].attempts
    ensures var rest := t[ids[0] := DeliveredRow(t[ids[0]], send(ids[0]), now)];
            && (forall id :: id in ids[1..] ==> id in rest && rest[id] == t[id])
            && DeliveredTo(t, ids, send, now) == DeliveredTo(rest, ids[1..], send, now)
  {
    assert forall id :: id in ids <==> id == ids[0] || id in ids[1..];
    assert ids[0] !in ids[1..];
  }

  lemma {:induction false} DeliveriesAreRun(s: System, first: nat, ids: seq<string>, send: string -> Reply, now: real)
    requires Distinct(ids) && Airborne(s, first, ids)
    ensures Run(s, DeliverySteps(first, ids, send, now)).rows == DeliveredTo(s.rows, ids, send, now)
    decreases |ids|
  {
    if ids == [] {
      NothingDelivered(s.rows, send, now);
    } else {
      var rest := ids[1..];
      var s1 := Apply(s, Send(first, send(ids[0])));
      var s2 := Apply(s1, Record(first, now));
      assert ids[0] in s.rows && first + 0 in s.flights;
      DeliveryIsRun(s, first, ids[0], send(ids[0]), now);
      DeliverRest(s.rows, ids, send, now);
      RestIsAirborne(s, s2, first, ids);
      DeliveriesAreRun(s2, first + 1, rest, send, now);
      RunTwo(s, Send(first, send(ids[0])), Record(first, now), DeliverySteps(first + 1, rest, send, now));
    }
  }

  lemma RunTwo(s: System, a: Action, b: Action, acts: seq<Action>)
    ensures Run(s, [a, b] + acts) == Run(Apply(Apply(s, a), b), acts)
  {
    assert ([a, b] + acts)[1..] == [b] + acts && ([b] + acts)[1..] == acts;
    assert Run(Apply(s, a), [b] + acts) == Run(Apply(Apply(s, a), b), acts);
  }

  lemma {:induction false} RunConcat(s: System, a: seq<Action>, b: seq<Action>)
    ensures Run(s, a + b) == Run(Run(s, a), b)
    decreases |a|
  {
    if a == [] {
      assert a + b == b;
    } else {
      assert (a + b)[1..] == a[1..] + b;
      RunConcat(Apply(s, a[0]), a[1..], b);
    }
  }

  lemma BatchTakesOff(s: System, ids: seq<string>, worker: string, now: real, lease: real) returns (s': System)
    requires 0.0 <= lease && Distinct(ids)
    requires forall id :: id in ids ==> id in s.rows && Due(s.rows[id], now)
    ensures s' == Run(s, ClaimSteps(ids, worker, now, lease))
    ensures s'.rows == LeasedTo(s.rows, ids, worker, LeaseEnd(now, lease)) && Airborne(s', s.next, ids)
  {
    s' := Run(s, ClaimSteps(ids, worker, now, lease));
    ClaimsAreRun(s, ids, worker, now, lease);
    forall i | 0 <= i < |ids|
      ensures ids[i] in s'.rows && 1 <= s'.rows[ids[i]].attempts
      ensures s.next + i in s'.flights && s'.flights[s.next + i] == Delivery(ids[i], s'.rows[ids[i]].attempts, None) {
      assert ids[i] in ids;
      ClaimsTakeOff(s, ids, worker, now, lease, s.next + i);
    }
  }

  function BatchSteps(log: PassLog, first: nat): seq<Action> {
    ClaimSteps(log.ids, log.worker, log.now, log.lease) + DeliverySteps(first, log.ids, log.send, log.now)
  }

  function PassSteps(log: PassLog, first: nat): seq<Action> {
    [Requeue(log.now)] + BatchSteps(log, first)
  }

  lemma BatchIsRun(s: System, log: PassLog)
    requires 0.0 <= log.lease && Distinct(log.ids)
    requires forall id :: id in log.ids ==> id in s.rows && Due(s.rows[id], log.now)
    ensures Run(s, BatchSteps(log, s.next)).rows
         == DeliveredTo(LeasedTo(s.rows, log.ids, log.worker, LeaseEnd(log.now, log.lease)), log.ids, log.send, log.now)
  {
    var s' := BatchTakesOff(s, log.ids, log.worker, log.now, log.lease);
    DeliveriesAreRun(s', s.next, log.ids, log.send, log.now);
    RunConcat(s, ClaimSteps(log.ids, log.worker, log.now, log.lease),
              DeliverySteps(s.next, log.ids, log.send, log.now));
  }

  lemma RequeueStep(s: System, now: real)
    ensures Apply(s, Requeue(now)).rows == Requeued(s.rows, now) && Apply(s, Requeue(now)).next == s.next
  {
  }

  /** What a whole drain pass does to the table is a run of the many-worker protocol,
      from any system with that table, so everything proved of all runs holds of it. */
  lemma PassIsRun(s: System, log: PassLog, limit: nat, t': Notifications)
    requires IsPass(s.rows, log, limit, t') && 0.0 <= log.lease
    ensures Run(s, PassSteps(log, s.next)).rows == t'
  {
    PassClaimsDue(s.rows, log, limit, t');
    RequeueStep(s, log.now);
    BatchIsRun(Apply(s, Requeue(log.now)), log);
    RunFirst(s, Requeue(log.now), BatchSteps(log, s.next));
  }

  lemma PassClaimsDue(t: Notifications, log: PassLog, limit: nat, t': Notifications)
    requires IsPass(t, log, limit, t')
    ensures Distinct(log.ids) && t' == Drained(t, log.ids, log.worker, LeaseEnd(log.now, log.lease), log.send, log.now)
    ensures var r := Requeued(t, log.now); forall id :: id in log.ids ==> id in r && Due(r[id], log.now)
  {
    var r := Requeued(t, log.now);
    forall id | id in log.ids ensures id in r && Due(r[id], log.now) { assert id in DueIds(r, log.now); }
  }

  /** What a delivery makes of its row, by what the send tool did: sent by a receipt,
      failed without a target, by an error that is not transient or at the sixth attempt,
      and pending again otherwise. */
  lemma DeliveryOutcome(row: NotificationRow, reply: Reply, now: real)
    requires 1 <= row.attempts
    ensures var status, usable := DeliveredRow(row, reply, now).status, Usable(row.target);
            && (status == Sent <==> usable && reply == Receipt)
            && (status == Failed <==> !usable || reply == Refusal(false) || (reply != Receipt && 6 <= row.attempts))
            && (status == Pending <==> usable && reply in {Raised, Refusal(true)} && row.attempts < 6)
  {
  }

  /** A delivery without a receipt is due again exactly when the backoff of its attempt has
      passed; an error that is not transient, a missing target or the sixth attempt never
      is. */
  lemma FailureWaitsItsBackoff(row: NotificationRow, reply: Reply, now: real, later: real)
    requires 1 <= row.attempts
    ensures Due(DeliveredRow(row, reply, now), later) <==>
              && Usable(row.target) && reply in {Raised, Refusal(true)} && row.attempts < 6
              && now + (match row.attempts
                        case 1 => 5.0
                        case 2 => 15.0
                        case 3 => 60.0
                        case 4 => 300.0
                        case _ => 900.0) <= later
  {
  }

  // ---- draining -------------------------------------------------------------------

  /** How many more claims of the row a lone worker can need. */
  function Left(row: NotificationRow): nat {
    if !Unfinished(row) then 0 else Max(1, MAX_ATTEMPTS - row.attempts)
  }

  ghost function Pick(ids: set<string>): (id: string)
    requires ids != {}
    ensures id in ids
  {
    var id :| id in ids; id
  }

  ghost function WorkOver(t: Notifications, ids: set<string>): nat
    requires ids <= t.Keys
    decreases |ids|
  {
    if ids == {} then 0 else Left(t[Pick(ids)]) + WorkOver(t, ids - {Pick(ids)})
  }

  ghost function Work(t: Notifications): nat {
    WorkOver(t, t.Keys)
  }

  lemma {:induction false} WorkBound(t: Notifications, ids: set<string>)
    requires ids <= t.Keys
    ensures WorkOver(t, ids) <= MAX_ATTEMPTS * |ids|
    decreases |ids|
  {
    if ids == {} {
    } else {
      WorkBound(t, ids - {Pick(ids)});
    }
  }

  lemma {:induction false} WorkDrops(t: Notifications, t': Notifications, ids: set<string>)
    requires ids <= t.Keys && ids <= t'.Keys
    requires forall id :: id in ids ==> Left(t'[id]) <= Left(t[id])
    ensures WorkOver(t', ids) <= WorkOver(t, ids)
    ensures (exists id :: id in ids && Left(t'[id]) < Left(t[id])) ==> WorkOver(t', ids) < WorkOver(t, ids)
    decreases |ids|
  {
    if ids == {} {
    } else {
      WorkDrops(t, t', ids - {Pick(ids)});
    }
  }

  lemma {:induction false} NoWorkMeansFinished(t: Notifications, ids: set<string>)
    requires ids <= t.Keys
    ensures WorkOver(t, ids) == 0 <==> forall id :: id in ids ==> !Unfinished(t[id])
    decreases |ids|
  {
    if ids == {} {
    } else {
      NoWorkMeansFinished(t, ids - {Pick(ids)});
    }
  }

  lemma DeliveryDoesWork(row: NotificationRow, worker: string, until: real, reply: Reply, now: real)
    requires Due(RequeueRow(row, now), now)
    ensures Left(DeliveredRow(LeaseRow(RequeueRow(row, now), worker, until), reply, now)) < Left(row)
  {
  }

  lemma DrainMovesRow(
      t: Notifications, ids: seq<string>, worker: string, until: real, send: string -> Reply, now: real, id: string)
    requires id in t && (id in ids ==> Due(RequeueRow(t[id], now), now))
    ensures var t' := Drained(t, ids, worker, until, send, now);
            id in t' && if id in ids then Left(t'[id]) < Left(t[id]) else Left(t'[id]) == Left(t[id])
  {
    if id in ids { DeliveryDoesWork(t[id], worker, until, send(id), now); }
  }

  /** Every claimed row of a pass ends sent, failed, or one attempt closer to it;
      every other row keeps what it had left. */
  lemma PassMovesRow(t: Notifications, log: PassLog, limit: nat, t': Notifications, id: string)
    requires IsPass(t, log, limit, t') && id in t
    ensures id in t' && if id in log.ids then Left(t'[id]) < Left(t[id]) else Left(t'[id]) == Left(t[id])
  {
    PassClaimsDue(t, log, limit, t');
    DrainMovesRow(t, log.ids, log.worker, LeaseEnd(log.now, log.lease), log.send, log.now, id);
  }

  lemma PassDoesWork(t: Notifications, log: PassLog, limit: nat, t': Notifications)
    requires IsPass(t, log, limit, t')
    ensures t'.Keys == t.Keys
    ensures if log.ids == [] then Work(t') <= Work(t) else Work(t') < Work(t)
  {
    forall id | id in t ensures if id in log.ids then Left(t'[id]) < Left(t[id]) else Left(t'[id]) == Left(t[id]) {
      PassMovesRow(t, log, limit, t', id);
    }
    WorkDrops(t, t', t.Keys);
    if log.ids != [] {
      var id := log.ids[0];
      assert id in DueIds(Requeued(t, log.now), log.now) && Left(t'[id]) < Left(t[id]);
    }
  }

  /** At `now` the deadlines of all unfinished rows have come. */
  ghost predicate Ready(t: Notifications, now: real) {
    forall id :: id in t && Unfinished(t[id]) ==> Due(RequeueRow(t[id], now), now)
  }

  lemma ReadyPassIsProductive(t: Notifications, log: PassLog, limit: nat, t': Notifications)
    requires IsPass(t, log, limit, t') && Ready(t, log.now) && 1 <= limit && Work(t) > 0
    ensures log.ids != []
  {
    NoWorkMeansFinished(t, t.Keys);
    var id :| id in t && Unfinished(t[id]);
    assert id in DueIds(Requeued(t, log.now), log.now);
  }

  ghost predicate ArePasses(ts: seq<Notifications>, logs: seq<PassLog>, limit: nat) {
    && |ts| == |logs| + 1
    && forall i :: 0 <= i < |logs| ==> IsPass(ts[i], logs[i], limit, ts[i + 1])
  }

  function Productive(logs: seq<PassLog>): nat {
    if logs == [] then 0 else (if logs[0].ids == [] then 0 else 1) + Productive(logs[1..])
  }

  lemma {:induction false} PassesSpendWork(ts: seq<Notifications>, logs: seq<PassLog>, limit: nat)
    requires ArePasses(ts, logs, limit)
    ensures Productive(logs) + Work(ts[|logs|]) <= Work(ts[0])
    decreases |logs|
  {
    if logs == [] {
    } else {
      PassDoesWork(ts[0], logs[0], limit, ts[1]);
      assert ArePasses(ts[1..], logs[1..], limit) by {
        forall i | 0 <= i < |logs[1..]| ensures IsPass(ts[1..][i], logs[1..][i], limit, ts[1..][i + 1]) {
          assert IsPass(ts[i + 1], logs[i + 1], limit, ts[i + 2]);
        }
      }
      PassesSpendWork(ts[1..], logs[1..], limit);
    }
  }

  /** However the platform answers, whatever the limit and the order, a lone worker
      has at most six productive passes per row before nothing is left to claim. */
  lemma DrainIsBounded(ts: seq<Notifications>, logs: seq<PassLog>, limit: nat)
    requires ArePasses(ts, logs, limit)
    ensures Productive(logs) <= MAX_ATTEMPTS * |ts[0]|
  {
    PassesSpendWork(ts, logs, limit);
    WorkBound(ts[0], ts[0].Keys);
  }

  lemma {:induction false} AllProductive(logs: seq<PassLog>)
    ensures (forall i :: 0 <= i < |logs| ==> logs[i].ids != []) ==> Productive(logs) == |logs|
    decreases |logs|
  {
    if logs == [] {
    } else {
      AllProductive(logs[1..]);
      assert forall i :: 0 <= i < |logs[1..]| ==> logs[1..][i] == logs[i + 1];
    }
  }

  lemma {:induction false} FinishedStaysFinished(ts: seq<Notifications>, logs: seq<PassLog>, limit: nat, i: nat)
    requires ArePasses(ts, logs, limit) && i <= |logs| && Work(ts[i]) == 0
    ensures Work(ts[|logs|]) == 0
    decreases |logs| - i
  {
    if i < |logs| {
      PassDoesWork(ts[i], logs[i], limit, ts[i + 1]);
      FinishedStaysFinished(ts, logs, limit, i + 1);
    }
  }

  /** If every pass runs when the deadlines have come, 6 N passes leave each of the
      N rows sent or failed, whatever the per-tick limit. */
  lemma DrainFinishes(ts: seq<Notifications>, logs: seq<PassLog>, limit: nat)
    requires ArePasses(ts, logs, limit) && 1 <= limit
    requires forall i :: 0 <= i < |logs| ==> Ready(ts[i], logs[i].now)
    requires MAX_ATTEMPTS * |ts[0]| <= |logs|
    ensures forall id :: id in ts[|logs|] ==> ts[|logs|][id].status in {Sent, Failed}
  {
    var last := ts[|logs|];
    if i :| 0 <= i < |logs| && logs[i].ids == [] {
      if Work(ts[i]) > 0 { ReadyPassIsProductive(ts[i], logs[i], limit, ts[i + 1]); }
      FinishedStaysFinished(ts, logs, limit, i);
    } else {
      AllProductive(logs);
      PassesSpendWork(ts, logs, limit);
      WorkBound(ts[0], ts[0].Keys);
    }
    NoWorkMeansFinished(last, last.Keys);
    forall id | id in last ensures last[id].status in {Sent, Failed} { assert !Unfinished(last[id]); }
  }

  class OutboxWorker {
    const registry: Registry
    const workerId: string
    const leaseSeconds: real
    const maxPerTick: nat

    constructor (registry: Registry, workerId: string, leaseSeconds: real, maxPerTick: nat)
      ensures this.registry == registry && this.workerId == workerId
      ensures this.leaseSeconds == leaseSeconds && this.maxPerTick == maxPerTick
    {
      this.registry, this.workerId, this.leaseSeconds, this.maxPerTick := registry, workerId, leaseSeconds, maxPerTick;
    }

    /** One drain pass: claim what is due, deliver each row once. */
    method RunOnce(now: real, send: string -> Reply) returns (claimed: nat, ghost ids: seq<string>)
      modifies registry`notifications
      ensures registry.closed ==> claimed == 0 && registry.notifications == old(registry.notifications)
      ensures !registry.closed ==>
                && claimed == |ids|
                && IsPass(old(registry.notifications), PassLog(ids, workerId, leaseSeconds, send, now), maxPerTick,
                          registry.notifications)
    {
      ghost var before := registry.notifications;
      var due := registry.ClaimNotifications(now, workerId, leaseSeconds, maxPerTick);
      ids, claimed := due, |due|;
      if !registry.closed {
        ClaimedRows(before, due, workerId, now, LeaseEnd(now, leaseSeconds), maxPerTick);
        ghost var leased := registry.notifications;
        DeliverAll(due, now, send);
        ClaimThenDeliveries(before, PassLog(due, workerId, leaseSeconds, send, now), maxPerTick, leased,
                            registry.notifications);
      }
    }

    method DeliverAll(due: seq<string>, now: real, send: string -> Reply)
      requires !registry.closed && Distinct(due)
      requires forall id :: id in due ==> id in registry.notifications && 1 <= registry.notifications[id].attempts
      modifies registry`notifications
      ensures registry.notifications == DeliveredTo(old(registry.notifications), due, send, now)
    {
      ghost var t := registry.notifications;
      NothingDelivered(t, send, now);
      var i := 0;
      while i < |due|
        invariant 0 <= i <= |due|
        invariant registry.notifications == DeliveredTo(t, due[..i], send, now)
      {
        NextDelivery(t, due, i, send, now);
        DeliverOne(due[i], registry.notifications[due[i]], now, send);
        i := i + 1;
      }
      assert due[..|due|] == due;
    }

    /** Delivers a claimed row once, from the columns the claim returned. */
    method DeliverOne(id: string, row: NotificationRow, now: real, send: string -> Reply)
      requires !registry.closed && id in registry.notifications && registry.notifications[id] == row
      requires 1 <= row.attempts
      modifies registry`notifications
      ensures registry.notifications == old(registry.notifications)[id := DeliveredRow(row, send(id), now)]
      ensures var status, usable := registry.notifications[id].status, row.target.Some? && row.target.value != "";
              && (status == Sent <==> usable && send(id) == Receipt)
              && (status == Failed <==>
                    !usable || send(id) == Refusal(false) || (send(id) != Receipt && 6 <= row.attempts))
              && (status == Sent ==> registry.notifications[id].sentAt == Some(now))
    {
      DeliveryOutcome(row, send(id), now);
      if row.target.None? || row.target.value == "" {
        MarkFailed(id, row.attempts, false, now);
        return;
      }
      match send(id)
      case Raised => MarkFailed(id, row.attempts, true, now);
      case Receipt => registry.SetNotificationSent(id, now);
      case Refusal(transient) => MarkFailed(id, row.attempts, transient, now);
    }

    method MarkFailed(id: string, attempts: nat, transient: bool, now: real)
      requires !registry.closed && id in registry.notifications && 1 <= attempts
      modifies registry`notifications
      ensures registry.notifications == old(registry.notifications)[id :=
                RecordOutcome(old(registry.notifications)[id], attempts,
                              if transient then TransientFailure else PermanentFailure, now)]
      ensures registry.notifications[id].status == if transient && attempts < 6 then Pending else Failed
    {
      if transient && attempts < MAX_ATTEMPTS {
        var delay := RETRY_BACKOFF_SECONDS[Min(attempts - 1, |RETRY_BACKOFF_SECONDS| - 1)];
        registry.SetNotificationRetry(id, now + delay);
      } else {
        registry.FailNotification(id);
      }
    }
  }
}
