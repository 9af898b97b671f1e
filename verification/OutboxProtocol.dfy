/**
 The notification outbox under any number of workers. Each claimed row becomes
 one delivery that a worker carries through on its own; workers may be slow,
 stale or dead. The writes that record an outcome are unguarded, as in the
 original, so a stale worker may overwrite what another one recorded.
 */
module OutboxProtocol {
  import opened Wrappers
  import opened Rows
  import opened RegistryDb

  const MAX_ATTEMPTS := 6
  const RETRY_BACKOFF_SECONDS: seq<real> := [5.0, 15.0, 60.0, 300.0, 900.0]

  /** What the host's send tool does: a receipt, an error text that classifies as
      transient or not, or an exception. */
  datatype Reply = Receipt | Refusal(transient: bool) | Raised

  datatype Outcome = Delivered | TransientFailure | PermanentFailure

  /** A notice without a target can be sent nowhere. */
  predicate Usable(target: Option<string>) {
    target.Some? && target.value != ""
  }

  function OutcomeOf(target: Option<string>, reply: Reply): Outcome {
    if !Usable(target) then PermanentFailure
    else match reply
      case Receipt => Delivered
      case Refusal(transient) => if transient then TransientFailure else PermanentFailure
      case Raised => TransientFailure
  }

  /** `attempt` is the number of the claim, as the claimed row carries it. */
  function RecordOutcome(row: NotificationRow, attempt: nat, outcome: Outcome, now: real): NotificationRow
    requires 1 <= attempt
  {
    match outcome
    case Delivered => SentRow(row, now)
    case TransientFailure =>
      if attempt < MAX_ATTEMPTS then RetryRow(row, now + RETRY_BACKOFF_SECONDS[Min(attempt - 1, 4)])
      else FailRow(row)
    case PermanentFailure => FailRow(row)
  }

  datatype Delivery = Delivery(id: string, attempt: nat, outcome: Option<Outcome>)

  /** Histories: `expiries` counts the leases that ran out, `sends` the messages the
      platform accepted, `retried` the claims that went back to pending through the
      backoff, `refused` the rows that had no target or were answered with an error that
      is not transient. */
  datatype System = System(
    rows: Notifications,
    flights: map<nat, Delivery>,
    next: nat,
    expiries: multiset<string>,
    sends: multiset<string>,
    retried: set<(string, nat)>,
    refused: set<string>)

  datatype Action =
    | Enqueue(id: string, row: NotificationRow)
    | Requeue(now: real)
    | Claim(id: string, worker: string, now: real, lease: real)
    | Send(flight: nat, reply: Reply)
    | Record(flight: nat, now: real)
    | Crash(flight: nat)

  predicate NewRow(row: NotificationRow) {
    && row.status == Pending && row.attempts == 0
    && row.nextRetryAt.None? && row.leaseUntil.None? && row.sentAt.None?
  }

  /** One row of a claim. A batch is a requeue followed by one of these per row. */
  function DoClaim(s: System, id: string, worker: string, now: real, lease: real): System {
    if id !in s.rows || !Due(s.rows[id], now) || lease < 0.0 then s
    else s.(rows := s.rows[id := LeaseRow(s.rows[id], worker, LeaseEnd(now, lease))],
            flights := s.flights[s.next := Delivery(id, s.rows[id].attempts + 1, None)],
            next := s.next + 1)
  }

  function DoSend(s: System, f: nat, reply: Reply): System {
    if f !in s.flights || s.flights[f].outcome.Some? || s.flights[f].id !in s.rows then s
    else
      var d := s.flights[f];
      var outcome := OutcomeOf(s.rows[d.id].target, reply);
      s.(flights := s.flights[f := d.(outcome := Some(outcome))],
         sends := if Usable(s.rows[d.id].target) && reply.Receipt? then s.sends[d.id := s.sends[d.id] + 1] else s.sends,
         refused := if !Usable(s.rows[d.id].target) || reply == Refusal(false) then s.refused + {d.id} else s.refused)
  }

  predicate Retries(d: Delivery) {
    d.outcome == Some(TransientFailure) && d.attempt < MAX_ATTEMPTS
  }

  function DoRecord(s: System, f: nat, now: real): System {
    if f !in s.flights || s.flights[f].outcome.None? then s
    else
      var d := s.flights[f];
      if d.id !in s.rows || d.attempt < 1 then s
      else s.(flights := s.flights - {f},
              rows := s.rows[d.id := RecordOutcome(s.rows[d.id], d.attempt, d.outcome.value, now)],
              retried := if Retries(d) then s.retried + {(d.id, d.attempt)} else s.retried)
  }

  function Apply(s: System, a: Action): System {
    match a
    case Enqueue(id, row) =>
      if id in s.rows || !NewRow(row) then s else s.(rows := s.rows[id := row])
    case Requeue(now) =>
      s.(rows := Requeued(s.rows, now), expiries := s.expiries + multiset(ExpiredIds(s.rows, now)))
    case Claim(id, worker, now, lease) => DoClaim(s, id, worker, now, lease)
    case Send(f, reply) => DoSend(s, f, reply)
    case Record(f, now) => DoRecord(s, f, now)
    case Crash(f) => s.(flights := s.flights - {f})
  }

  function Run(s: System, acts: seq<Action>): System
    decreases |acts|
  {
    if acts == [] then s else Run(Apply(s, acts[0]), acts[1..])
  }

  const START := System(map[], map[], 0, multiset{}, multiset{}, {}, {})

  // ---- what holds of each row -------------------------------------------------

  function Carried(s: System, id: string): set<nat> {
    set f | f in s.flights && s.flights[f].id == id && s.flights[f].outcome != Some(Delivered)
  }

  function Waiting(row: NotificationRow): nat {
    if row.status == Pending then 1 else 0
  }

  function RetriedClaims(s: System, id: string): (r: set<nat>)
    ensures |r| <= MAX_ATTEMPTS - 1
  {
    var r := set n | n in {1, 2, 3, 4, 5} && (id, n) in s.retried;
    SubsetSize(r, {1, 2, 3, 4, 5});
    r
  }

  lemma {:induction false} SubsetSize<T>(a: set<T>, b: set<T>)
    requires a <= b
    ensures |a| <= |b|
    decreases |b|
  {
    if b != {} {
      var x :| x in b;
      SubsetSize(a - {x}, b - {x});
    }
  }

  ghost predicate FlightInv(s: System, f: nat)
    requires f in s.flights
  {
    var d := s.flights[f];
    && f < s.next && d.id in s.rows
    && 1 <= d.attempt <= s.rows[d.id].attempts
    && (d.id, d.attempt) !in s.retried
    && (d.outcome == Some(Delivered) ==> 1 <= s.sends[d.id])
    && (d.outcome == Some(PermanentFailure) ==> d.id in s.refused)
  }

  ghost predicate DistinctClaims(s: System) {
    forall f, g | f in s.flights && g in s.flights && f != g && s.flights[f].id == s.flights[g].id ::
      s.flights[f].attempt != s.flights[g].attempt
  }

  /** The two balances that bound duplicates and attempts. */
  ghost predicate Balanced(s: System, id: string)
    requires id in s.rows
  {
    && |Carried(s, id)| + Waiting(s.rows[id]) + s.sends[id] <= 1 + s.expiries[id]
    && s.rows[id].attempts + Waiting(s.rows[id]) <= 1 + s.expiries[id] + |RetriedClaims(s, id)|
  }

  ghost predicate RowInv(s: System, id: string)
    requires id in s.rows
  {
    var row := s.rows[id];
    && (row.status == Leased ==>
          && row.leaseUntil.Some?
          && (row.nextRetryAt.Some? ==> row.nextRetryAt.value <= row.leaseUntil.value))
    && (row.status == Sent ==> 1 <= s.sends[id])
    && (row.status == Failed ==> id in s.refused || MAX_ATTEMPTS <= row.attempts)
  }

  ghost predicate KeptRow(s: System, id: string)
    requires id in s.rows
  {
    Balanced(s, id) && RowInv(s, id)
  }

  lemma EnqueueKeepsRow(s: System, id: string, row: NotificationRow, j: string)
    requires id !in s.rows && NewRow(row) && s.sends[id] == 0
    requires forall f :: f in s.flights ==> s.flights[f].id != id
    requires j == id || (j in s.rows && KeptRow(s, j))
    ensures KeptRow(s.(rows := s.rows[id := row]), j)
  {
    var s' := s.(rows := s.rows[id := row]);
    assert RetriedClaims(s', j) == RetriedClaims(s, j);
    assert Carried(s', j) == if j == id then {} else Carried(s, j);
  }

  lemma RequeueKeepsRow(s: System, now: real, j: string)
    requires j in s.rows && KeptRow(s, j)
    ensures KeptRow(Apply(s, Requeue(now)), j)
  {
    var s' := Apply(s, Requeue(now));
    assert Carried(s', j) == Carried(s, j) && RetriedClaims(s', j) == RetriedClaims(s, j);
  }

  /** Nothing a row's balances look at has changed. */
  lemma SameRowStaysKept(s: System, s': System, j: string)
    requires j in s.rows && KeptRow(s, j) && j in s'.rows && s'.rows[j] == s.rows[j]
    requires s'.sends[j] == s.sends[j] && s'.expiries[j] == s.expiries[j] && s.refused <= s'.refused
    requires Carried(s', j) == Carried(s, j) && RetriedClaims(s', j) == RetriedClaims(s, j)
    ensures KeptRow(s', j)
  {
  }

  lemma ClaimMovesToken(s: System, id: string, worker: string, now: real, lease: real)
    requires s.next !in s.flights
    ensures var s' := DoClaim(s, id, worker, now, lease);
            s' == s || Carried(s', id) == Carried(s, id) + {s.next}
  {
  }

  lemma ClaimKeepsClaimed(s: System, id: string, worker: string, now: real, lease: real)
    requires id in s.rows && KeptRow(s, id) && s.next !in s.flights
    ensures KeptRow(DoClaim(s, id, worker, now, lease), id)
  {
    var s' := DoClaim(s, id, worker, now, lease);
    ClaimMovesToken(s, id, worker, now, lease);
    assert RetriedClaims(s', id) == RetriedClaims(s, id);
    if s' != s {
      assert s'.rows[id] == LeaseRow(s.rows[id], worker, LeaseEnd(now, lease));
      assert RowInv(s', id);
    }
  }

  lemma ClaimKeepsRow(s: System, id: string, worker: string, now: real, lease: real, j: string)
    requires j in s.rows && KeptRow(s, j) && s.next !in s.flights
    ensures KeptRow(DoClaim(s, id, worker, now, lease), j)
  {
    var s' := DoClaim(s, id, worker, now, lease);
    if j == id {
      ClaimKeepsClaimed(s, id, worker, now, lease);
    } else {
      SameRowStaysKept(s, s', j);
    }
  }

  lemma SendKeepsSent(s: System, f: nat, reply: Reply)
    requires f in s.flights && s.flights[f].id in s.rows && KeptRow(s, s.flights[f].id)
    ensures KeptRow(DoSend(s, f, reply), s.flights[f].id)
  {
    var s' := DoSend(s, f, reply);
    var j := s.flights[f].id;
    assert RetriedClaims(s', j) == RetriedClaims(s, j);
    if s' != s {
      assert f in Carried(s, j);
      assert Carried(s', j) == if s'.flights[f].outcome == Some(Delivered) then Carried(s, j) - {f} else Carried(s, j);
    }
  }

  lemma SendKeepsRow(s: System, f: nat, reply: Reply, j: string)
    requires j in s.rows && KeptRow(s, j)
    ensures KeptRow(DoSend(s, f, reply), j)
  {
    var s' := DoSend(s, f, reply);
    if s' != s {
      if j == s.flights[f].id {
        SendKeepsSent(s, f, reply);
      } else {
        SameRowStaysKept(s, s', j);
      }
    }
  }

  lemma RecordMovesTokens(s: System, f: nat, now: real)
    requires f in s.flights && FlightInv(s, f) && s.flights[f].outcome.Some?
    ensures var s', d := DoRecord(s, f, now), s.flights[f];
            && Carried(s', d.id) == Carried(s, d.id) - {f}
            && (d.outcome != Some(Delivered) ==> f in Carried(s, d.id))
            && |RetriedClaims(s', d.id)| == |RetriedClaims(s, d.id)| + if Retries(d) then 1 else 0
  {
    var s', d := DoRecord(s, f, now), s.flights[f];
    if Retries(d) {
      assert d.attempt !in RetriedClaims(s, d.id) && d.attempt in {1, 2, 3, 4, 5};
      assert RetriedClaims(s', d.id) == RetriedClaims(s, d.id) + {d.attempt};
    } else {
      assert RetriedClaims(s', d.id) == RetriedClaims(s, d.id);
    }
  }

  lemma OutcomeKeepsRowInv(s: System, f: nat, now: real)
    requires f in s.flights && FlightInv(s, f) && RowInv(s, s.flights[f].id)
    ensures RowInv(DoRecord(s, f, now), s.flights[f].id)
  {
  }

  lemma RecordKeepsRecorded(s: System, f: nat, now: real)
    requires f in s.flights && FlightInv(s, f) && s.flights[f].outcome.Some? && KeptRow(s, s.flights[f].id)
    ensures KeptRow(DoRecord(s, f, now), s.flights[f].id)
  {
    RecordMovesTokens(s, f, now);
    OutcomeKeepsRowInv(s, f, now);
    var d := s.flights[f];
    assert DoRecord(s, f, now).rows[d.id] == RecordOutcome(s.rows[d.id], d.attempt, d.outcome.value, now);
  }

  lemma RecordKeepsRow(s: System, f: nat, now: real, j: string)
    requires j in s.rows && KeptRow(s, j)
    requires f in s.flights ==> FlightInv(s, f)
    ensures KeptRow(DoRecord(s, f, now), j)
  {
    var s' := DoRecord(s, f, now);
    if s' != s {
      if j == s.flights[f].id {
        RecordKeepsRecorded(s, f, now);
      } else {
        SameRowStaysKept(s, s', j);
      }
    }
  }

  lemma CrashKeepsRow(s: System, f: nat, j: string)
    requires j in s.rows && KeptRow(s, j)
    ensures KeptRow(s.(flights := s.flights - {f}), j)
  {
    var s' := s.(flights := s.flights - {f});
    assert RetriedClaims(s', j) == RetriedClaims(s, j);
    assert Carried(s', j) == Carried(s, j) - {f};
  }

  ghost predicate FlightsInv(s: System) {
    && (forall f :: f in s.flights ==> FlightInv(s, f))
    && DistinctClaims(s)
    && (forall id, n :: (id, n) in s.retried ==> id in s.rows && 1 <= n <= s.rows[id].attempts && n < MAX_ATTEMPTS)
    && (forall id :: id !in s.rows ==> s.sends[id] == 0 && s.expiries[id] == 0)
  }

  ghost predicate Inv(s: System) {
    FlightsInv(s) && forall id :: id in s.rows ==> KeptRow(s, id)
  }

  lemma QueueStepKeepsFlights(s: System, a: Action)
    requires FlightsInv(s) && (a.Enqueue? || a.Requeue? || a.Crash?)
    ensures FlightsInv(Apply(s, a))
  {
    var s' := Apply(s, a);
    forall f | f in s'.flights ensures FlightInv(s', f) { assert FlightInv(s, f); }
  }

  lemma ClaimKeepsFlights(s: System, id: string, worker: string, now: real, lease: real)
    requires FlightsInv(s)
    ensures FlightsInv(DoClaim(s, id, worker, now, lease))
    ensures s.next !in s.flights
  {
    var s' := DoClaim(s, id, worker, now, lease);
    forall f | f in s.flights ensures f < s.next { assert FlightInv(s, f); }
    forall f | f in s'.flights ensures FlightInv(s', f) {
      if f in s.flights { assert FlightInv(s, f); }
    }
  }

  lemma SendKeepsFlights(s: System, f: nat, reply: Reply)
    requires FlightsInv(s)
    ensures FlightsInv(DoSend(s, f, reply))
  {
    var s' := DoSend(s, f, reply);
    forall g | g in s'.flights ensures FlightInv(s', g) { assert FlightInv(s, g); }
  }

  lemma RecordKeepsFlights(s: System, f: nat, now: real)
    requires FlightsInv(s)
    ensures FlightsInv(DoRecord(s, f, now))
  {
    var s' := DoRecord(s, f, now);
    if s' != s {
      assert FlightInv(s, f);
      forall g | g in s'.flights ensures FlightInv(s', g) { assert FlightInv(s, g); }
    }
  }

  lemma StepKeepsInv(s: System, a: Action)
    requires Inv(s)
    ensures Inv(Apply(s, a))
  {
    var s' := Apply(s, a);
    match a {
      case Claim(id, worker, now, lease) => ClaimKeepsFlights(s, id, worker, now, lease);
      case Send(f, reply) => SendKeepsFlights(s, f, reply);
      case Record(f, now) => RecordKeepsFlights(s, f, now);
      case _ => QueueStepKeepsFlights(s, a);
    }
    forall j | j in s'.rows ensures KeptRow(s', j) {
      match a {
        case Enqueue(id, row) =>
          if s' != s {
            forall f | f in s.flights ensures s.flights[f].id != id { assert FlightInv(s, f); }
            EnqueueKeepsRow(s, id, row, j);
          }
        case Requeue(now) => RequeueKeepsRow(s, now, j);
        case Claim(id, worker, now, lease) => ClaimKeepsRow(s, id, worker, now, lease, j);
        case Send(f, reply) => SendKeepsRow(s, f, reply, j);
        case Record(f, now) => RecordKeepsRow(s, f, now, j);
        case Crash(f) => CrashKeepsRow(s, f, j);
      }
    }
  }

  lemma {:induction false} RunKeepsInv(s: System, acts: seq<Action>)
    requires Inv(s)
    ensures Inv(Run(s, acts))
    decreases |acts|
  {
    if acts == [] {
    } else {
      StepKeepsInv(s, acts[0]);
      RunKeepsInv(Apply(s, acts[0]), acts[1..]);
    }
  }

  lemma Reachable(acts: seq<Action>)
    ensures Inv(Run(START, acts))
  {
    RunKeepsInv(START, acts);
  }

  // ---- the results -------------------------------------------------------------

  /** Duplicates are bounded by expired leases, stale workers included: a message
      goes out at most once, plus once per lease of its row that ran out. */
  lemma DuplicatesWithinExpiries(acts: seq<Action>, id: string)
    ensures var s := Run(START, acts);
            && s.sends[id] <= 1 + s.expiries[id]
            && (id in s.rows ==> |Carried(s, id)| + Waiting(s.rows[id]) + s.sends[id] <= 1 + s.expiries[id])
  {
    Reachable(acts);
    if id in Run(START, acts).rows { assert KeptRow(Run(START, acts), id); }
  }

  /** However many workers die or lag, a row is claimed at most six times, plus
      once per lease of it that ran out. */
  lemma ClaimsWithinBudget(acts: seq<Action>, id: string)
    requires id in Run(START, acts).rows
    ensures var s := Run(START, acts); s.rows[id].attempts <= MAX_ATTEMPTS + s.expiries[id]
  {
    Reachable(acts);
    assert KeptRow(Run(START, acts), id);
  }

  /** The deliveries of a row that are under way. */
  function UnderWay(s: System, id: string): set<nat> {
    set f | f in s.flights && s.flights[f].id == id
  }

  /** Nothing in the run records one of `flights`, or requeues at `until` or later. */
  predicate Undisturbed(acts: seq<Action>, flights: set<nat>, until: real) {
    forall i :: 0 <= i < |acts| ==>
      && (acts[i].Record? ==> acts[i].flight !in flights)
      && (acts[i].Requeue? ==> acts[i].now < until)
  }

  lemma LeaseProtectsStep(s: System, a: Action, id: string, flights: set<nat>, until: real)
    requires id in s.rows && s.rows[id].status == Leased && s.rows[id].leaseUntil == Some(until)
    requires UnderWay(s, id) <= flights && Undisturbed([a], flights, until)
    ensures id in Apply(s, a).rows && Apply(s, a).rows[id] == s.rows[id] && UnderWay(Apply(s, a), id) <= flights
  {
    assert [a][0] == a;
    match a
    case Send(f, reply) => assert UnderWay(DoSend(s, f, reply), id) == UnderWay(s, id);
    case Claim(j, worker, now, lease) => assert DoClaim(s, j, worker, now, lease) != s ==> j != id;
    case _ =>
  }

  lemma {:induction false} LeaseProtectsRun(s: System, acts: seq<Action>, id: string, flights: set<nat>, until: real)
    requires id in s.rows && s.rows[id].status == Leased && s.rows[id].leaseUntil == Some(until)
    requires UnderWay(s, id) <= flights && Undisturbed(acts, flights, until)
    ensures id in Run(s, acts).rows && Run(s, acts).rows[id] == s.rows[id]
    decreases |acts|
  {
    if acts == [] {
    } else {
      LeaseProtectsStep(s, acts[0], id, flights, until);
      LeaseProtectsRun(Apply(s, acts[0]), acts[1..], id, flights, until);
    }
  }

  /** A claim protects its row for as long as its lease lasts: whatever other workers do
      in that time - as long as no delivery of the row is recorded - the row stays as it
      was claimed, and the next claim can take it exactly from the end of the lease. */
  lemma LeaseProtects(s: System, id: string, worker: string, now: real, lease: real, acts: seq<Action>, later: real)
    requires id in s.rows && Due(s.rows[id], now) && 0.0 <= lease
    requires var s1 := Apply(s, Claim(id, worker, now, lease)); Undisturbed(acts, UnderWay(s1, id), now + lease)
    ensures var s1 := Apply(s, Claim(id, worker, now, lease));
            && id in Run(s1, acts).rows
            && Run(s1, acts).rows[id] == s.rows[id].(status := Leased, workerId := Some(worker),
                                                     leaseUntil := Some(now + lease),
                                                     attempts := s.rows[id].attempts + 1)
            && (Claimable(Run(s1, acts).rows[id], later) <==> now + lease <= later)
  {
    var s1 := Apply(s, Claim(id, worker, now, lease));
    LeaseProtectsRun(s1, acts, id, UnderWay(s1, id), now + lease);
  }

  /** The time from which the next claim takes the row up; no value means at once. */
  function ClaimableFrom(row: NotificationRow): Timestamp {
    if row.status == Leased then row.leaseUntil else row.nextRetryAt
  }

  predicate Unfinished(row: NotificationRow) {
    row.status == Pending || row.status == Leased
  }

  /** Nothing is stranded: an unfinished row is due in a claim exactly from a time
      its own columns tell. */
  lemma ClaimableExactlyFrom(acts: seq<Action>, id: string, now: real)
    requires id in Run(START, acts).rows && Unfinished(Run(START, acts).rows[id])
    ensures var row := Run(START, acts).rows[id];
            Claimable(row, now) <==> (ClaimableFrom(row).Some? ==> ClaimableFrom(row).value <= now)
  {
    Reachable(acts);
    assert KeptRow(Run(START, acts), id);
  }

  /** Terminal statuses are earned: 'sent' by a receipt, 'failed' by a missing target, an
      error that is not transient, or six claims; and a lease always carries its deadline. */
  lemma StatusesAreEarned(acts: seq<Action>, id: string)
    requires id in Run(START, acts).rows
    ensures var s := Run(START, acts);
            && (s.rows[id].status == Sent ==> 1 <= s.sends[id])
            && (s.rows[id].status == Failed ==> id in s.refused || 6 <= s.rows[id].attempts)
            && (s.rows[id].status == Leased ==> s.rows[id].leaseUntil.Some?)
  {
    Reachable(acts);
    assert KeptRow(Run(START, acts), id);
  }

  ghost predicate SameNotices(a: Notifications, b: Notifications) {
    forall id :: id in a ==>
      id in b && b[id].taskId == a[id].taskId && b[id].kind == a[id].kind && b[id].target == a[id].target
  }

  lemma StepKeepsNotices(s: System, a: Action)
    ensures SameNotices(s.rows, Apply(s, a).rows)
  {
  }

  /** No run loses a notice or changes whom it is for. */
  lemma {:induction false} NoticesAreNeverLost(s: System, acts: seq<Action>)
    ensures SameNotices(s.rows, Run(s, acts).rows)
    decreases |acts|
  {
    if acts == [] {
    } else {
      StepKeepsNotices(s, acts[0]);
      NoticesAreNeverLost(Apply(s, acts[0]), acts[1..]);
    }
  }

  predicate StaleFailure(s: System, a: Action, id: string) {
    && a.Record? && a.flight in s.flights && s.flights[a.flight].id == id
    && s.flights[a.flight].outcome in {Some(TransientFailure), Some(PermanentFailure)}
  }

  lemma SentStep(s: System, a: Action, id: string)
    requires id in s.rows && s.rows[id].status == Sent
    requires a.Record? && a.flight in s.flights ==> FlightInv(s, a.flight)
    ensures id in Apply(s, a).rows
    ensures Apply(s, a).rows[id].status != Sent <==> StaleFailure(s, a, id)
  {
    if !a.Record? { assert Apply(s, a).rows[id].status == Sent; }
  }

  /** The documented 'sent' is final only while no stale delivery is left: it is
      overwritten exactly when a delivery of the same row that did not get through
      is recorded, and such a delivery exists only after a lease has run out. */
  lemma SentIsLeftExactlyByStaleFailure(acts: seq<Action>, a: Action, id: string)
    requires id in Run(START, acts).rows && Run(START, acts).rows[id].status == Sent
    ensures var s := Run(START, acts);
            && id in Apply(s, a).rows
            && (Apply(s, a).rows[id].status != Sent <==> StaleFailure(s, a, id))
            && (StaleFailure(s, a, id) ==> 1 <= s.expiries[id])
  {
    Reachable(acts);
    var s := Run(START, acts);
    SentStep(s, a, id);
    if StaleFailure(s, a, id) {
      assert KeptRow(s, id) && a.flight in Carried(s, id);
      SubsetSize({a.flight}, Carried(s, id));
    }
  }

  lemma {:induction false} RunSnoc(s: System, acts: seq<Action>, a: Action)
    ensures Run(s, acts + [a]) == Apply(Run(s, acts), a)
    decreases |acts|
  {
    if acts == [] {
      assert [a][1..] == [];
    } else {
      assert (acts + [a])[1..] == acts[1..] + [a];
      RunSnoc(Apply(s, acts[0]), acts[1..], a);
    }
  }

  const WITNESS_ROW := NotificationRow("t", Settlement, Some("telegram:1"), Pending, 0, None, None, None, 0.0, None)

  /** A slow worker's lease has run out and a quick worker claims the row again. */
  lemma TwoClaimsRun() returns (acts: seq<Action>)
    ensures var s := Run(START, acts);
            && "n" in s.rows && s.rows["n"].target == WITNESS_ROW.target
            && s.flights == map[0 := Delivery("n", 1, None), 1 := Delivery("n", 2, None)]
  {
    var s1 := Apply(START, Enqueue("n", WITNESS_ROW));
    var s2 := Apply(s1, Claim("n", "slow", 0.0, 30.0));
    assert s2.flights == map[0 := Delivery("n", 1, None)] && s2.rows["n"].status == Leased;
    var s3 := Apply(s2, Requeue(30.0));
    assert Due(s3.rows["n"], 30.0) && s3.flights == s2.flights;
    acts := [];
    RunSnoc(START, acts, Enqueue("n", WITNESS_ROW));
    acts := acts + [Enqueue("n", WITNESS_ROW)];
    RunSnoc(START, acts, Claim("n", "slow", 0.0, 30.0));
    acts := acts + [Claim("n", "slow", 0.0, 30.0)];
    RunSnoc(START, acts, Requeue(30.0));
    acts := acts + [Requeue(30.0)];
    RunSnoc(START, acts, Claim("n", "quick", 30.0, 30.0));
    acts := acts + [Claim("n", "quick", 30.0, 30.0)];
  }

  /** The quick worker's message goes out and is recorded; the slow one's raises. */
  lemma SlowWorkerRun() returns (acts: seq<Action>)
    ensures var s := Run(START, acts);
            && "n" in s.rows && s.rows["n"].status == Sent
            && 0 in s.flights && s.flights[0] == Delivery("n", 1, Some(TransientFailure))
  {
    acts := TwoClaimsRun();
    var s4 := Run(START, acts);
    var s5 := DoSend(s4, 1, Receipt);
    assert s5.flights[1].outcome == Some(Delivered) && s5.flights[0] == Delivery("n", 1, None);
    RunSnoc(START, acts, Send(1, Receipt));
    acts := acts + [Send(1, Receipt)];
    RunSnoc(START, acts, Send(0, Raised));
    acts := acts + [Send(0, Raised)];
    RunSnoc(START, acts, Record(1, 31.0));
    acts := acts + [Record(1, 31.0)];
  }

  /** It does happen: that failure, once recorded, puts the sent row back to pending. */
  lemma SentCanRevert()
    ensures exists acts, a, id :: id in Run(START, acts).rows && Run(START, acts).rows[id].status == Sent
                                  && Apply(Run(START, acts), a).rows[id].status == Pending
  {
    var acts := SlowWorkerRun();
    assert Apply(Run(START, acts), Record(0, 32.0)).rows["n"].status == Pending;
  }
}
