/**
 The durable registry. Every method of the class is one atomic step: the
 original holds one lock across the SQL of each. The functions above the class
 say what each statement does to a row or to a table, and the protocol modules
 reason about those functions.
 */
module RegistryDb {
  import opened Wrappers
  import opened Rows

  // ---- task rows: the wake columns ----------------------------------------

  function BeginWakeRow(row: TaskRow, now: real): TaskRow {
    if row.wakeState.Some? then row
    else if row.continuationEnabled then row.(wakeState := Some(WakePending), wakeRequestedAt := Some(now))
    else row.(wakeState := Some(Disabled))
  }

  /** What opening a wake amounts to: it is disabled exactly for a task that may not
      continue; for one that may it is due from the moment it is opened, no earlier and no
      later; and nothing but its two columns is written. */
  lemma OpenedWake(row: TaskRow, now: real, later: real)
    requires row.wakeState.None?
    ensures var wake := BeginWakeRow(row, now);
            && (wake.wakeState == Some(Disabled) <==> !row.continuationEnabled)
            && (WakeDue(wake, later) <==> row.continuationEnabled && now <= later)
            && wake == row.(wakeState := wake.wakeState, wakeRequestedAt := wake.wakeRequestedAt)
  {
  }

  function ClaimWakeRow(row: TaskRow): TaskRow {
    if row.wakeState == Some(WakePending)
    then row.(wakeState := Some(Dispatching), wakeAttempts := row.wakeAttempts + 1)
    else row
  }

  /** No guard on the current state: an uncertain wake can still be accepted. */
  function AcceptWakeRow(row: TaskRow, now: real): TaskRow {
    row.(wakeState := Some(Accepted), wakeAcceptedAt := Some(now))
  }

  function RetryWakeRow(row: TaskRow, at: real): TaskRow {
    if row.wakeState == Some(Dispatching)
    then row.(wakeState := Some(WakePending), wakeRequestedAt := Some(at))
    else row
  }

  function ExhaustWakeRow(row: TaskRow): TaskRow {
    if row.wakeState == Some(Dispatching) then row.(wakeState := Some(Exhausted)) else row
  }

  function StaleWakeRow(row: TaskRow): TaskRow {
    if row.wakeState == Some(Dispatching) then row.(wakeState := Some(Uncertain)) else row
  }

  function StaleWakes(t: Tasks): Tasks {
    map id | id in t :: StaleWakeRow(t[id])
  }

  predicate WakeDue(row: TaskRow, now: real) {
    && row.wakeState == Some(WakePending)
    && row.continuationEnabled
    && (row.wakeRequestedAt.Some? ==> row.wakeRequestedAt.value <= now)
  }

  function WakesDue(t: Tasks, now: real): set<string> {
    set id | id in t && WakeDue(t[id], now)
  }

  // ---- task rows: the execution state -------------------------------------

  /** The compare-and-set that never resurrects a final state. */
  function TransitionRow(row: TaskRow, e: ExecutionState): TaskRow {
    if Final(row.executionState) then row else row.(executionState := e)
  }

  // ---- notification rows ---------------------------------------------------

  predicate LeaseExpired(row: NotificationRow, now: real) {
    row.status == Leased && row.leaseUntil.Some? && row.leaseUntil.value <= now
  }

  function RequeueRow(row: NotificationRow, now: real): NotificationRow {
    if LeaseExpired(row, now) then row.(status := Pending, leaseUntil := None, workerId := None) else row
  }

  function Requeued(t: Notifications, now: real): Notifications {
    map id | id in t :: RequeueRow(t[id], now)
  }

  function ExpiredIds(t: Notifications, now: real): set<string> {
    set id | id in t && LeaseExpired(t[id], now)
  }

  /** The rows that a requeue changes are exactly those with a lease whose deadline has
      come, of which nothing but the lease goes; and none is left. */
  lemma RequeueMovesExactlyExpired(t: Notifications, now: real, id: string)
    requires id in t
    ensures var over := t[id].status == Leased && t[id].leaseUntil.Some? && t[id].leaseUntil.value <= now;
            && Requeued(t, now)[id]
               == (if over then t[id].(status := Pending, leaseUntil := None, workerId := None) else t[id])
            && (id in ExpiredIds(t, now) <==> over)
    ensures ExpiredIds(Requeued(t, now), now) == {}
  {
    assert forall i :: i in t ==> !LeaseExpired(Requeued(t, now)[i], now);
  }

  predicate Due(row: NotificationRow, now: real) {
    row.status == Pending && (row.nextRetryAt.Some? ==> row.nextRetryAt.value <= now)
  }

  function DueIds(t: Notifications, now: real): set<string> {
    set id | id in t && Due(t[id], now)
  }

  function LeaseRow(row: NotificationRow, worker: string, until: real): NotificationRow {
    row.(status := Leased, workerId := Some(worker), leaseUntil := Some(until), attempts := row.attempts + 1)
  }

  function LeaseEnd(now: real, lease: real): real {
    now + lease
  }

  function LeasedTo(t: Notifications, ids: seq<string>, worker: string, until: real): Notifications {
    map id | id in t :: if id in ids then LeaseRow(t[id], worker, until) else t[id]
  }

  function SentRow(row: NotificationRow, now: real): NotificationRow {
    row.(status := Sent, sentAt := Some(now), leaseUntil := None, workerId := None)
  }

  function RetryRow(row: NotificationRow, at: real): NotificationRow {
    row.(status := Pending, nextRetryAt := Some(at), leaseUntil := None, workerId := None)
  }

  function FailRow(row: NotificationRow): NotificationRow {
    row.(status := Failed, nextRetryAt := None, leaseUntil := None, workerId := None)
  }

  function ProgressRows(t: Notifications, task: string): set<string> {
    set id | id in t && t[id].taskId == task && t[id].kind == Progress
  }

  // ---- ORDER BY ... LIMIT --------------------------------------------------

  /** The ordering key of a row; SQLite sorts NULL before every value. */
  predicate KeyLe(a: Timestamp, b: Timestamp) {
    a.None? || (b.Some? && a.value <= b.value)
  }

  /** SQLite's binary collation: by code points, a proper prefix first. */
  predicate IdLe(a: string, b: string)
    decreases |a|
  {
    a == "" || (b != "" && (a[0] < b[0] || (a[0] == b[0] && IdLe(a[1..], b[1..]))))
  }

  lemma {:induction false} IdLeTotal(a: string, b: string)
    ensures IdLe(a, b) || IdLe(b, a)
    decreases |a|
  {
    if a == "" || b == "" {
    } else {
      IdLeTotal(a[1..], b[1..]);
    }
  }

  lemma {:induction false} IdLeTransitive(a: string, b: string, c: string)
    requires IdLe(a, b) && IdLe(b, c)
    ensures IdLe(a, c)
    decreases |a|
  {
    if a == "" {
    } else if a[0] == b[0] == c[0] {
      IdLeTransitive(a[1..], b[1..], c[1..]);
    }
  }

  /** The order of a query: by its key column, and by id among equal keys. */
  predicate Before(key: map<string, Timestamp>, a: string, b: string)
    requires a in key && b in key
  {
    KeyLe(key[a], key[b]) && (key[a] == key[b] ==> IdLe(a, b))
  }

  lemma BeforeIsOrder(key: map<string, Timestamp>, a: string, b: string, c: string)
    requires a in key && b in key && c in key
    ensures Before(key, a, b) || Before(key, b, a)
    ensures Before(key, a, b) && Before(key, b, c) ==> Before(key, a, c)
  {
    IdLeTotal(a, b);
    if IdLe(a, b) && IdLe(b, c) { IdLeTransitive(a, b, c); }
  }

  predicate Distinct(ids: seq<string>) {
    forall i, j :: 0 <= i < j < |ids| ==> ids[i] != ids[j]
  }

  /** `ids` are the first `limit` of `due` in the order of the query. */
  ghost predicate FirstBy(due: set<string>, key: map<string, Timestamp>, limit: nat, ids: seq<string>)
    requires due <= key.Keys
  {
    && Distinct(ids)
    && (forall id :: id in ids ==> id in due)
    && |ids| == Min(limit, |due|)
    && (forall i, j :: 0 <= i < j < |ids| ==> Before(key, ids[i], ids[j]))
    && (forall id, other :: id in ids && other in due && other !in ids ==> Before(key, id, other))
  }

  lemma {:induction false} LeastExists(due: set<string>, key: map<string, Timestamp>) returns (least: string)
    requires due != {} && due <= key.Keys
    ensures least in due && forall id :: id in due ==> Before(key, least, id)
    decreases |due|
  {
    var x :| x in due;
    BeforeIsOrder(key, x, x, x);
    if due == {x} {
      least := x;
    } else {
      assert due - {x} < due;
      var y := LeastExists(due - {x}, key);
      least := if Before(key, x, y) then x else y;
      forall id | id in due ensures Before(key, least, id) {
        BeforeIsOrder(key, x, y, id);
      }
    }
  }

  method SelectFirst(due: set<string>, key: map<string, Timestamp>, limit: nat) returns (ids: seq<string>)
    requires due <= key.Keys
    ensures FirstBy(due, key, limit, ids)
  {
    ids := [];
    var rest := due;
    while |ids| < limit && rest != {}
      invariant Distinct(ids) && rest <= due
      invariant forall id :: id in due ==> (id in ids <==> id !in rest)
      invariant forall id :: id in ids ==> id in due
      invariant |ids| + |rest| == |due| && |ids| <= limit
      invariant forall i, j :: 0 <= i < j < |ids| ==> Before(key, ids[i], ids[j])
      invariant forall id, other :: id in ids && other in rest ==> Before(key, id, other)
      decreases rest
    {
      ghost var least := LeastExists(rest, key);
      var next :| next in rest && forall id :: id in rest ==> Before(key, next, id);
      ids := ids + [next];
      rest := rest - {next};
    }
  }

  /** In words of the columns: all that is pending, may continue and is due goes on the
      list if the limit allows, a wake with no time first, then the earlier before the
      later, then by id. */
  ghost predicate EarliestWakes(t: Tasks, now: real, limit: nat, ids: seq<string>) {
    && |ids| <= limit && Distinct(ids)
    && (forall id :: id in ids ==>
          && id in t && t[id].wakeState == Some(WakePending) && t[id].continuationEnabled
          && (t[id].wakeRequestedAt.Some? ==> t[id].wakeRequestedAt.value <= now))
    && (|ids| < limit ==>
          forall id | id in t && t[id].wakeState == Some(WakePending) && t[id].continuationEnabled
                      && (t[id].wakeRequestedAt.Some? ==> t[id].wakeRequestedAt.value <= now) :: id in ids)
    && (forall i, j :: 0 <= i < j < |ids| ==>
          || t[ids[i]].wakeRequestedAt.None?
          || (t[ids[j]].wakeRequestedAt.Some? && t[ids[i]].wakeRequestedAt.value <= t[ids[j]].wakeRequestedAt.value))
    && (forall id, other :: id in ids && other in WakesDue(t, now) && other !in ids ==>
          || t[id].wakeRequestedAt.None?
          || (t[other].wakeRequestedAt.Some? && t[id].wakeRequestedAt.value <= t[other].wakeRequestedAt.value))
  }

  /** A row that a claim at `now` may take: pending, or with a lease that has run out, and
      in either case not waiting for a retry. */
  predicate Claimable(row: NotificationRow, now: real) {
    && (row.status == Pending || (row.status == Leased && row.leaseUntil.Some? && row.leaseUntil.value <= now))
    && (row.nextRetryAt.Some? ==> row.nextRetryAt.value <= now)
  }

  /** In words of the columns: all that is claimable is claimed if the limit allows, and
      the older before the newer. */
  ghost predicate OldestNotices(t: Notifications, now: real, limit: nat, ids: seq<string>) {
    && |ids| <= limit && Distinct(ids)
    && (forall id :: id in ids ==> id in t && Claimable(t[id], now))
    && (|ids| < limit ==> forall id :: id in t && Claimable(t[id], now) ==> id in ids)
    && (forall i, j :: 0 <= i < j < |ids| ==> t[ids[i]].createdAt <= t[ids[j]].createdAt)
    && (forall id, other :: id in ids && other in t && Claimable(t[other], now) && other !in ids ==>
          t[id].createdAt <= t[other].createdAt)
  }

  /** The claimed rows carry the new lease and one more attempt, and are otherwise as they
      were. */
  ghost predicate TakenBy(worker: string, until: real, t: Notifications, t': Notifications, ids: seq<string>) {
    forall id :: id in ids ==>
      && id in t && id in t'
      && t'[id] == t[id].(status := Leased, workerId := Some(worker), leaseUntil := Some(until),
                          attempts := t[id].attempts + 1)
  }

  lemma DueAfterRequeue(t: Notifications, now: real, id: string)
    requires id in t
    ensures id in DueIds(Requeued(t, now), now) <==> Claimable(t[id], now)
    ensures CreationKeys(Requeued(t, now))[id] == Some(t[id].createdAt)
  {
  }

  lemma {:induction false} FullSelection(due: set<string>, ids: seq<string>)
    requires Distinct(ids) && (forall id :: id in ids ==> id in due) && |ids| == |due|
    ensures forall id :: id in due ==> id in ids
    decreases |ids|
  {
    if ids == [] {
    } else {
      var rest := ids[1..];
      assert forall i :: 0 <= i < |rest| ==> rest[i] == ids[i + 1];
      assert ids == [ids[0]] + rest;
      FullSelection(due - {ids[0]}, rest);
    }
  }

  lemma FirstAreOldest(t: Notifications, now: real, limit: nat, ids: seq<string>)
    requires FirstBy(DueIds(Requeued(t, now), now), CreationKeys(Requeued(t, now)), limit, ids)
    ensures OldestNotices(t, now, limit, ids)
  {
    var due, key := DueIds(Requeued(t, now), now), CreationKeys(Requeued(t, now));
    forall id | id in t ensures (id in due <==> Claimable(t[id], now)) && key[id] == Some(t[id].createdAt) {
      DueAfterRequeue(t, now, id);
    }
    if |ids| < limit { FullSelection(due, ids); }
    forall id | id in ids ensures id in t { assert id in due; }
    forall i, j | 0 <= i < j < |ids| ensures t[ids[i]].createdAt <= t[ids[j]].createdAt {
      assert ids[i] in ids && ids[j] in ids && Before(key, ids[i], ids[j]);
    }
    forall id, other | id in ids && other in t && Claimable(t[other], now) && other !in ids
      ensures t[id].createdAt <= t[other].createdAt {
      assert Before(key, id, other);
    }
  }

  lemma FirstAreEarliest(t: Tasks, now: real, limit: nat, ids: seq<string>)
    requires FirstBy(WakesDue(t, now), RequestKeys(t), limit, ids)
    ensures EarliestWakes(t, now, limit, ids)
  {
    var due, key := WakesDue(t, now), RequestKeys(t);
    if |ids| < limit { FullSelection(due, ids); }
    forall id | id in ids ensures id in t && id in due {
    }
    forall i | 0 <= i < |ids| ensures ids[i] in due { assert ids[i] in ids; }
    assert forall i, j :: 0 <= i < j < |ids| ==> Before(key, ids[i], ids[j]);
    assert forall id, other :: id in ids && other in due && other !in ids ==> Before(key, id, other);
  }

  /** A row claimed for `lease` seconds is out of every worker's reach for exactly that
      long, however often it was retried before. */
  lemma LeaseLasts(row: NotificationRow, worker: string, now: real, lease: real, later: real)
    requires Claimable(row, now) && 0.0 <= lease
    ensures Claimable(LeaseRow(RequeueRow(row, now), worker, now + lease), later) <==> now + lease <= later
  {
  }

  /** At the first place where they differ, `a` has the smaller code point. */
  predicate DiffersSmaller(a: string, b: string, k: nat) {
    k < |a| && k < |b| && a[..k] == b[..k] && a[k] < b[k]
  }

  lemma DifferenceOfTails(a: string, b: string, k: nat)
    requires a != "" && b != "" && a[0] == b[0]
    ensures DiffersSmaller(a[1..], b[1..], k) <==> DiffersSmaller(a, b, k + 1)
  {
    if k + 1 <= |a| && k + 1 <= |b| {
      assert a[..k + 1] == [a[0]] + a[1..][..k] && b[..k + 1] == [b[0]] + b[1..][..k];
    }
  }

  lemma PrefixOfTails(a: string, b: string)
    requires a != "" && b != "" && a[0] == b[0]
    ensures a[1..] <= b[1..] <==> a <= b
  {
    assert a == [a[0]] + a[1..] && b == [b[0]] + b[1..];
  }

  /** The collation is the lexicographic order of code points. */
  lemma {:induction false} IdLeMeans(a: string, b: string)
    ensures IdLe(a, b) <==> a <= b || exists k: nat :: DiffersSmaller(a, b, k)
    decreases |a|
  {
    if a == "" || b == "" {
    } else if a[0] != b[0] {
      assert DiffersSmaller(a, b, 0) <==> a[0] < b[0];
    } else {
      IdLeMeans(a[1..], b[1..]);
      PrefixOfTails(a, b);
      if k: nat :| DiffersSmaller(a[1..], b[1..], k) { DifferenceOfTails(a, b, k); }
      if k: nat :| DiffersSmaller(a, b, k) {
        assert k != 0;
        DifferenceOfTails(a, b, k - 1);
      }
    }
  }

  class Registry {
    var tasks: Tasks
    var notifications: Notifications
    var closed: bool

    constructor ()
      ensures tasks == map[] && notifications == map[] && !closed
    {
      tasks, notifications, closed := map[], map[], false;
    }

    method UpdateTask(id: string, row: TaskRow)
      modifies this`tasks
      ensures tasks == if closed || id !in old(tasks) then old(tasks) else old(tasks)[id := row]
    {
      if closed { return; }
      if id in tasks { tasks := tasks[id := row]; }
    }

    method GetTask(id: string) returns (row: Option<TaskRow>)
      ensures row == if !closed && id in tasks then Some(tasks[id]) else None
    {
      row := if !closed && id in tasks then Some(tasks[id]) else None;
    }

    method TransitionTaskState(id: string, e: ExecutionState) returns (applied: bool)
      modifies this`tasks
      ensures applied == (!closed && id in old(tasks) && !Final(old(tasks)[id].executionState))
      ensures tasks == if applied then old(tasks)[id := old(tasks)[id].(executionState := e)] else old(tasks)
    {
      applied := !closed && id in tasks && !Final(tasks[id].executionState);
      if applied { tasks := tasks[id := tasks[id].(executionState := e)]; }
    }

    /** INSERT OR IGNORE: a row under the same id wins over the new one. */
    method InsertNotification(id: string, row: NotificationRow) returns (inserted: bool)
      modifies this`notifications
      ensures inserted == (!closed && id !in old(notifications))
      ensures notifications == if inserted then old(notifications)[id := row] else old(notifications)
    {
      inserted := !closed && id !in notifications;
      if inserted { notifications := notifications[id := row]; }
    }

    method ProgressSeq(task: string) returns (n: nat)
      ensures n == if closed then 0 else |ProgressRows(notifications, task)|
    {
      n := if closed then 0 else |ProgressRows(notifications, task)|;
    }

    /** The leases past their deadline go back to pending; how many there were. */
    method RequeueExpiredLeases(now: real) returns (n: nat)
      modifies this`notifications
      ensures notifications == if closed then old(notifications) else Requeued(old(notifications), now)
      ensures n == if closed then 0 else |ExpiredIds(old(notifications), now)|
    {
      if closed { return 0; }
      n := |ExpiredIds(notifications, now)|;
      notifications := Requeued(notifications, now);
    }

    /** Requeue, select and lease in one step. The claimed rows carry the
        incremented attempt count, as the SELECT after the UPDATE returns it. */
    method ClaimNotifications(now: real, worker: string, leaseSeconds: real, limit: nat)
      returns (ids: seq<string>)
      modifies this`notifications
      ensures closed ==> ids == [] && notifications == old(notifications)
      ensures !closed ==>
                && FirstBy(DueIds(Requeued(old(notifications), now), now),
                           CreationKeys(Requeued(old(notifications), now)), limit, ids)
                && notifications
                   == LeasedTo(Requeued(old(notifications), now), ids, worker, LeaseEnd(now, leaseSeconds))
      ensures !closed ==> OldestNotices(old(notifications), now, limit, ids)
      ensures !closed ==> TakenBy(worker, now + leaseSeconds, old(notifications), notifications, ids)
    {
      if closed { return []; }
      var _ := RequeueExpiredLeases(now);
      var t := notifications;
      ids := SelectFirst(DueIds(t, now), CreationKeys(t), limit);
      FirstAreOldest(old(notifications), now, limit, ids);
      notifications := LeasedTo(t, ids, worker, LeaseEnd(now, leaseSeconds));
    }

    method SetNotificationSent(id: string, now: real)
      modifies this`notifications
      ensures notifications == if closed || id !in old(notifications) then old(notifications)
                               else old(notifications)[id := SentRow(old(notifications)[id], now)]
      ensures !closed && id in old(notifications) ==>
                notifications[id] == old(notifications)[id].(
                  status := Sent, sentAt := Some(now), leaseUntil := None, workerId := None)
    {
      if !closed && id in notifications { notifications := notifications[id := SentRow(notifications[id], now)]; }
    }

    method SetNotificationRetry(id: string, at: real)
      modifies this`notifications
      ensures notifications == if closed || id !in old(notifications) then old(notifications)
                               else old(notifications)[id := RetryRow(old(notifications)[id], at)]
      ensures !closed && id in old(notifications) ==>
                notifications[id] == old(notifications)[id].(
                  status := Pending, nextRetryAt := Some(at), leaseUntil := None, workerId := None)
    {
      if !closed && id in notifications { notifications := notifications[id := RetryRow(notifications[id], at)]; }
    }

    method FailNotification(id: string)
      modifies this`notifications
      ensures notifications == if closed || id !in old(notifications) then old(notifications)
                               else old(notifications)[id := FailRow(old(notifications)[id])]
      ensures !closed && id in old(notifications) ==>
                notifications[id] == old(notifications)[id].(
                  status := Failed, nextRetryAt := None, leaseUntil := None, workerId := None)
    {
      if !closed && id in notifications { notifications := notifications[id := FailRow(notifications[id])]; }
    }

    /** The wake state afterwards, whoever opened it; none without a row. */
    method BeginTerminalWake(id: string, now: real) returns (state: Option<WakeState>)
      modifies this`tasks
      ensures state == if closed || id !in old(tasks) then None else BeginWakeRow(old(tasks)[id], now).wakeState
      ensures tasks == if closed || id !in old(tasks) then old(tasks)
                       else old(tasks)[id := BeginWakeRow(old(tasks)[id], now)]
      ensures !closed && id in old(tasks) ==>
                var row := old(tasks)[id];
                tasks[id] == if row.wakeState.Some? then row
                             else if row.continuationEnabled
                             then row.(wakeState := Some(WakePending), wakeRequestedAt := Some(now))
                             else row.(wakeState := Some(Disabled))
    {
      if closed || id !in tasks { return None; }
      tasks := tasks[id := BeginWakeRow(tasks[id], now)];
      state := tasks[id].wakeState;
    }

    method ListWakePending(now: real, limit: nat) returns (ids: seq<string>)
      ensures closed ==> ids == []
      ensures !closed ==> FirstBy(WakesDue(tasks, now), RequestKeys(tasks), limit, ids)
      ensures !closed ==> EarliestWakes(tasks, now, limit, ids)
    {
      if closed { return []; }
      ids := SelectFirst(WakesDue(tasks, now), RequestKeys(tasks), limit);
      FirstAreEarliest(tasks, now, limit, ids);
    }

    method ClaimTerminalWake(id: string) returns (won: bool)
      modifies this`tasks
      ensures won == (!closed && id in old(tasks) && old(tasks)[id].wakeState == Some(WakePending))
      ensures tasks == if won then old(tasks)[id := ClaimWakeRow(old(tasks)[id])] else old(tasks)
      ensures won ==> tasks[id] == old(tasks)[id].(wakeState := Some(Dispatching),
                                                   wakeAttempts := old(tasks)[id].wakeAttempts + 1)
    {
      won := !closed && id in tasks && tasks[id].wakeState == Some(WakePending);
      if won { tasks := tasks[id := ClaimWakeRow(tasks[id])]; }
    }

    method MarkWakeAccepted(id: string, now: real)
      modifies this`tasks
      ensures tasks == if closed || id !in old(tasks) then old(tasks)
                       else old(tasks)[id := AcceptWakeRow(old(tasks)[id], now)]
      ensures !closed && id in old(tasks) ==>
                tasks[id] == old(tasks)[id].(wakeState := Some(Accepted), wakeAcceptedAt := Some(now))
    {
      if !closed && id in tasks { tasks := tasks[id := AcceptWakeRow(tasks[id], now)]; }
    }

    method MarkWakeRetry(id: string, at: real)
      modifies this`tasks
      ensures tasks == if closed || id !in old(tasks) then old(tasks)
                       else old(tasks)[id := RetryWakeRow(old(tasks)[id], at)]
      ensures !closed && id in old(tasks) ==>
                tasks[id] == if old(tasks)[id].wakeState != Some(Dispatching) then old(tasks)[id]
                             else old(tasks)[id].(wakeState := Some(WakePending), wakeRequestedAt := Some(at))
    {
      if !closed && id in tasks { tasks := tasks[id := RetryWakeRow(tasks[id], at)]; }
    }

    method MarkWakeExhausted(id: string)
      modifies this`tasks
      ensures tasks == if closed || id !in old(tasks) then old(tasks)
                       else old(tasks)[id := ExhaustWakeRow(old(tasks)[id])]
      ensures !closed && id in old(tasks) ==>
                tasks[id] == if old(tasks)[id].wakeState != Some(Dispatching) then old(tasks)[id]
                             else old(tasks)[id].(wakeState := Some(Exhausted))
    {
      if !closed && id in tasks { tasks := tasks[id := ExhaustWakeRow(tasks[id])]; }
    }

    /** The rows given up, for the audit events. */
    method SettleStaleWakeDispatching() returns (stale: set<string>)
      modifies this`tasks
      ensures tasks == if closed then old(tasks) else StaleWakes(old(tasks))
      ensures forall id :: id in stale ==> id in tasks && tasks[id] == old(tasks)[id].(wakeState := Some(Uncertain))
      ensures tasks.Keys == old(tasks).Keys && forall id :: id in tasks && id !in stale ==> tasks[id] == old(tasks)[id]
      ensures forall id :: id in stale <==> !closed && id in old(tasks) && old(tasks)[id].wakeState == Some(Dispatching)
    {
      if closed { return {}; }
      stale := set id | id in tasks && tasks[id].wakeState == Some(Dispatching);
      tasks := StaleWakes(tasks);
    }
  }

  function CreationKeys(t: Notifications): map<string, Timestamp> {
    map id | id in t :: Some(t[id].createdAt)
  }

  function RequestKeys(t: Tasks): map<string, Timestamp> {
    map id | id in t :: t[id].wakeRequestedAt
  }
}
