/**
 Stable notification ids and the local dedupe built on them: ids are texts, the
 notifications table is keyed by them, and an insert under a known id is ignored.
 */
module StableIds {
  import opened Wrappers
  import opened Rows
  import opened RegistryDb
  import opened Text

  function KindName(k: Kind): (s: string)
    ensures ':' !in s
  {
    match k
    case Progress => "progress"
    case Settlement => "settled"
    case Verifier => "verifier"
    case Failure => "failed"
    case Stall => "stalled"
  }

  function TerminalId(task: string, kind: Kind): string {
    "term:" + task + ":" + KindName(kind)
  }

  function ProgressId(task: string, n: nat): string {
    "prog:" + task + ":" + Dec(n)
  }

  lemma TerminalIdInjective(t: string, k: Kind, t': string, k': Kind)
    requires TerminalId(t, k) == TerminalId(t', k')
    ensures t == t' && k == k'
  {
    LastColonSplits("term:" + t, KindName(k), "term:" + t', KindName(k'));
    assert ("term:" + t)[5..] == t && ("term:" + t')[5..] == t';
  }

  lemma ProgressIdInjective(t: string, n: nat, t': string, n': nat)
    requires ProgressId(t, n) == ProgressId(t', n')
    ensures t == t' && n == n'
  {
    assert forall c :: c in "0123456789" ==> c != ':';
    LastColonSplits("prog:" + t, Dec(n), "prog:" + t', Dec(n'));
    assert ("prog:" + t)[5..] == t && ("prog:" + t')[5..] == t';
    DecInjective(n, n');
  }

  lemma FamiliesDisjoint(t: string, k: Kind, t': string, n: nat)
    ensures TerminalId(t, k) != ProgressId(t', n)
  {
    assert TerminalId(t, k)[0] == 't' && ProgressId(t', n)[0] == 'p';
  }

  /** How the ids are spelled. */
  lemma IdsAreSpelled()
    ensures TerminalId("t1", Settlement) == "term:t1:settled" && TerminalId("t1", Verifier) == "term:t1:verifier"
    ensures TerminalId("t1", Failure) == "term:t1:failed" && TerminalId("t1", Stall) == "term:t1:stalled"
    ensures ProgressId("t1", 7) == "prog:t1:7"
  {
  }

  // ---- enqueues, with the count and the insert as separate statements ------------

  datatype Store = Store(rows: Notifications, counted: map<nat, (string, nat)>)

  datatype Action =
    | Announce(task: string, kind: Kind, row: NotificationRow)
    | CountProgress(caller: nat, task: string)
    | InsertProgress(caller: nat, row: NotificationRow)
    | Deliver(rows: Notifications)

  /** INSERT OR IGNORE. */
  function Inserted(t: Notifications, id: string, row: NotificationRow): Notifications {
    if id in t then t else t[id := row]
  }

  /** Whatever the workers do to rows, they keep whose and of what kind they are. */
  ghost predicate OnlyDelivers(t: Notifications, t': Notifications) {
    t'.Keys == t.Keys && forall id :: id in t ==> t'[id].taskId == t[id].taskId && t'[id].kind == t[id].kind
  }

  ghost function Apply(s: Store, a: Action): Store {
    match a
    case Announce(task, kind, row) =>
      if kind == Progress || row.taskId != task || row.kind != kind then s
      else s.(rows := Inserted(s.rows, TerminalId(task, kind), row))
    case CountProgress(caller, task) =>
      s.(counted := s.counted[caller := (task, |ProgressRows(s.rows, task)|)])
    case InsertProgress(caller, row) =>
      if caller !in s.counted || row.taskId != s.counted[caller].0 || row.kind != Progress then s
      else Store(Inserted(s.rows, ProgressId(s.counted[caller].0, s.counted[caller].1 + 1), row), s.counted - {caller})
    case Deliver(rows) => if OnlyDelivers(s.rows, rows) then s.(rows := rows) else s
  }

  ghost function Run(s: Store, acts: seq<Action>): Store
    decreases |acts|
  {
    if acts == [] then s else Run(Apply(s, acts[0]), acts[1..])
  }

  const EMPTY := Store(map[], map[])

  ghost function ProgressIds(task: string, n: nat): set<string> {
    set i | 1 <= i <= n :: ProgressId(task, i)
  }

  lemma NextIdIsNew(task: string, n: nat)
    ensures ProgressId(task, n + 1) !in ProgressIds(task, n)
  {
    if i :| 1 <= i <= n && ProgressId(task, i) == ProgressId(task, n + 1) { ProgressIdInjective(task, i, task, n + 1); }
  }

  lemma NextIdJoins(task: string, n: nat)
    ensures ProgressIds(task, n + 1) == ProgressIds(task, n) + {ProgressId(task, n + 1)}
  {
  }

  lemma NoIds(task: string)
    ensures ProgressIds(task, 0) == {}
  {
  }

  lemma NextIdCounts(task: string, n: nat)
    ensures |ProgressIds(task, n + 1)| == |ProgressIds(task, n)| + 1
  {
    NextIdIsNew(task, n);
    NextIdJoins(task, n);
    OneMore(ProgressIds(task, n), ProgressId(task, n + 1));
  }

  lemma OneMore(ids: set<string>, id: string)
    requires id !in ids
    ensures |ids + {id}| == |ids| + 1
  {
  }

  lemma {:induction false} ProgressIdsCount(task: string, n: nat)
    ensures |ProgressIds(task, n)| == n
  {
    if n == 0 {
      NoIds(task);
    } else {
      ProgressIdsCount(task, n - 1);
      NextIdCounts(task, n - 1);
    }
  }

  /** Progress rows sit exactly under the ids 1..n, terminal rows under their own. */
  ghost predicate Inv(s: Store) {
    && (forall task :: ProgressRows(s.rows, task) == ProgressIds(task, |ProgressRows(s.rows, task)|))
    && (forall id :: id in s.rows && s.rows[id].kind != Progress ==>
          id == TerminalId(s.rows[id].taskId, s.rows[id].kind))
    && (forall c :: c in s.counted ==> s.counted[c].1 <= |ProgressRows(s.rows, s.counted[c].0)|)
  }

  lemma AnnounceKeepsInv(s: Store, task: string, kind: Kind, row: NotificationRow)
    requires Inv(s)
    ensures Inv(Apply(s, Announce(task, kind, row)))
  {
    var s' := Apply(s, Announce(task, kind, row));
    forall t ensures ProgressRows(s'.rows, t) == ProgressRows(s.rows, t) {
    }
  }

  lemma DeliverKeepsInv(s: Store, rows: Notifications)
    requires Inv(s)
    ensures Inv(Apply(s, Deliver(rows)))
  {
    var s' := Apply(s, Deliver(rows));
    forall t ensures ProgressRows(s'.rows, t) == ProgressRows(s.rows, t) {
    }
  }

  lemma OtherProgressRows(t: Notifications, id: string, row: NotificationRow, task: string)
    requires id !in t && (row.taskId != task || row.kind != Progress)
    ensures ProgressRows(t[id := row], task) == ProgressRows(t, task)
  {
  }

  lemma NextIdExtends(t: Notifications, task: string, n: nat, row: NotificationRow)
    requires ProgressRows(t, task) == ProgressIds(task, n) && ProgressId(task, n + 1) !in t
    requires row.taskId == task && row.kind == Progress
    ensures var rows := t[ProgressId(task, n + 1) := row];
            ProgressRows(rows, task) == ProgressIds(task, n + 1) && |ProgressRows(rows, task)| == n + 1
  {
    var id := ProgressId(task, n + 1);
    assert ProgressRows(t[id := row], task) == ProgressRows(t, task) + {id};
    NextIdJoins(task, n);
    ProgressIdsCount(task, n + 1);
  }

  /** An insert whose count is still current adds the next id; a stale one is ignored. */
  lemma InsertOutcome(s: Store, caller: nat, row: NotificationRow)
    requires Inv(s) && Apply(s, InsertProgress(caller, row)) != s
    ensures var s', task := Apply(s, InsertProgress(caller, row)), s.counted[caller].0;
            var n := |ProgressRows(s.rows, task)|;
            s'.rows == if s.counted[caller].1 < n then s.rows else s.rows[ProgressId(task, n + 1) := row]
    ensures var task := s.counted[caller].0; ProgressId(task, |ProgressRows(s.rows, task)| + 1) !in s.rows
  {
    var task, c := s.counted[caller].0, s.counted[caller].1;
    NextIdIsFree(s, task);
    if c < |ProgressRows(s.rows, task)| { StaleIdIsTaken(s, task, c); }
  }

  lemma NextIdIsFree(s: Store, task: string)
    requires Inv(s)
    ensures ProgressId(task, |ProgressRows(s.rows, task)| + 1) !in s.rows
  {
    var id := ProgressId(task, |ProgressRows(s.rows, task)| + 1);
    if id in s.rows { IdTaken(s, id, task, |ProgressRows(s.rows, task)| + 1); }
  }

  lemma StaleIdIsTaken(s: Store, task: string, c: nat)
    requires Inv(s) && c < |ProgressRows(s.rows, task)|
    ensures ProgressId(task, c + 1) in s.rows
  {
    var ids := ProgressIds(task, |ProgressRows(s.rows, task)|);
    assert ProgressId(task, c + 1) in ids;
    assert ids == ProgressRows(s.rows, task);
  }

  lemma InsertKeepsInv(s: Store, caller: nat, row: NotificationRow)
    requires Inv(s)
    ensures Inv(Apply(s, InsertProgress(caller, row)))
  {
    var s' := Apply(s, InsertProgress(caller, row));
    if s' != s && s'.rows != s.rows {
      InsertOutcome(s, caller, row);
      var task := s.counted[caller].0;
      var n := |ProgressRows(s.rows, task)|;
      forall t ensures ProgressRows(s'.rows, t) == ProgressIds(t, |ProgressRows(s'.rows, t)|)
               && |ProgressRows(s.rows, t)| <= |ProgressRows(s'.rows, t)| {
        if t == task { NextIdExtends(s.rows, task, n, row); }
        else { OtherProgressRows(s.rows, ProgressId(task, n + 1), row, t); }
      }
    }
  }

  /** The next progress id of a task is free. */
  lemma IdTaken(s: Store, id: string, task: string, next: nat)
    requires Inv(s) && id in s.rows && id == ProgressId(task, next)
    ensures next <= |ProgressRows(s.rows, task)|
  {
    var row := s.rows[id];
    if row.kind != Progress {
      FamiliesDisjoint(row.taskId, row.kind, task, next);
    } else {
      assert id in ProgressRows(s.rows, row.taskId);
      var i :| 1 <= i <= |ProgressRows(s.rows, row.taskId)| && id == ProgressId(row.taskId, i);
      ProgressIdInjective(row.taskId, i, task, next);
    }
  }

  lemma {:induction false} RunKeepsInv(s: Store, acts: seq<Action>)
    requires Inv(s)
    ensures Inv(Run(s, acts))
    decreases |acts|
  {
    if acts == [] {
    } else {
      match acts[0] {
        case Announce(task, kind, row) => AnnounceKeepsInv(s, task, kind, row);
        case InsertProgress(caller, row) => InsertKeepsInv(s, caller, row);
        case Deliver(rows) => DeliverKeepsInv(s, rows);
        case CountProgress(_, _) =>
      }
      RunKeepsInv(Apply(s, acts[0]), acts[1..]);
    }
  }

  lemma EmptyInv()
    ensures Inv(EMPTY)
  {
    forall task ensures ProgressRows(EMPTY.rows, task) == ProgressIds(task, |ProgressRows(EMPTY.rows, task)|) {
      assert ProgressRows(EMPTY.rows, task) == {} && ProgressIds(task, 0) == {};
    }
  }

  /** However many enqueues race between the count and the insert, the progress ids
      of a task are exactly 1..n, with n the number of its progress rows. */
  lemma ProgressIdsHaveNoGap(acts: seq<Action>, task: string)
    ensures var t := Run(EMPTY, acts).rows;
            ProgressRows(t, task) == ProgressIds(task, |ProgressRows(t, task)|)
  {
    EmptyInv();
    RunKeepsInv(EMPTY, acts);
  }

  /** However often a terminal outcome is announced - on every stalled tick, by
      recoveries, after crashes - a task has at most one row of each kind. */
  lemma OneRowPerTerminalKind(acts: seq<Action>, id: string, id': string)
    requires var t := Run(EMPTY, acts).rows;
             id in t && id' in t && t[id].taskId == t[id'].taskId && t[id].kind == t[id'].kind != Progress
    ensures id == id'
  {
    EmptyInv();
    RunKeepsInv(EMPTY, acts);
  }

  /** Different tasks and kinds never share a row: no announcement is swallowed by
      another one's. */
  lemma AnnouncementIsStored(acts: seq<Action>, task: string, kind: Kind, row: NotificationRow)
    requires kind != Progress && row.taskId == task && row.kind == kind
    ensures var t := Run(EMPTY, acts + [Announce(task, kind, row)]).rows;
            && TerminalId(task, kind) in t
            && t[TerminalId(task, kind)].taskId == task && t[TerminalId(task, kind)].kind == kind
  {
    var s := Run(EMPTY, acts);
    EmptyInv();
    RunKeepsInv(EMPTY, acts);
    RunSnoc(EMPTY, acts, Announce(task, kind, row));
    var id := TerminalId(task, kind);
    if id in s.rows {
      if s.rows[id].kind == Progress {
        var owner := s.rows[id].taskId;
        assert id in ProgressRows(s.rows, owner);
        var i :| 1 <= i <= |ProgressRows(s.rows, owner)| && id == ProgressId(owner, i);
        FamiliesDisjoint(task, kind, owner, i);
      } else {
        TerminalIdInjective(task, kind, s.rows[id].taskId, s.rows[id].kind);
      }
    }
  }

  lemma {:induction false} RunSnoc(s: Store, acts: seq<Action>, a: Action)
    ensures Run(s, acts + [a]) == Apply(Run(s, acts), a)
    decreases |acts|
  {
    if acts == [] {
      assert [a][1..] == [];
    } else {
      assert (acts + [a])[1..] == acts[1..] + [a];
      RunSnoc(Apply(s, acts[0]), acts[1..], a);
    }
  }

  class NotificationOutbox {
    const registry: Registry

    constructor (registry: Registry)
      ensures this.registry == registry
    {
      this.registry := registry;
    }

    /** One enqueue: the id is worked out first, then the row inserted or ignored. */
    method Enqueue(task: string, kind: Kind, target: Option<string>, now: real) returns (nid: Option<string>)
      modifies registry`notifications
      ensures var id := if kind == Progress then ProgressId(task, |ProgressRows(old(registry.notifications), task)| + 1)
                        else TerminalId(task, kind);
              var row := NotificationRow(task, kind, target, Pending, 0, None, None, None, now, None);
              && (registry.closed ==> nid.None? && registry.notifications == old(registry.notifications))
              && (!registry.closed ==>
                    && registry.notifications == Inserted(old(registry.notifications), id, row)
                    && nid == if id in old(registry.notifications) then None else Some(id))
    {
      var id;
      if kind == Progress {
        var n := registry.ProgressSeq(task);
        id := ProgressId(task, n + 1);
      } else {
        id := TerminalId(task, kind);
      }
      var inserted := registry.InsertNotification(
        id, NotificationRow(task, kind, target, Pending, 0, None, None, None, now, None));
      nid := if inserted then Some(id) else None;
    }
  }
}
