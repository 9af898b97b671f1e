/** Progress notices within one runtime: how often they go out, and on what. */
module ProgressNotices {
  import opened Wrappers
  import opened Rows
  import opened RegistryDb
  import opened Watchdog

  datatype Pacing = Pacing(first: real, interval: real)

  /** What has to move between notices: state hash, message count, last event type. */
  datatype Signature = Signature(hash: Option<Snapshot>, messages: Option<int>, event: Option<string>)

  function SignatureOf(row: TaskRow): Signature {
    Signature(row.lastStateHash, row.messageCount, row.lastEventType)
  }

  datatype Notice = Notice(at: real, sig: Signature)

  /** The runtime's two fields, and the notices it has sent so far. */
  datatype Pacer = Pacer(notifiedAt: Option<real>, notifiedSig: Option<Signature>, sent: seq<Notice>)

  datatype Action =
    | Seed(row: TaskRow)
    | AgentStarts(row: TaskRow)
    | Notify(row: TaskRow, now: real)

  predicate Allowed(pacing: Pacing, p: Pacer, row: TaskRow, now: real) {
    && !Final(row.executionState)
    && now - OrElse(row.startedAt, now) >= pacing.first
    && (p.notifiedAt.Some? ==> now - p.notifiedAt.value >= pacing.interval)
    && p.notifiedSig != Some(SignatureOf(row))
  }

  function Apply(pacing: Pacing, p: Pacer, a: Action): Pacer {
    match a
    case Seed(row) => if p.notifiedSig.None? then p.(notifiedSig := Some(SignatureOf(row))) else p
    case AgentStarts(row) =>
      if p.notifiedAt.None? && p.notifiedSig.Some? then p.(notifiedSig := Some(SignatureOf(row))) else p
    case Notify(row, now) =>
      if !Allowed(pacing, p, row, now) then p
      else Pacer(Some(now), Some(SignatureOf(row)), p.sent + [Notice(now, SignatureOf(row))])
  }

  function Run(pacing: Pacing, p: Pacer, acts: seq<Action>): Pacer
    decreases |acts|
  {
    if acts == [] then p else Run(pacing, Apply(pacing, p, acts[0]), acts[1..])
  }

  const FRESH := Pacer(None, None, [])

  /** All rows seen belong to a task started at `start`. */
  ghost predicate StartedAt(acts: seq<Action>, start: real) {
    forall i :: 0 <= i < |acts| ==> acts[i].row.startedAt == Some(start)
  }

  ghost predicate Spaced(pacing: Pacing, sent: seq<Notice>, start: real) {
    && (sent != [] ==> sent[0].at - start >= pacing.first)
    && (forall i :: 0 <= i < |sent| - 1 ==> sent[i + 1].at - sent[i].at >= pacing.interval)
    && (forall i :: 0 <= i < |sent| - 1 ==> sent[i + 1].sig != sent[i].sig)
  }

  ghost predicate Inv(pacing: Pacing, p: Pacer, start: real) {
    && Spaced(pacing, p.sent, start)
    && (p.sent == [] <==> p.notifiedAt.None?)
    && (p.sent != [] ==>
          var last := p.sent[|p.sent| - 1];
          p.notifiedAt == Some(last.at) && p.notifiedSig == Some(last.sig))
  }

  lemma {:induction false} RunKeepsInv(pacing: Pacing, p: Pacer, acts: seq<Action>, start: real)
    requires start != 0.0 && StartedAt(acts, start) && Inv(pacing, p, start)
    ensures Inv(pacing, Run(pacing, p, acts), start)
    decreases |acts|
  {
    if acts == [] {
    } else {
      assert Inv(pacing, Apply(pacing, p, acts[0]), start);
      RunKeepsInv(pacing, Apply(pacing, p, acts[0]), acts[1..], start);
    }
  }

  /** `n` intervals. */
  function Intervals(n: int, d: real): real {
    n as real * d
  }

  lemma OneMoreInterval(n: nat, d: real)
    ensures Intervals(n + 1, d) == Intervals(n, d) + d
  {
    assert (n + 1) as real == n as real + 1.0;
    assert (n + 1) as real * d == n as real * d + d;
  }

  lemma {:induction false} SpacedCount(pacing: Pacing, sent: seq<Notice>, start: real)
    requires Spaced(pacing, sent, start) && sent != []
    ensures sent[|sent| - 1].at >= start + pacing.first + Intervals(|sent| - 1, pacing.interval)
    decreases |sent|
  {
    if |sent| == 1 {
      assert Intervals(0, pacing.interval) == 0.0;
    } else {
      var prior := sent[..|sent| - 1];
      assert forall i :: 0 <= i < |prior| - 1 ==>
        sent[i + 1].at - sent[i].at >= pacing.interval && sent[i + 1].sig != sent[i].sig;
      SpacedCount(pacing, prior, start);
      assert sent[|sent| - 2 + 1].at - sent[|sent| - 2].at >= pacing.interval;
      OneMoreInterval(|sent| - 2, pacing.interval);
    }
  }

  /** By task age `age` no notice has gone out before the first-notice time, and from
      then on at most one more per interval that has passed. */
  lemma NoticesAreRationed(pacing: Pacing, acts: seq<Action>, start: real, age: real)
    requires start != 0.0 && 0.0 < pacing.interval && StartedAt(acts, start)
    requires var sent := Run(pacing, FRESH, acts).sent; sent != [] ==> sent[|sent| - 1].at <= start + age
    ensures var n := |Run(pacing, FRESH, acts).sent|;
            if age < pacing.first then n == 0 else n <= 1 + ((age - pacing.first) / pacing.interval).Floor
  {
    RunKeepsInv(pacing, FRESH, acts, start);
    var sent := Run(pacing, FRESH, acts).sent;
    if sent != [] {
      SpacedCount(pacing, sent, start);
      var k := |sent| - 1;
      NonNegativeProduct(k, pacing.interval);
      assert Intervals(k, pacing.interval) <= age - pacing.first;
      AtMostFloor(k, age - pacing.first, pacing.interval);
    } else if age >= pacing.first {
      AtMostFloor(0, age - pacing.first, pacing.interval);
    }
  }

  lemma NonNegativeProduct(k: nat, d: real)
    requires 0.0 < d
    ensures 0.0 <= k as real * d
  {
  }

  lemma NegativeProduct(a: real, d: real)
    requires a < 0.0 < d
    ensures a * d < 0.0
  {
  }

  lemma AtMostFloor(k: nat, x: real, d: real)
    requires 0.0 < d && k as real * d <= x
    ensures k <= (x / d).Floor
  {
    var q := x / d;
    assert (q - k as real) * d == x - k as real * d;
    if q < k as real { NegativeProduct(q - k as real, d); }
  }

  /** When a look announces: the task is live and old enough, the last notice long enough
      ago, and one of the three columns it reported has moved. */
  predicate Reportable(pacing: Pacing, p: Pacer, row: TaskRow, now: real) {
    && row.executionState !in {SETTLED, CRASHED, ABORTED}
    && now >= OrElse(row.startedAt, now) + pacing.first
    && (p.notifiedAt.Some? ==> now >= p.notifiedAt.value + pacing.interval)
    && (p.notifiedSig.None?
        || p.notifiedSig.value.hash != row.lastStateHash
        || p.notifiedSig.value.messages != row.messageCount
        || p.notifiedSig.value.event != row.lastEventType)
  }

  lemma NoticeGoesOutExactly(pacing: Pacing, p: Pacer, row: TaskRow, now: real)
    ensures var p' := Apply(pacing, p, Notify(row, now));
            if Reportable(pacing, p, row, now)
            then && p'.notifiedAt == Some(now) && |p'.sent| == |p.sent| + 1 && p.sent <= p'.sent
                 && p'.sent[|p.sent|].at == now
                 && p'.notifiedSig == Some(Signature(row.lastStateHash, row.messageCount, row.lastEventType))
            else p' == p
  {
  }

  /** A live task that was started at `start`, looked at, and has moved since `sig`. */
  predicate MovedLook(a: Action, start: real, sig: Option<Signature>) {
    && a.Notify? && a.row.executionState !in {SETTLED, CRASHED, ABORTED} && a.row.startedAt == Some(start)
    && (sig.None?
        || sig.value.hash != a.row.lastStateHash
        || sig.value.messages != a.row.messageCount
        || sig.value.event != a.row.lastEventType)
  }

  /** The first moment at which a notice may go out. */
  function DueAt(pacing: Pacing, p: Pacer, start: real): real {
    var first := start + pacing.first;
    if p.notifiedAt.Some? && p.notifiedAt.value + pacing.interval > first
    then p.notifiedAt.value + pacing.interval else first
  }

  lemma EarlyLookIsSilent(pacing: Pacing, p: Pacer, a: Action, start: real)
    requires start != 0.0 && MovedLook(a, start, p.notifiedSig)
    ensures a.now < DueAt(pacing, p, start) ==> Apply(pacing, p, a) == p
    ensures a.now >= DueAt(pacing, p, start) ==> |Apply(pacing, p, a).sent| == |p.sent| + 1
  {
    NoticeGoesOutExactly(pacing, p, a.row, a.now);
  }

  lemma SilentLooksChangeNothing(pacing: Pacing, p: Pacer, looks: seq<Action>, start: real, k: nat)
    requires start != 0.0 && k <= |looks|
    requires forall i :: 0 <= i < k ==>
               MovedLook(looks[i], start, p.notifiedSig) && looks[i].now < DueAt(pacing, p, start)
    ensures Run(pacing, p, looks[..k]) == p
  {
    if k > 0 {
      EarlyLookIsSilent(pacing, p, looks[0], start);
      assert looks[..k][1..] == looks[1..][..k - 1] && looks[..k][0] == looks[0];
      SilentLooksChangeNothing(pacing, p, looks[1..], start, k - 1);
    }
  }

  lemma {:induction false} RunSnoc(pacing: Pacing, p: Pacer, acts: seq<Action>, a: Action)
    ensures Run(pacing, p, acts + [a]) == Apply(pacing, Run(pacing, p, acts), a)
    decreases |acts|
  {
    if acts == [] {
      assert [a][1..] == [];
    } else {
      assert (acts + [a])[1..] == acts[1..] + [a];
      RunSnoc(pacing, Apply(pacing, p, acts[0]), acts[1..], a);
    }
  }

  /** And it does get announced: a live task that has moved, looked at at least every `gap`
      seconds, has its next notice less than a gap after the first moment the pacing
      allows one, and not before it. */
  lemma MovingTaskIsAnnounced(pacing: Pacing, p: Pacer, looks: seq<Action>, start: real, gap: real) returns (k: nat)
    requires start != 0.0 && looks != [] && forall i :: 0 <= i < |looks| ==> looks[i].Notify?
    requires forall i :: 0 <= i < |looks| ==> MovedLook(looks[i], start, p.notifiedSig)
    requires forall i :: 0 <= i < |looks| - 1 ==> looks[i].now <= looks[i + 1].now <= looks[i].now + gap
    requires looks[0].now < DueAt(pacing, p, start) + gap
    requires looks[|looks| - 1].now >= DueAt(pacing, p, start)
    ensures k < |looks| && DueAt(pacing, p, start) <= looks[k].now < DueAt(pacing, p, start) + gap
    ensures Run(pacing, p, looks[..k]).sent == p.sent
    ensures |Run(pacing, p, looks[..k + 1]).sent| == |p.sent| + 1
  {
    k := 0;
    while looks[k].now < DueAt(pacing, p, start)
      invariant k < |looks| && looks[k].now < DueAt(pacing, p, start) + gap
      invariant forall i :: 0 <= i < k ==> looks[i].now < DueAt(pacing, p, start)
      decreases |looks| - k
    {
      assert k < |looks| - 1 && looks[k + 1].now <= looks[k].now + gap;
      k := k + 1;
    }
    SilentLooksChangeNothing(pacing, p, looks, start, k);
    EarlyLookIsSilent(pacing, p, looks[k], start);
    assert looks[..k + 1] == looks[..k] + [looks[k]];
    RunSnoc(pacing, p, looks[..k], looks[k]);
  }

  /** Two consecutive notices never report the same thing. */
  lemma ConsecutiveNoticesDiffer(pacing: Pacing, acts: seq<Action>, start: real, i: nat)
    requires start != 0.0 && StartedAt(acts, start)
    requires i + 1 < |Run(pacing, FRESH, acts).sent|
    ensures var sent := Run(pacing, FRESH, acts).sent; sent[i].sig != sent[i + 1].sig
  {
    RunKeepsInv(pacing, FRESH, acts, start);
  }

  // ---- silence ------------------------------------------------------------------------

  /** The watchdog's loop over a task: ticks, events with their re-baseline, aborts, and
      looks at whether a notice is due. */
  datatype Step =
    | Ticks(p: Probe)
    | Receives(e: Event, hasVerifier: bool, now: real)
    | Aborts
    | Looks(now: real)

  datatype Followed = Followed(s: Supervised, pacer: Pacer)

  function Follow(th: Thresholds, pacing: Pacing, f: Followed, step: Step): Followed {
    match step
    case Ticks(p) => f.(s := Tick(th, f.s, p).task)
    case Receives(e, hasVerifier, now) =>
      var s := OnEvent(f.s, hasVerifier, e, now);
      Followed(s, if e.AgentStart? then Apply(pacing, f.pacer, AgentStarts(s.row)) else f.pacer)
    case Aborts => f.(s := AbortTask(f.s))
    case Looks(now) => f.(pacer := Apply(pacing, f.pacer, Notify(f.s.row, now)))
  }

  function FollowAll(th: Thresholds, pacing: Pacing, f: Followed, steps: seq<Step>): Followed
    decreases |steps|
  {
    if steps == [] then f else FollowAll(th, pacing, Follow(th, pacing, f, steps[0]), steps[1..])
  }

  /** What the boot leaves, or a reattachment: the first snapshot is stored, the baseline
      is seeded from it, and the task goes on in state `e`. */
  function Attached(pacing: Pacing, row: TaskRow, still: Snapshot, now: real, e: ExecutionState): Followed {
    var seen := SnapshotRow(row, still, now);
    Followed(Supervised(seen.(executionState := e), FRESH_RUNTIME), Apply(pacing, FRESH, Seed(seen)))
  }

  /** No event but the agent's start, and every heartbeat answered the same or missed. */
  predicate IsSilent(step: Step, still: Snapshot) {
    && (step.Receives? ==> step.e.AgentStart?)
    && (step.Ticks? ==> step.p.heartbeat.Answer? ==> step.p.heartbeat.snapshot == still)
  }

  /** The row reports what the baseline reports, and nothing has been announced. */
  predicate Unmoved(f: Followed, still: Snapshot) {
    && f.s.row.lastStateHash == Some(still) && f.s.row.messageCount == still.messageCount
    && f.pacer == Pacer(None, Some(SignatureOf(f.s.row)), [])
  }

  lemma JudgementKeepsSignature(th: Thresholds, s: Supervised, p: Probe)
    ensures SignatureOf(Judge(th, s, p).task.row) == SignatureOf(s.row)
  {
    QuietKeepsSignature(th, s, p);
  }

  lemma QuietKeepsSignature(th: Thresholds, s: Supervised, p: Probe)
    ensures SignatureOf(JudgeQuiet(th, s, p).task.row) == SignatureOf(s.row)
  {
  }

  /** A tick that learns nothing new moves nothing a notice could report, whatever state
      it writes and even if CPU time renews the progress clock. */
  lemma SilentTickKeepsSignature(th: Thresholds, s: Supervised, p: Probe, still: Snapshot)
    requires s.row.lastStateHash == Some(still) && s.row.messageCount == still.messageCount
    requires p.heartbeat.Answer? ==> p.heartbeat.snapshot == still
    ensures SignatureOf(Tick(th, s, p).task.row) == SignatureOf(s.row)
  {
    JudgementKeepsSignature(th, s, p);
    if p.heartbeat.Answer? {
      var seen := s.(row := SnapshotRow(s.row, still, p.now));
      assert SignatureOf(seen.row) == SignatureOf(s.row);
      JudgementKeepsSignature(th, seen, p);
    }
  }

  lemma SilentStepIsUnmoved(th: Thresholds, pacing: Pacing, f: Followed, step: Step, still: Snapshot)
    requires Unmoved(f, still) && IsSilent(step, still)
    ensures Unmoved(Follow(th, pacing, f, step), still)
  {
    match step
    case Ticks(p) => SilentTickKeepsSignature(th, f.s, p, still);
    case _ =>
  }

  lemma {:induction false} SilenceStaysUnmoved(
      th: Thresholds, pacing: Pacing, f: Followed, steps: seq<Step>, still: Snapshot)
    requires Unmoved(f, still) && forall i :: 0 <= i < |steps| ==> IsSilent(steps[i], still)
    ensures Unmoved(FollowAll(th, pacing, f, steps), still)
    decreases |steps|
  {
    if steps == [] {
    } else {
      SilentStepIsUnmoved(th, pacing, f, steps[0], still);
      SilenceStaysUnmoved(th, pacing, Follow(th, pacing, f, steps[0]), steps[1..], still);
    }
  }

  /** A silent task is never announced: from the boot or a reattachment on, no events but
      the agent's start, the same answer to every heartbeat or none - however long it
      runs, whatever the ticks make of it, and however often it is looked at. */
  lemma SilenceIsNeverAnnounced(th: Thresholds, pacing: Pacing, row: TaskRow, still: Snapshot, at: real,
                                e: ExecutionState, steps: seq<Step>)
    requires forall i :: 0 <= i < |steps| ==> IsSilent(steps[i], still)
    ensures FollowAll(th, pacing, Attached(pacing, row, still, at, e), steps).pacer.sent == []
  {
    assert Unmoved(Attached(pacing, row, still, at, e), still);
    SilenceStaysUnmoved(th, pacing, Attached(pacing, row, still, at, e), steps, still);
  }

  /** The two fields of the task runtime, and the methods that change them. */
  class NoticeRuntime {
    var lastNotifiedAt: Option<real>
    var lastNotifiedSig: Option<Signature>

    constructor ()
      ensures lastNotifiedAt.None? && lastNotifiedSig.None?
    {
      lastNotifiedAt, lastNotifiedSig := None, None;
    }

    method SeedBaseline(row: TaskRow)
      modifies this
      ensures forall sent :: Pacer(lastNotifiedAt, lastNotifiedSig, sent)
                          == Apply(Pacing(0.0, 0.0), Pacer(old(lastNotifiedAt), old(lastNotifiedSig), sent), Seed(row))
    {
      if lastNotifiedSig.None? { lastNotifiedSig := Some(SignatureOf(row)); }
    }

    method OnAgentStart(row: TaskRow)
      modifies this
      ensures forall sent :: Pacer(lastNotifiedAt, lastNotifiedSig, sent)
                          == Apply(Pacing(0.0, 0.0), Pacer(old(lastNotifiedAt), old(lastNotifiedSig), sent),
                                   AgentStarts(row))
    {
      if lastNotifiedAt.None? && lastNotifiedSig.Some? { lastNotifiedSig := Some(SignatureOf(row)); }
    }

    method NotifyProgress(pacing: Pacing, row: TaskRow, now: real) returns (notice: Option<Notice>)
      modifies this
      ensures forall sent :: Pacer(lastNotifiedAt, lastNotifiedSig, sent + if notice.Some? then [notice.value] else [])
                          == Apply(pacing, Pacer(old(lastNotifiedAt), old(lastNotifiedSig), sent), Notify(row, now))
    {
      notice := None;
      assert forall sent: seq<Notice> :: sent + [] == sent;
      if Final(row.executionState) { return; }
      if now - OrElse(row.startedAt, now) < pacing.first { return; }
      if lastNotifiedAt.Some? && now - lastNotifiedAt.value < pacing.interval { return; }
      var sig := SignatureOf(row);
      if lastNotifiedSig == Some(sig) { return; }
      lastNotifiedAt, lastNotifiedSig := Some(now), Some(sig);
      notice := Some(Notice(now, sig));
    }
  }
}
