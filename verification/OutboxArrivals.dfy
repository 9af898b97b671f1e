/**
 What reaches the platform. A send that raises, or reports a timeout, may have got through
 all the same: the message is there, the receipt is not, and the delivery is retried.
 */
module OutboxArrivals {
  import opened Wrappers
  import opened Rows
  import opened RegistryDb
  import opened OutboxProtocol

  /** A step that hands a message of the row to the send tool. */
  predicate HandsOver(s: System, a: Action, id: string) {
    && a.Send? && a.flight in s.flights && s.flights[a.flight].outcome.None?
    && s.flights[a.flight].id == id && id in s.rows
    && Usable(s.rows[id].target)
  }

  /** A message with a receipt has arrived; one without may have. */
  function Arrived(s: System, a: Action, through: bool, id: string): nat {
    if HandsOver(s, a, id) && (a.reply.Receipt? || through) then 1 else 0
  }

  function Unacknowledged(s: System, a: Action, through: bool, id: string): nat {
    if HandsOver(s, a, id) && !a.reply.Receipt? && through then 1 else 0
  }

  /** Over a run; `through[i]` says whether what step `i` hands over arrives. */
  function Arrivals(s: System, acts: seq<Action>, through: seq<bool>, id: string): nat
    requires |through| == |acts|
    decreases |acts|
  {
    if acts == [] then 0
    else Arrived(s, acts[0], through[0], id) + Arrivals(Apply(s, acts[0]), acts[1..], through[1..], id)
  }

  function LostReceipts(s: System, acts: seq<Action>, through: seq<bool>, id: string): nat
    requires |through| == |acts|
    decreases |acts|
  {
    if acts == [] then 0
    else Unacknowledged(s, acts[0], through[0], id) + LostReceipts(Apply(s, acts[0]), acts[1..], through[1..], id)
  }

  lemma StepCountsReceipts(s: System, a: Action, through: bool, id: string)
    ensures Apply(s, a).sends[id] + Unacknowledged(s, a, through, id) == s.sends[id] + Arrived(s, a, through, id)
  {
  }

  lemma {:induction false} RunCountsReceipts(s: System, acts: seq<Action>, through: seq<bool>, id: string)
    requires |through| == |acts|
    ensures Run(s, acts).sends[id] + LostReceipts(s, acts, through, id)
         == s.sends[id] + Arrivals(s, acts, through, id)
    decreases |acts|
  {
    if acts == [] {
    } else {
      StepCountsReceipts(s, acts[0], through[0], id);
      RunCountsReceipts(Apply(s, acts[0]), acts[1..], through[1..], id);
    }
  }

  /** Copies of a message at the platform: one, one more per lease of its row that ran
      out, and one more per receipt that was lost. */
  lemma CopiesWithinExpiriesAndLostReceipts(acts: seq<Action>, through: seq<bool>, id: string)
    requires |through| == |acts|
    ensures Arrivals(START, acts, through, id)
         <= 1 + Run(START, acts).expiries[id] + LostReceipts(START, acts, through, id)
  {
    RunCountsReceipts(START, acts, through, id);
    DuplicatesWithinExpiries(acts, id);
  }

  // ---- at most one arrival per claim ---------------------------------------------------

  function Unsent(s: System, id: string): set<nat> {
    set f | f in s.flights && s.flights[f].id == id && s.flights[f].outcome.None?
  }

  function Claims(s: System, id: string): nat {
    if id in s.rows then s.rows[id].attempts else 0
  }

  lemma SendSpendsClaim(s: System, f: nat, reply: Reply, through: bool, id: string)
    ensures Claims(DoSend(s, f, reply), id) == Claims(s, id)
    ensures Arrived(s, Send(f, reply), through, id) + |Unsent(DoSend(s, f, reply), id)| <= |Unsent(s, id)|
  {
    var s' := DoSend(s, f, reply);
    if s' != s {
      assert Unsent(s', id) == Unsent(s, id) - {f};
      assert s.flights[f].id == id ==> f in Unsent(s, id);
    }
  }

  lemma ClaimAddsClaim(s: System, j: string, worker: string, now: real, lease: real, id: string)
    requires s.next !in s.flights
    ensures var s' := DoClaim(s, j, worker, now, lease);
            |Unsent(s', id)| + Claims(s, id) <= Claims(s', id) + |Unsent(s, id)|
  {
    var s' := DoClaim(s, j, worker, now, lease);
    if s' != s {
      assert Unsent(s', id) == if id == j then Unsent(s, id) + {s.next} else Unsent(s, id);
    }
  }

  lemma LandingKeepsClaims(s: System, a: Action, id: string)
    requires a.Record? || a.Crash?
    ensures Claims(Apply(s, a), id) == Claims(s, id) && |Unsent(Apply(s, a), id)| <= |Unsent(s, id)|
  {
    SubsetSize(Unsent(Apply(s, a), id), Unsent(s, id));
  }

  lemma QueueKeepsClaims(s: System, a: Action, id: string)
    requires a.Enqueue? || a.Requeue?
    ensures Claims(Apply(s, a), id) == Claims(s, id) && Unsent(Apply(s, a), id) == Unsent(s, id)
  {
  }

  lemma StepSpendsClaims(s: System, a: Action, through: bool, id: string)
    requires FlightsInv(s)
    ensures Arrived(s, a, through, id) + |Unsent(Apply(s, a), id)| + Claims(s, id)
         <= Claims(Apply(s, a), id) + |Unsent(s, id)|
  {
    match a
    case Send(f, reply) => SendSpendsClaim(s, f, reply, through, id);
    case Claim(j, worker, now, lease) =>
      ClaimKeepsFlights(s, j, worker, now, lease);
      ClaimAddsClaim(s, j, worker, now, lease, id);
    case Record(_, _) => LandingKeepsClaims(s, a, id);
    case Crash(_) => LandingKeepsClaims(s, a, id);
    case _ => QueueKeepsClaims(s, a, id);
  }

  lemma {:induction false} RunSpendsClaims(s: System, acts: seq<Action>, through: seq<bool>, id: string)
    requires |through| == |acts| && Inv(s)
    ensures Arrivals(s, acts, through, id) + |Unsent(Run(s, acts), id)| + Claims(s, id)
         <= Claims(Run(s, acts), id) + |Unsent(s, id)|
    decreases |acts|
  {
    if acts == [] {
    } else {
      StepSpendsClaims(s, acts[0], through[0], id);
      StepKeepsInv(s, acts[0]);
      RunSpendsClaims(Apply(s, acts[0]), acts[1..], through[1..], id);
    }
  }

  /** However many receipts are lost: no more copies of a message arrive than its row was
      claimed, which is six times at most, plus once per lease of it that ran out. */
  lemma CopiesWithinClaims(acts: seq<Action>, through: seq<bool>, id: string)
    requires |through| == |acts| && id in Run(START, acts).rows
    ensures var s := Run(START, acts);
            Arrivals(START, acts, through, id) <= s.rows[id].attempts <= MAX_ATTEMPTS + s.expiries[id]
  {
    assert Unsent(START, id) == {};
    RunSpendsClaims(START, acts, through, id);
    ClaimsWithinBudget(acts, id);
  }
}
