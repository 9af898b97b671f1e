/**
 Request/response correlation over one JSONL pipe: any number of senders, one
 reader thread, timeouts and the end of the stream, interleaved step by step.
 A request is named by its id; ids are never reused.
 */
module RpcTransport {
  import opened Wrappers

  datatype Response = Response(id: nat, success: bool, data: string)

  /** A line of output after parsing. A response without an id is an event. */
  datatype Line = Blank | Malformed | Reply(response: Response) | EventLine

  /** The box and the event a waiting sender holds on to, popped or not. */
  datatype Box = Box(response: Option<Response>, signalled: bool)

  datatype Outcome = Normal(response: Response) | CommandFailed | TimedOut | Closed

  datatype Phase = Registered | Waiting | Woken | Expired | Returned(outcome: Outcome)

  /** `held` is the reader between finding an entry and filling its box; `releasing`
      are the entries the reader still has to signal after the end of the stream. */
  datatype System = System(
    pending: set<nat>,
    boxes: map<nat, Box>,
    senders: map<nat, Phase>,
    next: nat,
    held: Option<Response>,
    ended: bool,
    atEnd: set<nat>,
    releasing: set<nat>,
    nonBlank: nat, malformed: nat, matched: nat, events: nat,
    received: set<Response>)

  datatype Action =
    | Register
    | Write(id: nat, ok: bool)
    | Wake(id: nat)
    | Expire(id: nat)
    | Return(id: nat)
    | Read(line: Line)
    | Fill
    | EndOfStream
    | Release(id: nat)

  /** Where a line goes: exactly one place. */
  datatype Route = Dropped | ToMalformed | ToWaiter(response: Response) | ToEvents

  function RouteOf(line: Line, pending: set<nat>): Route {
    match line
    case Blank => Dropped
    case Malformed => ToMalformed
    case Reply(r) => if r.id in pending then ToWaiter(r) else ToEvents
    case EventLine => ToEvents
  }

  function Completed(box: Box): Outcome {
    if box.response.Some? && box.response.value.success then Normal(box.response.value) else CommandFailed
  }

  predicate InPhase(s: System, id: nat, p: Phase) {
    id in s.senders && s.senders[id] == p && id in s.boxes
  }

  function Move(s: System, id: nat, p: Phase): System {
    s.(senders := s.senders[id := p])
  }

  function Pop(s: System, id: nat, outcome: Outcome): System {
    Move(s, id, Returned(outcome)).(pending := s.pending - {id})
  }

  function DoRead(s: System, line: Line): System {
    if s.held.Some? || s.ended then s
    else
      var t := if line.Blank? then s else s.(nonBlank := s.nonBlank + 1);
      match RouteOf(line, s.pending)
      case Dropped => t
      case ToMalformed => t.(malformed := s.malformed + 1)
      case ToWaiter(r) => t.(held := Some(r), received := s.received + {r})
      case ToEvents => t.(events := s.events + 1)
  }

  function Signal(s: System, id: nat, response: Option<Response>): System {
    if id !in s.boxes then s
    else s.(boxes := s.boxes[id := Box(if response.Some? then response else s.boxes[id].response, true)])
  }

  function Apply(s: System, a: Action): System {
    match a
    case Register =>
      s.(pending := s.pending + {s.next}, boxes := s.boxes[s.next := Box(None, false)],
         senders := s.senders[s.next := Registered], next := s.next + 1)
    case Write(id, ok) =>
      if !InPhase(s, id, Registered) then s else if ok then Move(s, id, Waiting) else Pop(s, id, Closed)
    case Wake(id) => if InPhase(s, id, Waiting) && s.boxes[id].signalled then Move(s, id, Woken) else s
    case Expire(id) => if InPhase(s, id, Waiting) && !s.boxes[id].signalled then Move(s, id, Expired) else s
    case Return(id) =>
      if InPhase(s, id, Woken) then Pop(s, id, Completed(s.boxes[id]))
      else if InPhase(s, id, Expired) then Pop(s, id, TimedOut)
      else s
    case Read(line) => DoRead(s, line)
    case Fill => if s.held.None? then s else Signal(s, s.held.value.id, s.held).(held := None, matched := s.matched + 1)
    case EndOfStream =>
      if s.held.Some? || s.ended then s else s.(ended := true, atEnd := s.pending, releasing := s.pending)
    case Release(id) => if id !in s.releasing then s else Signal(s, id, None).(releasing := s.releasing - {id})
  }

  function Run(s: System, acts: seq<Action>): System
    decreases |acts|
  {
    if acts == [] then s else Run(Apply(s, acts[0]), acts[1..])
  }

  const START := System({}, map[], map[], 0, None, false, {}, {}, 0, 0, 0, 0, {})

  // ---- the invariant ---------------------------------------------------------------

  ghost predicate BoxInv(s: System, id: nat)
    requires id in s.boxes
  {
    s.boxes[id].response.Some? ==>
      && s.boxes[id].response.value.id == id
      && s.boxes[id].response.value in s.received
  }

  ghost predicate SenderInv(s: System, id: nat)
    requires id in s.senders
  {
    && id < s.next && id in s.boxes
    && (id in s.pending <==> !s.senders[id].Returned?)
    && (s.senders[id].Woken? ==> s.boxes[id].signalled)
    && (s.senders[id].Returned? && s.senders[id].outcome.Normal? ==>
          && s.senders[id].outcome.response.id == id
          && s.senders[id].outcome.response.success
          && s.senders[id].outcome.response in s.received)
  }

  ghost predicate ReaderInv(s: System) {
    && (s.held.Some? ==> s.held.value in s.received && s.held.value.id in s.boxes)
    && s.malformed + s.matched + s.events + (if s.held.Some? then 1 else 0) == s.nonBlank
    && s.atEnd <= s.boxes.Keys && s.releasing <= s.atEnd
    && (forall id :: id in s.atEnd ==> id in s.releasing || s.boxes[id].signalled)
    && (!s.ended ==> s.atEnd == {})
  }

  ghost predicate Inv(s: System) {
    && s.pending <= s.senders.Keys
    && s.senders.Keys == s.boxes.Keys
    && (forall id :: id in s.boxes ==> BoxInv(s, id))
    && (forall id :: id in s.senders ==> SenderInv(s, id))
    && ReaderInv(s)
  }

  lemma RegisterKeepsInv(s: System)
    requires Inv(s)
    ensures Inv(Apply(s, Register))
  {
    var s' := Apply(s, Register);
    forall id | id in s.senders ensures id < s.next { assert SenderInv(s, id); }
    forall id | id in s'.boxes ensures BoxInv(s', id) { if id != s.next { assert BoxInv(s, id); } }
    forall id | id in s'.senders ensures SenderInv(s', id) { if id != s.next { assert SenderInv(s, id); } }
  }

  lemma MoveKeepsInv(s: System, id: nat, p: Phase)
    requires Inv(s) && id in s.senders && !s.senders[id].Returned? && !p.Returned?
    requires p.Woken? ==> s.boxes[id].signalled
    ensures Inv(Move(s, id, p))
  {
    var s' := Move(s, id, p);
    forall i | i in s'.boxes ensures BoxInv(s', i) { assert BoxInv(s, i); }
    forall i | i in s'.senders ensures SenderInv(s', i) { assert SenderInv(s, i); }
  }

  lemma PopKeepsInv(s: System, id: nat, outcome: Outcome)
    requires Inv(s) && id in s.senders && !s.senders[id].Returned?
    requires outcome.Normal? ==> outcome == Completed(s.boxes[id])
    ensures Inv(Pop(s, id, outcome))
  {
    var s' := Pop(s, id, outcome);
    assert BoxInv(s, id);
    forall i | i in s'.boxes ensures BoxInv(s', i) { assert BoxInv(s, i); }
    forall i | i in s'.senders ensures SenderInv(s', i) { assert SenderInv(s, i); }
  }

  lemma SenderStepKeepsInv(s: System, a: Action)
    requires Inv(s) && (a.Write? || a.Wake? || a.Expire? || a.Return?)
    ensures Inv(Apply(s, a))
  {
    if Apply(s, a) != s {
      match a
      case Write(id, ok) => if ok { MoveKeepsInv(s, id, Waiting); } else { PopKeepsInv(s, id, Closed); }
      case Wake(id) => MoveKeepsInv(s, id, Woken);
      case Expire(id) => MoveKeepsInv(s, id, Expired);
      case Return(id) => PopKeepsInv(s, id, if s.senders[id].Woken? then Completed(s.boxes[id]) else TimedOut);
      case _ =>
    }
  }

  lemma ReadKeepsInv(s: System, a: Action)
    requires Inv(s) && (a.Read? || a.EndOfStream?)
    ensures Inv(Apply(s, a))
  {
    var s' := Apply(s, a);
    assert s'.boxes == s.boxes && s'.senders == s.senders && s'.pending == s.pending;
    forall id | id in s'.boxes ensures BoxInv(s', id) { assert BoxInv(s, id); }
    forall id | id in s'.senders ensures SenderInv(s', id) { assert SenderInv(s, id); }
  }

  lemma SignalKeepsInv(s: System, a: Action)
    requires Inv(s) && (a.Fill? || a.Release?)
    ensures Inv(Apply(s, a))
  {
    var s' := Apply(s, a);
    assert s'.senders == s.senders && s'.pending == s.pending;
    forall id | id in s'.boxes ensures BoxInv(s', id) { assert BoxInv(s, id); }
    forall id | id in s'.senders ensures SenderInv(s', id) { assert SenderInv(s, id); }
  }

  lemma {:induction false} RunKeepsInv(s: System, acts: seq<Action>)
    requires Inv(s)
    ensures Inv(Run(s, acts))
    decreases |acts|
  {
    if acts == [] {
    } else {
      match acts[0] {
        case Register => RegisterKeepsInv(s);
        case Read(_) => ReadKeepsInv(s, acts[0]);
        case EndOfStream => ReadKeepsInv(s, acts[0]);
        case Fill => SignalKeepsInv(s, acts[0]);
        case Release(_) => SignalKeepsInv(s, acts[0]);
        case _ => SenderStepKeepsInv(s, acts[0]);
      }
      RunKeepsInv(Apply(s, acts[0]), acts[1..]);
    }
  }

  /** A command returns normally only with a success response that carries its own id
      and was read from the pipe. */
  lemma NormalReturnIsOwnSuccess(acts: seq<Action>, id: nat)
    requires var s := Run(START, acts); id in s.senders && s.senders[id].Returned? && s.senders[id].outcome.Normal?
    ensures var s := Run(START, acts);
            var r := s.senders[id].outcome.response;
            r.id == id && r.success && r in s.received
  {
    RunKeepsInv(START, acts);
    assert SenderInv(Run(START, acts), id);
  }

  /** How a command ends once its sender has woken: with its response if that reports
      success, and as failed in every other case. */
  lemma WokenSenderReturns(acts: seq<Action>, id: nat)
    requires InPhase(Run(START, acts), id, Woken)
    ensures var s := Run(START, acts);
            var t := Apply(s, Return(id));
            && id !in t.pending
            && (forall r: Response ::
                  t.senders[id] == Returned(Normal(r)) <==> s.boxes[id].response == Some(r) && r.success)
            && (t.senders[id] == Returned(CommandFailed) <==>
                  s.boxes[id].response.None? || !s.boxes[id].response.value.success)
  {
    RunKeepsInv(START, acts);
  }

  /** Without an answer a command ends as timed out, and as closed if its line could not be
      written. */
  lemma UnansweredCommandFails(acts: seq<Action>, id: nat)
    requires InPhase(Run(START, acts), id, Expired) || InPhase(Run(START, acts), id, Registered)
    ensures var s := Run(START, acts);
            var t := if s.senders[id].Expired? then Apply(s, Return(id)) else Apply(s, Write(id, false));
            && id !in t.pending
            && t.senders[id] == Returned(if s.senders[id].Expired? then TimedOut else Closed)
  {
    RunKeepsInv(START, acts);
  }

  /** A command that is answered in time returns the answer: from every reachable state in
      which its sender waits unsignalled and the reader is free, the response line with its
      id, the hand-over, the wake-up and the return end the command normally if the response
      reports success, and as failed if not. */
  lemma AnsweredCommandReturns(acts: seq<Action>, id: nat, r: Response)
    requires var s := Run(START, acts);
             InPhase(s, id, Waiting) && s.held.None? && !s.ended && r.id == id
    ensures var t := Apply(Apply(Apply(Apply(Run(START, acts), Read(Reply(r))), Fill), Wake(id)), Return(id));
            && id !in t.pending
            && t.senders[id] == Returned(if r.success then Normal(r) else CommandFailed)
  {
    RunKeepsInv(START, acts);
    var s := Run(START, acts);
    assert SenderInv(s, id);
    var s1 := Apply(s, Read(Reply(r)));
    assert s1.held == Some(r) && s1.senders == s.senders && s1.boxes == s.boxes;
    var s2 := Apply(s1, Fill);
    assert s2.boxes[id] == Box(Some(r), true) && s2.senders == s.senders;
    var s3 := Apply(s2, Wake(id));
    assert s3.senders[id] == Woken && s3.boxes == s2.boxes;
  }

  /** The pending keys are exactly the requests begun and not returned: whatever way a
      command ends, its entry is gone, and no other one goes with it. */
  lemma PendingIsExactlyUnreturned(acts: seq<Action>, id: nat)
    ensures var s := Run(START, acts); id in s.pending <==> id in s.senders && !s.senders[id].Returned?
  {
    RunKeepsInv(START, acts);
    var s := Run(START, acts);
    if id in s.senders { assert SenderInv(s, id); }
  }

  /** Every non-blank line has gone to exactly one of the three places, but for one
      the reader may just be handing over. */
  lemma EveryLineGoesSomewhere(acts: seq<Action>)
    ensures var s := Run(START, acts);
            s.malformed + s.matched + s.events + (if s.held.Some? then 1 else 0) == s.nonBlank
  {
    RunKeepsInv(START, acts);
  }

  /** One line of the reader, undisturbed, is what `HandleLine` does to the waiters:
      the entry it is for gets the response and its signal, no other box changes. */
  lemma LineIsReadAndFill(acts: seq<Action>, line: Line)
    requires var s := Run(START, acts); s.held.None? && !s.ended
    ensures var s := Run(START, acts);
            var t := Apply(Apply(s, Read(line)), Fill);
            && t.held.None? && t.pending == s.pending && t.boxes.Keys == s.boxes.Keys
            && t.malformed == s.malformed + (if line.Malformed? then 1 else 0)
            && t.events
               == s.events + (if line.EventLine? || (line.Reply? && line.response.id !in s.pending) then 1 else 0)
            && t.matched == s.matched + (if line.Reply? && line.response.id in s.pending then 1 else 0)
            && forall id :: id in s.boxes ==>
                 t.boxes[id] == if id in s.pending && line.Reply? && line.response.id == id
                                then Box(Some(line.response), true) else s.boxes[id]
  {
    RunKeepsInv(START, acts);
    var s := Run(START, acts);
    forall id | id in s.pending ensures id in s.boxes { assert SenderInv(s, id); }
  }

  /** Once the reader has finished with the end of the stream, no sender that was
      waiting then can time out any more: it wakes, and ends with its response if one
      had come, and otherwise with a command failure. */
  lemma EndReleasesWaiters(acts: seq<Action>, id: nat)
    requires var s := Run(START, acts); s.ended && s.releasing == {} && id in s.atEnd && InPhase(s, id, Waiting)
    ensures var s := Run(START, acts);
            && Apply(s, Expire(id)) == s
            && var t := Apply(Apply(s, Wake(id)), Return(id));
               && id !in t.pending
               && t.senders[id] == Returned(Completed(s.boxes[id]))
               && (s.boxes[id].response.None? ==> t.senders[id] == Returned(CommandFailed))
  {
    RunKeepsInv(START, acts);
    assert SenderInv(Run(START, acts), id);
  }

  lemma {:induction false} RunConcat(s: System, a: seq<Action>, b: seq<Action>)
    ensures Run(s, a + b) == Run(Run(s, a), b)
    decreases |a|
  {
    if a == [] {
      assert a + b == b;
    } else {
      assert (a + b)[1..] == a[1..] + b;
      RunConcat(Apply(s, a[0]), a[1..], b);
    }
  }

  lemma {:induction false} EndIsRemembered(s: System, acts: seq<Action>)
    requires s.ended
    ensures Run(s, acts).ended && Run(s, acts).atEnd == s.atEnd
    decreases |acts|
  {
    if acts == [] {
    } else {
      EndIsRemembered(Apply(s, acts[0]), acts[1..]);
    }
  }

  /** The end of the stream leaves nobody behind: whoever was pending when the reader met it
      - from any point of any run - and still waits once the reader has finished with it can
      no longer time out. */
  lemma EndOfStreamLeavesNobodyBehind(acts: seq<Action>, later: seq<Action>, id: nat)
    requires var s := Run(START, acts); id in s.pending && s.held.None? && !s.ended
    requires var n := Run(START, acts + ([EndOfStream] + later)); n.releasing == {} && InPhase(n, id, Waiting)
    ensures var n := Run(START, acts + ([EndOfStream] + later));
            && n.boxes[id].signalled && Apply(n, Expire(id)) == n
            && var t := Apply(Apply(n, Wake(id)), Return(id));
               id !in t.pending && t.senders[id].Returned? && !t.senders[id].outcome.TimedOut?
  {
    var s, end := Run(START, acts), [EndOfStream] + later;
    RunConcat(START, acts, end);
    assert end[1..] == later && end[0] == EndOfStream;
    assert Run(s, end) == Run(Apply(s, EndOfStream), later);
    EndIsRemembered(Apply(s, EndOfStream), later);
    EndReleasesWaiters(acts + end, id);
    RunKeepsInv(START, acts + end);
  }

  // ---- the shared objects ----------------------------------------------------------------

  class Waiter {
    var response: Option<Response>
    var signalled: bool

    constructor ()
      ensures response.None? && !signalled
    {
      response, signalled := None, false;
    }

    function View(): Box
      reads this
    {
      Box(response, signalled)
    }
  }

  class PiRpcTransport {
    var pending: map<nat, Waiter>
    var next: nat
    var malformed: nat
    var events: nat

    constructor ()
      ensures pending == map[] && next == 0 && malformed == 0 && events == 0
    {
      pending, next, malformed, events := map[], 0, 0, 0;
    }

    /** Ids are issued in order, and no two requests share a waiter. */
    ghost predicate Valid()
      reads this
    {
      && (forall id :: id in pending ==> id < next)
      && (forall i, j :: i in pending && j in pending && i != j ==> pending[i] != pending[j])
    }

    /** The first half of a command: a fresh entry under a fresh id. */
    method Register() returns (id: nat, waiter: Waiter)
      requires Valid()
      requires forall i :: i in pending ==> allocated(pending[i])
      modifies this
      ensures Valid() && id == old(next) && id !in old(pending)
      ensures fresh(waiter) && waiter.View() == Box(None, false)
      ensures pending == old(pending)[id := waiter] && next == old(next) + 1
      ensures malformed == old(malformed) && events == old(events)
    {
      id := next;
      waiter := new Waiter();
      pending := pending[id := waiter];
      next := next + 1;
    }

    /** The second half, after the wait: the entry goes whatever the outcome. */
    method Finish(id: nat, waiter: Waiter, signalled: bool) returns (outcome: Outcome)
      requires Valid() && id in pending && pending[id] == waiter
      modifies this`pending
      ensures Valid() && pending == old(pending) - {id}
      ensures outcome == if signalled then Completed(waiter.View()) else TimedOut
      ensures forall r :: outcome == Normal(r) <==> signalled && waiter.response == Some(r) && r.success
      ensures outcome == TimedOut <==> !signalled
    {
      pending := pending - {id};
      if !signalled { return TimedOut; }
      outcome := if waiter.response.Some? && waiter.response.value.success then Normal(waiter.response.value)
                 else CommandFailed;
    }

    /** One line of the reader loop: only the entry the line is for is touched. */
    method HandleLine(line: Line)
      requires Valid()
      modifies this`malformed, this`events, pending.Values
      ensures Valid() && pending == old(pending) && next == old(next)
      ensures malformed == old(malformed) + (if line.Malformed? then 1 else 0)
      ensures events == old(events)
                        + (if line.EventLine? || (line.Reply? && line.response.id !in pending) then 1 else 0)
      ensures forall id :: id in pending ==>
                && pending[id].response == (if line.Reply? && line.response.id == id then Some(line.response)
                                            else old(pending[id].response))
                && pending[id].signalled == (old(pending[id].signalled) || (line.Reply? && line.response.id == id))
    {
      match line
      case Blank =>
      case Malformed => malformed := malformed + 1;
      case EventLine => events := events + 1;
      case Reply(r) =>
        if r.id in pending {
          var waiter := pending[r.id];
          waiter.response := Some(r);
          waiter.signalled := true;
        } else {
          events := events + 1;
        }
    }

    /** The end of the stream: every waiter is signalled, no response is invented. */
    method HandleEof()
      requires Valid()
      modifies pending.Values
      ensures Valid()
      ensures forall id :: id in pending ==>
                pending[id].signalled && pending[id].response == old(pending[id].response)
    {
      var todo := pending.Keys;
      while todo != {}
        invariant todo <= pending.Keys
        invariant forall id :: id in pending ==> pending[id].response == old(pending[id].response)
        invariant forall id :: id in pending && id !in todo ==> pending[id].signalled
        decreases todo
      {
        var id :| id in todo;
        pending[id].signalled := true;
        todo := todo - {id};
      }
    }
  }
}
