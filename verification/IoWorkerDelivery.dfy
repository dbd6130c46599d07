/** What becomes of the reply of a worker: over every execution, the caller that still waits for
    it gets it. */
module IoWorkerDelivery {
  import opened Common
  import opened IoWorkerModel
  import opened IoWorkerSafety

  /** The reply is on its way to the caller, or the future has been decided. */
  predicate OnItsWay(c: Call) {
    c.queued || c.result != Pending
  }

  /** The caller has its result, or will have it as soon as it is scheduled. */
  predicate Answered(c: Call) {
    c.result == ResultSet && (c.caller == Awaiting || c.caller == Gone)
  }

  /** What a step leaves of a reply. */
  ghost predicate KeepsReply(c: Call, d: Call) {
    (OnItsWay(c) ==> OnItsWay(d)) && (Answered(c) ==> Answered(d)) && (c.supervisor == Over ==> d.supervisor == Over)
  }

  /** The step has nothing to do with the reply. */
  predicate SameReply(c: Call, d: Call) {
    d.result == c.result && d.queued == c.queued && d.caller == c.caller
    && (c.supervisor == Over ==> d.supervisor == Over)
  }

  // ----- one step -----

  lemma {:induction false} SignalledReply(c: Call)
    ensures SameReply(c, Signalled(c))
  {
    if c.child.NoChild? {
    } else if c.child.status == Reaped {
    } else {
    }
  }

  lemma {:induction false} MarkReply(c: Call, raised: bool)
    ensures SameReply(c, AbortStep(c, Mark, raised).call)
  {
    if c.published {} else {}
  }

  lemma {:induction false} CheckReply(c: Call, raised: bool)
    ensures SameReply(c, AbortStep(c, Check, raised).call)
  {
    if c.child.Child? && c.child.status != Reaped {} else {}
  }

  lemma {:induction false} SignalReply(c: Call, raised: bool)
    ensures SameReply(c, AbortStep(c, Signal, raised).call)
  {
    hide Signalled;
    SignalledReply(c);
    if raised {} else {}
  }

  lemma {:induction false} AbortReply(c: Call, pc: AbortPc, raised: bool)
    ensures SameReply(c, AbortStep(c, pc, raised).call)
  {
    hide AbortStep, SameReply;
    match pc
    case Mark => MarkReply(c, raised);
    case Check => CheckReply(c, raised);
    case Signal => SignalReply(c, raised);
  }

  lemma {:induction false} LeaveReply(c: Call, cancels: bool)
    requires c.caller == Awaiting
    ensures KeepsReply(c, Leave(c, cancels))
    ensures c.result == ResultSet ==> Leave(c, cancels) == c.(caller := Gone)
  {
    if c.result == ResultSet {} else if cancels {} else {}
  }

  lemma {:induction false} DeliveredReply(c: Call)
    ensures KeepsReply(c, RunDeliver(c))
    ensures RunDeliver(c).caller == c.caller && RunDeliver(c).supervisor == c.supervisor
    ensures RunDeliver(c).result == if c.result == Pending then ResultSet else c.result
  {
    if c.result == Pending {} else {}
  }

  lemma {:induction false} OwnAbortReply(c: Call, raised: bool)
    requires c.caller.Aborting?
    ensures KeepsReply(c, CallerAbort(c, raised))
  {
    hide AbortStep;
    AbortReply(c, c.caller.pc, raised);
  }

  lemma {:induction false} StartReply(c: Call, started: bool)
    requires CallerReady(c, Start(started)) && SlotOk(c)
    ensures KeepsReply(c, MoveCaller(c, Start(started)))
  {
    if started {} else {}
  }

  lemma {:induction false} CallerReply(c: Call, e: CallerStep)
    requires CallerReady(c, e) && SlotOk(c)
    ensures KeepsReply(c, MoveCaller(c, e))
  {
    hide Leave, CallerAbort, RunDeliver;
    match e
    case LeaveCall(cancels) => LeaveReply(c, cancels); hide KeepsReply;
    case Abort(raised) => OwnAbortReply(c, raised); hide KeepsReply;
    case Delivered => DeliveredReply(c); hide KeepsReply;
    case Start(started) => StartReply(c, started); hide *;
    case Register =>
    case Undo =>
    case GiveBack =>
  }

  lemma {:induction false} KillReply(c: Call, raised: bool)
    requires c.supervisor != Over
    ensures SameReply(c, KillEarly(c, raised))
    ensures SameReply(c, KillLate(c, raised))
  {
    hide Signalled;
    SignalledReply(c);
    if raised {} else {}
  }

  lemma {:induction false} ChildReply(c: Call, flag: bool)
    requires c.supervisor != Over
    ensures SameReply(c, Spawn(c, flag))
    ensures SameReply(c, Publish(c))
    ensures SameReply(c, Close(c, flag))
    ensures c.child.Child? ==> SameReply(c, Communicated(c, flag))
  {
    if flag {} else {}
  }

  lemma {:induction false} PollReply(c: Call)
    requires c.supervisor != Over
    ensures SameReply(c, Poll(c))
  {
    if c.child.NoChild? {} else if c.child.status == Running {} else {}
  }

  lemma {:induction false} ReapReply(c: Call)
    requires c.child.Child?
    ensures c.supervisor != Over ==> SameReply(c, Feed(c))
    ensures c.supervisor != Over ==> SameReply(c, Reap(c))
    ensures SameReply(c, Exit(c))
  {
  }

  /** Only handing over puts a reply on its way. */
  lemma {:induction false} SupervisorReply(c: Call, e: SupervisorStep)
    requires SupervisorReady(c, e) && !e.DeliverStep?
    ensures SameReply(c, MoveSupervisor(c, e))
  {
    hide Spawn, Publish, KillEarly, Feed, Communicated, Poll, KillLate, Reap, Close, Deliver, Exit;
    match e
    case SpawnStep(created) => ChildReply(c, created); hide SameReply;
    case PublishStep => ChildReply(c, false); hide SameReply;
    case KillEarlyStep(raised) => KillReply(c, raised); hide SameReply;
    case FeedStep => ReapReply(c); hide SameReply;
    case CommunicateStep(raised) => ChildReply(c, raised); hide SameReply;
    case PollStep => PollReply(c); hide SameReply;
    case KillLateStep(raised) => KillReply(c, raised); hide SameReply;
    case ReapStep => ReapReply(c); hide SameReply;
    case CloseStep(raised) => ChildReply(c, raised); hide SameReply;
    case DeregisterStep =>
    case ReleaseStep =>
    case ExitStep => ReapReply(c); hide SameReply;
  }

  lemma {:induction false} SameKeeps(c: Call, d: Call)
    requires SameReply(c, d)
    ensures KeepsReply(c, d)
  {
  }

  /** Once the supervisor is over, no step takes the reply back. */
  lemma {:induction false} ReplyStep(s: State, e: Event, i: nat)
    requires Enabled(s, e) && i < |s.calls| && s.calls[i].supervisor == Over && SlotOk(s.calls[i])
    ensures i < |Next(s, e).calls| && KeepsReply(s.calls[i], Next(s, e).calls[i])
  {
    hide MoveCaller, MoveSupervisor, AbortStep, CallerReady, KeepsReply, SameReply, SlotOk;
    var c := s.calls[i];
    Itself(c);
    match e
    case CallerMoves(j, step) => if j == i { CallerReply(c, step); }
    case SupervisorMoves(j, move) =>
      if j == i { SupervisorReply(c, move); SameKeeps(c, MoveSupervisor(c, move)); }
    case EmergencyStep(k, raised) =>
      if s.emergencies[k].current == Some(i) {
        AbortReply(c, s.emergencies[k].pc, raised);
        SameKeeps(c, AbortStep(c, s.emergencies[k].pc, raised).call);
      }
    case Acquire | EmergencyStart | EmergencyNext(_, _) =>
  }

  lemma {:induction false} Itself(c: Call)
    ensures KeepsReply(c, c)
  {
  }

  lemma {:induction false} ReplyAt(events: seq<Event>, states: seq<State>, n: nat, i: nat)
    requires Execution(events, states) && n < |events| && i < |states[n].calls| && states[n].calls[i].supervisor == Over
    ensures i < |states[n + 1].calls| && KeepsReply(states[n].calls[i], states[n + 1].calls[i])
  {
    ExecutionInv(events, states, n);
    assert SlotOk(states[n].calls[i]) by { assert CallInv(states[n].calls[i]); }
    assert Linked(events, states, n);
    hide Inv, Next, Enabled, SlotOk, KeepsReply;
    ReplyStep(states[n], events[n], i);
  }

  // ----- executions -----

  /** From event `m` on, at which the supervisor handed the reply over to a loop that was open. */
  lemma {:induction false} HandedOver(events: seq<Event>, states: seq<State>, m: nat, n: nat, i: nat)
    requires Execution(events, states) && m < n < |states| && events[m] == SupervisorMoves(i, DeliverStep(true))
    ensures i < |states[n].calls| && states[n].calls[i].supervisor == Over && OnItsWay(states[n].calls[i])
    decreases n
  {
    hide Linked;
    if n == m + 1 {
      HandOverQueues(events, states, m, i);
    } else {
      HandedOver(events, states, m, n - 1, i);
      ReplyAt(events, states, n - 1, i);
    }
  }

  lemma {:induction false} HandOverQueues(events: seq<Event>, states: seq<State>, m: nat, i: nat)
    requires Execution(events, states) && m < |events| && events[m] == SupervisorMoves(i, DeliverStep(true))
    ensures i < |states[m + 1].calls| && states[m + 1].calls[i].supervisor == Over && states[m + 1].calls[i].queued
  {
    assert Linked(events, states, m);
  }

  /** Once the supervisor has handed over its reply, the caller that is still waiting at any later
      moment has the result or finds its delivery queued: no reply of a worker is lost. */
  lemma {:induction false} RepliesArrive(events: seq<Event>, states: seq<State>, m: nat, n: nat, i: nat)
    requires Execution(events, states) && m < n < |states| && events[m] == SupervisorMoves(i, DeliverStep(true))
    ensures i < |states[n].calls|
    ensures states[n].calls[i].caller == Awaiting
            ==> states[n].calls[i].queued || states[n].calls[i].result == ResultSet
  {
    HandedOver(events, states, m, n, i);
    ExecutionInv(events, states, n);
    assert ResultOk(states[n].calls[i]) by { assert CallInv(states[n].calls[i]); }
    hide Linked, Inv;
  }

  /** After the delivery to a caller that was still waiting, its result is set for good; it waits
      to be scheduled or is gone, and by then it has not begun an abort: its next step ends it. */
  lemma {:induction false} DeliveryAnswers(events: seq<Event>, states: seq<State>, m: nat, n: nat, i: nat)
    requires Execution(events, states) && m < n < |states| && events[m] == CallerMoves(i, Delivered)
    requires i < |states[m].calls| && states[m].calls[i].caller == Awaiting
    ensures i < |states[n].calls| && states[n].calls[i].result == ResultSet
    ensures states[n].calls[i].caller == Awaiting || states[n].calls[i].caller == Gone
    ensures n < |events| && events[n].CallerMoves? && events[n].call == i && events[n].step.LeaveCall? ==>
              i < |states[n + 1].calls| && states[n + 1].calls[i] == states[n].calls[i].(caller := Gone)
  {
    hide Linked;
    AnsweredSince(events, states, m, n, i);
    if n < |events| && events[n].CallerMoves? && events[n].call == i && events[n].step.LeaveCall? {
      LeavesAtOnce(events, states, n, i);
    }
  }

  lemma {:induction false} LeavesAtOnce(events: seq<Event>, states: seq<State>, n: nat, i: nat)
    requires Execution(events, states) && n < |events| && events[n].CallerMoves? && events[n].call == i
    requires events[n].step.LeaveCall? && i < |states[n].calls| && states[n].calls[i].result == ResultSet
    ensures i < |states[n + 1].calls| && states[n + 1].calls[i] == states[n].calls[i].(caller := Gone)
  {
    assert Linked(events, states, n);
    LeaveReply(states[n].calls[i], events[n].step.cancels);
    hide Leave;
  }

  lemma {:induction false} AnsweredSince(events: seq<Event>, states: seq<State>, m: nat, n: nat, i: nat)
    requires Execution(events, states) && m < n < |states| && events[m] == CallerMoves(i, Delivered)
    requires i < |states[m].calls| && states[m].calls[i].caller == Awaiting
    ensures i < |states[n].calls| && states[n].calls[i].supervisor == Over && Answered(states[n].calls[i])
    decreases n
  {
    hide Linked;
    if n == m + 1 {
      DeliveredAt(events, states, m, i);
    } else {
      AnsweredSince(events, states, m, n - 1, i);
      ReplyAt(events, states, n - 1, i);
    }
  }

  lemma {:induction false} DeliveredAt(events: seq<Event>, states: seq<State>, m: nat, i: nat)
    requires Execution(events, states) && m < |events| && events[m] == CallerMoves(i, Delivered)
    requires i < |states[m].calls| && states[m].calls[i].caller == Awaiting
    ensures i < |states[m + 1].calls| && states[m + 1].calls[i].supervisor == Over && Answered(states[m + 1].calls[i])
  {
    ExecutionInv(events, states, m);
    assert ResultOk(states[m].calls[i]) by { assert CallInv(states[m].calls[i]); }
    assert Linked(events, states, m);
    hide Inv;
    assert states[m + 1].calls[i] == RunDeliver(states[m].calls[i]);
    DeliveredReply(states[m].calls[i]);
    hide RunDeliver;
  }
}
