/** What every interleaving of callers, supervisors and emergency aborts keeps. */
module IoWorkerSafety {
  import opened Common
  import opened IoWorkerModel

  // ----- one call -----

  predicate Unreaped(c: Call) {
    c.child.Child? && c.child.status != Reaped
  }

  /** The child follows the supervisor: it exists from the spawn on, only the supervisor reaps it. */
  predicate ChildOk(c: Call) {
    match c.supervisor
    case NotRunning | Preparing => c.child.NoChild?
    case Spawned | KillingEarly | Communicating(_) | KillingLate | Reaping => Unreaped(c)
    case Closing => c.child.Child? && c.child.status == Reaped
    case Deregistering | Releasing | Delivering | Over => !Unreaped(c)
    case Polling => true
    case Crashed => c.child.Child?
  }

  predicate PublishedOk(c: Call) {
    c.published <==> c.child.Child? && c.supervisor != Spawned
  }

  predicate SlotOk(c: Call) {
    && (c.supervisor == NotRunning <==>
          c.caller == Registering || c.caller == Starting || c.caller == Undoing || c.caller == GivingBack
          || c.caller == Failed)
    && c.released == (if c.caller == Failed || c.supervisor == Delivering || c.supervisor == Over then 1 else 0)
  }

  /** Who is in the abort registry. */
  predicate Listed(c: Call) {
    if c.supervisor == NotRunning then c.caller == Starting || c.caller == Undoing
    else c.supervisor != Releasing && c.supervisor != Delivering && c.supervisor != Over
  }

  /** The request never reaches a child whose caller left before it was published, and such a
      child is killed first. */
  predicate EarlyOk(c: Call) {
    && (c.early ==> c.abandoned)
    && (!c.published && c.abandoned ==> c.early)
    && (!c.published && c.child.Child? ==> !c.child.fed)
    && (c.early && c.child.Child? ==> !c.child.fed && c.supervisor != Communicating(true))
    && (c.early && c.published && c.supervisor != KillingEarly && !c.killRaised ==> c.child.Child? && c.child.signalled)
    && (c.early && c.supervisor.Communicating? ==> c.child.Child? && c.child.signalled)
  }

  /** An abort that ran to its end leaves no child untouched. */
  predicate AbortedOk(c: Call) {
    && (c.aborted ==> c.abandoned)
    && (c.aborted && c.published && c.supervisor != KillingEarly && !c.killRaised ==>
          c.child.Child? && (c.child.signalled || c.child.status == Reaped))
    && (c.caller.Aborting? && c.caller.pc != Mark ==> c.published && c.abandoned)
    && (c.caller == Gone && c.result == Cancelled ==> c.aborted || c.abortRaised)
    && (c.strays > 0 ==> c.child.Child? && c.child.status == Reaped)
  }

  predicate ResultOk(c: Call) {
    && (c.queued ==> c.supervisor == Over && c.result != ResultSet)
    && (c.result == ResultSet ==> c.supervisor == Over)
    && (c.supervisor == NotRunning ==> c.result == Pending)
    && (c.caller == Awaiting ==> c.result != Cancelled)
  }

  predicate CallInv(c: Call) {
    ChildOk(c) && PublishedOk(c) && SlotOk(c) && EarlyOk(c) && AbortedOk(c) && ResultOk(c)
  }

  /** What a call never takes back. */
  ghost predicate Evolves(c: Call, d: Call) {
    && (c.abandoned ==> d.abandoned) && (c.published ==> d.published) && (c.published && !c.early ==> !d.early)
    && (c.early ==> d.early) && (c.aborted ==> d.aborted) && (c.killRaised ==> d.killRaised)
    && c.released <= d.released && ChildEvolves(c.child, d.child)
    && (c.supervisor == Crashed ==>
          d.supervisor == Crashed && d.released == c.released && (Unreaped(c) ==> Unreaped(d)))
  }

  ghost predicate ChildEvolves(a: Child, b: Child) {
    a.Child? ==> b.Child? && (a.fed ==> b.fed) && (a.signalled ==> b.signalled) && (a.status == Reaped ==> a == b)
  }

  /** A step of a call that keeps its invariant, its slot and its place in the registry. */
  ghost predicate Keeps(c: Call, d: Call) {
    CallInv(d) && Evolves(c, d) && d.released == c.released && Listed(d) == Listed(c)
  }

  // the caller's steps

  /** One step of `abort`, whoever runs it. */
  ghost predicate AbortKeeps(c: Call, t: AbortTurn, pc: AbortPc) {
    && Evolves(c, t.call)
    && t.call.supervisor == c.supervisor && t.call.caller == c.caller && t.call.released == c.released
    && t.call.result == c.result && t.call.queued == c.queued
    && (t.next.Some? ==> t.next.value != Mark && t.call.published && t.call.abandoned)
    && (t.next.None? ==> t.call.aborted || t.call.abortRaised)
  }

  lemma {:induction false} MarkKeeps(c: Call)
    requires CallInv(c)
    ensures var t := AbortStep(c, Mark, false); CallInv(t.call) && AbortKeeps(c, t, Mark)
  {
    hide SlotOk, ResultOk;
    assert SlotOk(AbortStep(c, Mark, false).call) && ResultOk(AbortStep(c, Mark, false).call) by {
      SameSlot(c, AbortStep(c, Mark, false).call);
    }
  }

  lemma {:induction false} SameSlot(c: Call, d: Call)
    requires SlotOk(c) && ResultOk(c) && d.supervisor == c.supervisor && d.caller == c.caller
             && d.released == c.released
    requires d.result == c.result && d.queued == c.queued
    ensures SlotOk(d) && ResultOk(d) && Listed(c) == Listed(d)
  {
  }

  lemma {:induction false} CheckKeeps(c: Call)
    requires CallInv(c) && c.published && c.abandoned
    ensures var t := AbortStep(c, Check, false); CallInv(t.call) && AbortKeeps(c, t, Check)
  {
    hide SlotOk, ResultOk;
    assert SlotOk(AbortStep(c, Check, false).call) && ResultOk(AbortStep(c, Check, false).call) by {
      SameSlot(c, AbortStep(c, Check, false).call);
    }
  }

  lemma {:induction false} SignalKeeps(c: Call, raised: bool)
    requires CallInv(c) && c.published && c.abandoned
    ensures var t := AbortStep(c, Signal, raised); CallInv(t.call) && AbortKeeps(c, t, Signal)
  {
    SignalChild(c, raised);
    var d := AbortStep(c, Signal, raised).call;
    assert SlotOk(d) && ResultOk(d) by {
      SameSlot(c, d);
    }
    hide ChildOk, PublishedOk, EarlyOk, AbortedOk, SlotOk, ResultOk, AbortKeeps;
  }

  lemma {:induction false} SignalChild(c: Call, raised: bool)
    requires ChildOk(c) && PublishedOk(c) && EarlyOk(c) && AbortedOk(c) && c.published && c.abandoned
    ensures var t := AbortStep(c, Signal, raised);
            ChildOk(t.call) && PublishedOk(t.call) && EarlyOk(t.call) && AbortedOk(t.call) && AbortKeeps(c, t, Signal)
  {
    if !raised && c.child.Child? && c.child.status != Reaped {
      assert AbortStep(c, Signal, raised).call.child == c.child.(signalled := true);
    }
  }

  lemma {:induction false} AbortStepKeeps(c: Call, pc: AbortPc, raised: bool)
    requires CallInv(c) && (pc != Mark ==> c.published && c.abandoned)
    ensures var t := AbortStep(c, pc, raised);
            CallInv(t.call) && AbortKeeps(c, t, pc) && Listed(t.call) == Listed(c)
  {
    match pc {
      case Mark => MarkKeeps(c);
      case Check => CheckKeeps(c);
      case Signal => SignalKeeps(c, raised);
    }
    SameSlot(c, AbortStep(c, pc, raised).call) by {
      hide Listed, ChildOk, EarlyOk, AbortedOk, PublishedOk, SlotOk, ResultOk, Evolves, AbortStep;
    }
    hide *;
  }

  lemma {:induction false} CallerAbortKeeps(c: Call, raised: bool)
    requires CallInv(c) && c.caller.Aborting?
    ensures Keeps(c, CallerAbort(c, raised))
  {
    AbortStepKeeps(c, c.caller.pc, raised);
    hide AbortStep, ChildOk, EarlyOk, PublishedOk, ChildEvolves;
    AbortMoved(c, AbortStep(c, c.caller.pc, raised), c.caller.pc, CallerAbort(c, raised));
  }

  lemma {:induction false} AbortMoved(c: Call, t: AbortTurn, pc: AbortPc, d: Call)
    requires CallInv(t.call) && AbortKeeps(c, t, pc) && c.caller.Aborting? && Listed(t.call) == Listed(c)
    requires d == t.call.(caller := if t.next.Some? then Aborting(t.next.value) else Gone)
    ensures Keeps(c, d)
  {
    assert ChildOk(d) && EarlyOk(d) && PublishedOk(d);
    hide ChildOk, EarlyOk, PublishedOk, ChildEvolves;
  }

  lemma {:induction false} LeaveKeeps(c: Call, cancels: bool)
    requires CallInv(c) && c.caller == Awaiting
    ensures Keeps(c, Leave(c, cancels))
  {
    hide Leave, ChildOk, PublishedOk, EarlyOk, SlotOk, ResultOk, AbortedOk, Listed, Evolves;
    LeftResult(c, cancels);
    SameChild(c, Leave(c, cancels));
  }

  lemma {:induction false} LeftResult(c: Call, cancels: bool)
    requires SlotOk(c) && ResultOk(c) && AbortedOk(c) && c.caller == Awaiting
    ensures var d := Leave(c, cancels);
            SlotOk(d) && ResultOk(d) && AbortedOk(d) && Listed(d) == Listed(c)
            && d.abandoned == c.abandoned && d.published == c.published && d.early == c.early && d.child == c.child
            && d.aborted == c.aborted && d.killRaised == c.killRaised && d.released == c.released
            && d.supervisor == c.supervisor
  {
  }

  lemma {:induction false} SameChild(c: Call, d: Call)
    requires ChildOk(c) && PublishedOk(c) && EarlyOk(c)
    requires d.supervisor == c.supervisor && d.child == c.child && d.published == c.published && d.early == c.early
    requires d.abandoned == c.abandoned && d.killRaised == c.killRaised
    requires d.aborted == c.aborted && d.released == c.released
    ensures ChildOk(d) && PublishedOk(d) && EarlyOk(d) && Evolves(c, d)
  {
    SameStays(c, d);
    hide Evolves, ChildEvolves;
  }

  lemma {:induction false} SameStays(c: Call, d: Call)
    requires d.supervisor == c.supervisor && d.child == c.child && d.published == c.published && d.early == c.early
    requires d.abandoned == c.abandoned && d.killRaised == c.killRaised && d.aborted == c.aborted
    requires d.released == c.released
    ensures Evolves(c, d)
  {
  }

  lemma {:induction false} DeliveredKeeps(c: Call)
    requires CallInv(c) && c.queued
    ensures Keeps(c, RunDeliver(c))
  {
  }

  ghost predicate CallerKeeps(c: Call, e: CallerStep, d: Call) {
    && CallInv(d) && Evolves(c, d)
    && d.released == (if e.GiveBack? then 1 else c.released) && (e.GiveBack? ==> c.released == 0)
    && Listed(d) == (if e.Register? then true else if e.Undo? then false else Listed(c))
  }

  lemma {:induction false} StartingKeeps(c: Call, e: CallerStep)
    requires CallInv(c) && CallerReady(c, e) && (e.Register? || e.Start? || e.Undo? || e.GiveBack?)
    ensures CallerKeeps(c, e, MoveCaller(c, e))
  {
  }

  lemma {:induction false} CallerStepKeeps(c: Call, e: CallerStep)
    requires CallInv(c) && CallerReady(c, e)
    ensures CallerKeeps(c, e, MoveCaller(c, e))
  {
    if e.Register? || e.Start? || e.Undo? || e.GiveBack? {
      StartingKeeps(c, e);
    } else {
      hide CallInv, Leave, CallerAbort, RunDeliver, Evolves, Listed;
      match e
      case LeaveCall(cancels) => LeaveKeeps(c, cancels);
      case Abort(raised) => CallerAbortKeeps(c, raised);
      case Delivered => DeliveredKeeps(c);
    }
  }

  // the supervisor's steps

  lemma {:induction false} SpawnKeeps(c: Call, created: bool)
    requires CallInv(c) && c.supervisor == Preparing
    ensures Keeps(c, Spawn(c, created))
  {
  }

  lemma {:induction false} PublishKeeps(c: Call)
    requires CallInv(c) && c.supervisor == Spawned
    ensures Keeps(c, Publish(c))
  {
  }

  lemma {:induction false} KillEarlyKeeps(c: Call, raised: bool)
    requires CallInv(c) && c.supervisor == KillingEarly
    ensures Keeps(c, KillEarly(c, raised))
  {
  }

  lemma {:induction false} CommunicateKeeps(c: Call, raised: bool)
    requires CallInv(c) && c.supervisor.Communicating? && c.child.Child? && (!raised ==> c.child.status == Exited)
    ensures Keeps(c, Communicated(c, raised))
    ensures c.supervisor == Communicating(true) ==> Keeps(c, Feed(c))
  {
  }

  lemma {:induction false} PollKeeps(c: Call)
    requires CallInv(c) && c.supervisor == Polling
    ensures Keeps(c, Poll(c))
  {
    match c.child
    case NoChild => NoChildPolled(c);
    case Child(Running, _, _) => RunningPolled(c);
    case Child(Exited, _, _) | Child(Reaped, _, _) => EndedPolled(c);
  }

  lemma {:induction false} NoChildPolled(c: Call)
    requires CallInv(c) && c.supervisor == Polling && c.child.NoChild?
    ensures Keeps(c, Poll(c))
  {
  }

  lemma {:induction false} RunningPolled(c: Call)
    requires CallInv(c) && c.supervisor == Polling && c.child.Child? && c.child.status == Running
    ensures Keeps(c, Poll(c))
  {
  }

  lemma {:induction false} EndedPolled(c: Call)
    requires CallInv(c) && c.supervisor == Polling && c.child.Child? && c.child.status != Running
    ensures Keeps(c, Poll(c))
  {
  }

  lemma {:induction false} KillLateKeeps(c: Call, raised: bool)
    requires CallInv(c) && c.supervisor == KillingLate
    ensures Keeps(c, KillLate(c, raised))
  {
  }

  lemma {:induction false} ReapKeeps(c: Call)
    requires CallInv(c) && c.supervisor == Reaping && c.child.Child?
    ensures Keeps(c, Reap(c))
  {
  }

  lemma {:induction false} CloseKeeps(c: Call, raised: bool)
    requires CallInv(c) && c.supervisor == Closing
    ensures Keeps(c, Close(c, raised))
  {
  }

  lemma {:induction false} ExitKeeps(c: Call)
    requires CallInv(c) && c.child.Child? && c.child.status == Running
    ensures Keeps(c, Exit(c))
  {
  }

  ghost predicate SupervisorKeeps(c: Call, e: SupervisorStep, d: Call) {
    && CallInv(d) && Evolves(c, d)
    && d.released == (if e.ReleaseStep? then 1 else c.released) && (e.ReleaseStep? ==> c.released == 0)
    && Listed(d) == (if e.DeregisterStep? then false else Listed(c))
  }

  lemma {:induction false} EndingKeeps(c: Call, e: SupervisorStep)
    requires CallInv(c) && SupervisorReady(c, e) && (e.DeregisterStep? || e.ReleaseStep? || e.DeliverStep?)
    ensures SupervisorKeeps(c, e, MoveSupervisor(c, e))
  {
  }

  lemma {:induction false} SupervisorStepKeeps(c: Call, e: SupervisorStep)
    requires CallInv(c) && SupervisorReady(c, e)
    ensures SupervisorKeeps(c, e, MoveSupervisor(c, e))
  {
    if e.DeregisterStep? || e.ReleaseStep? || e.DeliverStep? {
      EndingKeeps(c, e);
    } else {
      hide CallInv, Evolves, Listed, Spawn, Publish, KillEarly, Feed, Communicated, Poll, KillLate, Reap, Close, Exit;
      match e
      case SpawnStep(created) => SpawnKeeps(c, created);
      case PublishStep => PublishKeeps(c);
      case KillEarlyStep(raised) => KillEarlyKeeps(c, raised);
      case FeedStep => CommunicateKeeps(c, true);
      case CommunicateStep(raised) => CommunicateKeeps(c, raised);
      case PollStep => PollKeeps(c);
      case KillLateStep(raised) => KillLateKeeps(c, raised);
      case ReapStep => ReapKeeps(c);
      case CloseStep(raised) => CloseKeeps(c, raised);
      case ExitStep => ExitKeeps(c);
    }
  }

  // ----- the whole machine -----

  /** Calls whose slot is still taken. */
  function Held(calls: seq<Call>): nat {
    if calls == [] then 0
    else Held(calls[..|calls| - 1]) + if calls[|calls| - 1].released == 0 then 1 else 0
  }

  function UnreapedChildren(calls: seq<Call>): nat {
    if calls == [] then 0
    else UnreapedChildren(calls[..|calls| - 1]) + if Unreaped(calls[|calls| - 1]) then 1 else 0
  }

  ghost predicate EmergencyOk(s: State, em: Emergency) {
    && (forall i | i in em.rest :: i < |s.calls|)
    && (em.current.Some? ==> em.current.value < |s.calls|
                             && (em.pc != Mark ==>
                                   s.calls[em.current.value].published && s.calls[em.current.value].abandoned))
  }

  ghost predicate Inv(s: State) {
    && (forall i | 0 <= i < |s.calls| :: CallInv(s.calls[i]) && (i in s.registry <==> Listed(s.calls[i])))
    && (forall i | i in s.registry :: i < |s.calls|)
    && s.slots + Held(s.calls) == SLOTS
    && (forall k | 0 <= k < |s.emergencies| :: EmergencyOk(s, s.emergencies[k]))
  }

  lemma {:induction false} HeldUpdate(calls: seq<Call>, i: nat, c: Call)
    requires i < |calls|
    ensures Held(calls[i := c]) == Held(calls)
            + (if c.released == 0 then 1 else 0) - (if calls[i].released == 0 then 1 else 0)
  {
    var n := |calls| - 1;
    if i < n {
      HeldUpdate(calls[..n], i, c);
      assert calls[i := c][..n] == calls[..n][i := c];
    } else {
      assert calls[i := c][..n] == calls[..n];
    }
  }

  lemma {:induction false} HeldAppend(calls: seq<Call>, c: Call)
    ensures Held(calls + [c]) == Held(calls) + if c.released == 0 then 1 else 0
  {
    assert (calls + [c])[..|calls|] == calls;
  }

  lemma {:induction false} UnreapedHeld(calls: seq<Call>)
    requires forall i | 0 <= i < |calls| :: CallInv(calls[i])
    ensures UnreapedChildren(calls) <= Held(calls)
  {
    if calls != [] {
      UnreapedHeld(calls[..|calls| - 1]);
      assert CallInv(calls[|calls| - 1]);
    }
  }

  ghost predicate AllEvolve(a: seq<Call>, b: seq<Call>) {
    |a| <= |b| && forall i | 0 <= i < |a| :: Evolves(a[i], b[i])
  }

  lemma {:induction false} EmergenciesKept(s: State, s': State, em: Emergency)
    requires EmergencyOk(s, em) && AllEvolve(s.calls, s'.calls)
    ensures EmergencyOk(s', em)
  {
    if em.current.Some? {
      assert Evolves(s.calls[em.current.value], s'.calls[em.current.value]);
    }
    hide ChildEvolves;
  }

  /** One call changes; the others stay. */
  lemma {:induction false} PutKeeps(s: State, i: nat, d: Call, s': State)
    requires Inv(s) && i < |s.calls| && CallInv(d) && Evolves(s.calls[i], d)
    requires s'.calls == s.calls[i := d] && s'.emergencies == s.emergencies
    requires forall j | j != i :: j in s'.registry <==> j in s.registry
    requires i in s'.registry <==> Listed(d)
    requires s'.slots - s.slots == (if s.calls[i].released == 0 then 1 else 0) - (if d.released == 0 then 1 else 0)
    ensures Inv(s') && AllEvolve(s.calls, s'.calls)
  {
    HeldUpdate(s.calls, i, d);
    hide CallInv, Listed, Evolves;
    forall j | 0 <= j < |s.calls| ensures Evolves(s.calls[j], s'.calls[j]) {
      SameEvolves(s.calls[j]);
    }
    forall k | 0 <= k < |s'.emergencies| ensures EmergencyOk(s', s'.emergencies[k]) {
      EmergenciesKept(s, s', s.emergencies[k]);
    }
    hide EmergencyOk;
  }

  lemma {:induction false} SameEvolves(c: Call)
    ensures Evolves(c, c)
  {
  }

  lemma {:induction false} CallerNextKeeps(s: State, i: nat, e: CallerStep)
    requires Inv(s) && i < |s.calls| && CallerReady(s.calls[i], e)
    ensures Inv(CallerNext(s, i, e)) && AllEvolve(s.calls, CallerNext(s, i, e).calls)
  {
    CallerStepKeeps(s.calls[i], e);
    assert i in s.registry <==> Listed(s.calls[i]);
    hide CallInv, Listed, Evolves, MoveCaller, CallerReady, AllEvolve;
    PutKeeps(s, i, MoveCaller(s.calls[i], e), CallerNext(s, i, e)) by {
      hide Inv;
    }
  }

  lemma {:induction false} SupervisorNextKeeps(s: State, i: nat, e: SupervisorStep)
    requires Inv(s) && i < |s.calls| && SupervisorReady(s.calls[i], e)
    ensures Inv(SupervisorNext(s, i, e)) && AllEvolve(s.calls, SupervisorNext(s, i, e).calls)
  {
    SupervisorStepKeeps(s.calls[i], e);
    assert i in s.registry <==> Listed(s.calls[i]);
    hide CallInv, Listed, Evolves, MoveSupervisor, SupervisorReady, AllEvolve;
    PutKeeps(s, i, MoveSupervisor(s.calls[i], e), SupervisorNext(s, i, e)) by {
      hide Inv;
    }
  }

  /** Another emergency record, about calls that exist. */
  lemma {:induction false} EmergencyKeeps(s: State, emergencies: seq<Emergency>)
    requires Inv(s) && forall k | 0 <= k < |emergencies| :: EmergencyOk(s, emergencies[k])
    ensures Inv(s.(emergencies := emergencies))
  {
    hide CallInv, Listed;
  }

  lemma {:induction false} EmergencyStepKeeps(s: State, k: nat, raised: bool)
    requires Inv(s) && Enabled(s, EmergencyStep(k, raised))
    ensures var s' := EmergencyStepped(s, k, raised); Inv(s') && AllEvolve(s.calls, s'.calls)
  {
    var em, s' := s.emergencies[k], EmergencyStepped(s, k, raised);
    var i := em.current.value;
    var t := AbortStep(s.calls[i], em.pc, raised);
    assert EmergencyOk(s, em);
    assert i in s.registry <==> Listed(s.calls[i]);
    AbortStepKeeps(s.calls[i], em.pc, raised);
    hide CallInv, Listed, AbortStep, Evolves, AllEvolve;
    var s0 := Put(s, i, t.call);
    PutKeeps(s, i, t.call, s0);
    assert forall j | 0 <= j < |s'.emergencies| :: EmergencyOk(s0, s'.emergencies[j]);
    hide EmergencyOk;
    EmergencyKeeps(s0, s'.emergencies);
  }

  lemma {:induction false} NextKeeps(s: State, e: Event)
    requires Inv(s) && Enabled(s, e)
    ensures Inv(Next(s, e)) && AllEvolve(s.calls, Next(s, e).calls)
  {
    hide CallInv, Listed, Evolves;
    match e
    case Acquire => AcquireKeeps(s);
    case CallerMoves(i, step) => CallerNextKeeps(s, i, step); hide CallerNext;
    case SupervisorMoves(i, move) => SupervisorNextKeeps(s, i, move); hide SupervisorNext;
    case EmergencyStep(k, raised) => EmergencyStepKeeps(s, k, raised); hide EmergencyStepped;
    case EmergencyStart | EmergencyNext(_, _) =>
      NoneMoves(s.calls);
      assert Next(s, e).calls == s.calls;
      hide AllEvolve;
      EmergencyKeeps(s, Next(s, e).emergencies);
  }

  lemma {:induction false} NoneMoves(calls: seq<Call>)
    ensures AllEvolve(calls, calls)
  {
    forall i | 0 <= i < |calls| ensures Evolves(calls[i], calls[i]) {
      SameEvolves(calls[i]);
    }
  }

  lemma {:induction false} AcquireKeeps(s: State)
    requires Inv(s)
    ensures Inv(Next(s, Acquire)) && AllEvolve(s.calls, Next(s, Acquire).calls)
  {
    HeldAppend(s.calls, NEW_CALL);
    NewCallInv();
    NoneMoves(s.calls);
    var s' := Next(s, Acquire);
    hide CallInv, Listed, Evolves;
    forall k | 0 <= k < |s'.emergencies| ensures EmergencyOk(s', s'.emergencies[k]) {
      EmergenciesKept(s, s', s.emergencies[k]);
    }
    hide EmergencyOk;
  }

  lemma {:induction false} NewCallInv()
    ensures CallInv(NEW_CALL) && !Listed(NEW_CALL)
  {
  }

  // ----- runs -----

  ghost predicate Linked(events: seq<Event>, states: seq<State>, n: nat)
    requires |states| == |events| + 1 && n < |events|
  {
    Enabled(states[n], events[n]) && states[n + 1] == Next(states[n], events[n])
  }

  ghost predicate Execution(events: seq<Event>, states: seq<State>) {
    |states| == |events| + 1 && states[0] == Init() && forall n | 0 <= n < |events| :: Linked(events, states, n)
  }

  lemma {:induction false} ExecutionInv(events: seq<Event>, states: seq<State>, n: nat)
    requires Execution(events, states) && n < |states|
    ensures Inv(states[n])
  {
    if n > 0 {
      ExecutionInv(events, states, n - 1);
      assert Linked(events, states, n - 1);
      NextKeeps(states[n - 1], events[n - 1]);
    }
  }

  lemma {:induction false} ExecutionEvolves(events: seq<Event>, states: seq<State>, m: nat, n: nat)
    requires Execution(events, states) && m <= n < |states|
    ensures AllEvolve(states[m].calls, states[n].calls)
    decreases n
  {
    if m == n {
      NoneMoves(states[m].calls);
    } else {
      ExecutionEvolves(events, states, m, n - 1);
      ExecutionInv(events, states, n - 1);
      assert Linked(events, states, n - 1);
      NextKeeps(states[n - 1], events[n - 1]);
      EvolveOn(states[m].calls, states[n - 1].calls, states[n].calls);
    }
  }

  lemma {:induction false} EvolveOn(a: seq<Call>, b: seq<Call>, c: seq<Call>)
    requires AllEvolve(a, b) && AllEvolve(b, c)
    ensures AllEvolve(a, c)
  {
    forall i | 0 <= i < |a| ensures Evolves(a[i], c[i]) {
      assert Evolves(a[i], b[i]) && Evolves(b[i], c[i]);
    }
  }

  // ----- the results -----

  /** At most eight calls hold a slot, every other slot is free, and there are never more
      unreaped children than slots taken. */
  lemma {:induction false} ChildrenAreBounded(events: seq<Event>, states: seq<State>, n: nat)
    requires Execution(events, states) && n < |states|
    ensures states[n].slots + Held(states[n].calls) == 8
    ensures UnreapedChildren(states[n].calls) <= Held(states[n].calls) <= 8
  {
    ExecutionInv(events, states, n);
    UnreapedHeld(states[n].calls);
  }

  /** A slot goes back at most once, and only when its child, if there ever was one, is reaped;
      from then on it stays reaped. It is still out exactly when the call has not come to an end
      or the clean-up raised, and in the second case for ever. */
  lemma {:induction false} SlotGoesBackOnce(events: seq<Event>, states: seq<State>, m: nat, n: nat, i: nat)
    requires Execution(events, states) && m <= n < |states| && i < |states[m].calls|
    ensures i < |states[n].calls|
    ensures var c, d := states[m].calls[i], states[n].calls[i];
            && d.released <= 1 && c.released <= d.released
            && (c.released == 1 ==> !Unreaped(c) && !Unreaped(d))
            && (d.released == 0 <==> d.caller != Failed && d.supervisor != Delivering && d.supervisor != Over)
            && (c.supervisor == Crashed ==> d.released == 0)
  {
    ExecutionInv(events, states, m);
    ExecutionInv(events, states, n);
    ExecutionEvolves(events, states, m, n);
    assert CallInv(states[m].calls[i]) && CallInv(states[n].calls[i])
           && Evolves(states[m].calls[i], states[n].calls[i]);
  }

  predicate Ended(c: Call) {
    c.caller == Failed || c.supervisor == Over || c.supervisor == Crashed
  }

  function Crashes(calls: seq<Call>): nat {
    if calls == [] then 0
    else Crashes(calls[..|calls| - 1]) + if calls[|calls| - 1].supervisor == Crashed then 1 else 0
  }

  lemma {:induction false} HeldAtRest(calls: seq<Call>)
    requires forall i | 0 <= i < |calls| :: CallInv(calls[i]) && Ended(calls[i])
    ensures Held(calls) == Crashes(calls)
  {
    if calls != [] {
      HeldAtRest(calls[..|calls| - 1]);
      assert CallInv(calls[|calls| - 1]);
    }
  }

  /** When every call has come to its end, all slots are free except one for each supervisor
      whose clean-up raised; so all eight are free exactly when none did. */
  lemma {:induction false} SlotsAtRest(events: seq<Event>, states: seq<State>, n: nat)
    requires Execution(events, states) && n < |states|
    requires forall i | 0 <= i < |states[n].calls| :: Ended(states[n].calls[i])
    ensures states[n].slots == 8 - Crashes(states[n].calls)
  {
    ExecutionInv(events, states, n);
    HeldAtRest(states[n].calls);
  }

  /** If the caller left before the child was published, the child never gets the request, not
      later either, and it is killed before anything is waited for, unless the kill itself
      raised. */
  lemma {:induction false} EarlyChildNeverWorks(events: seq<Event>, states: seq<State>, m: nat, n: nat, i: nat)
    requires Execution(events, states) && m <= n < |states| && i < |states[m].calls|
    requires states[m].calls[i].abandoned && !states[m].calls[i].published
    ensures i < |states[n].calls|
    ensures var d := states[n].calls[i];
            && (d.child.Child? ==> !d.child.fed)
            && (d.supervisor.Communicating? ==> d.child.Child? && d.child.signalled)
            && (d.published && d.supervisor != KillingEarly ==> d.killRaised || (d.child.Child? && d.child.signalled))
  {
    ExecutionInv(events, states, m);
    ExecutionInv(events, states, n);
    ExecutionEvolves(events, states, m, n);
    assert CallInv(states[m].calls[i]) && CallInv(states[n].calls[i])
           && Evolves(states[m].calls[i], states[n].calls[i]);
  }

  /** Once an abort of a call is through without raising, whether the caller's own or an
      emergency's, after a timeout, a cancellation or a teardown: a published child has been sent
      SIGKILL or was reaped, unless the supervisor is about to kill it or its own kill raised. A
      caller that left with its result cancelled had such an abort, unless that raised. */
  lemma {:induction false} AbortedChildIsKilled(events: seq<Event>, states: seq<State>, n: nat, i: nat)
    requires Execution(events, states) && n < |states| && i < |states[n].calls|
    ensures var c := states[n].calls[i];
            && (c.aborted ==>
                  c.abandoned
                  && (c.published && c.supervisor != KillingEarly && !c.killRaised ==>
                        c.child.Child? && (c.child.signalled || c.child.status == Reaped)))
            && (c.caller == Gone && c.result == Cancelled && !c.abortRaised ==> c.aborted)
  {
    ExecutionInv(events, states, n);
    assert CallInv(states[n].calls[i]);
  }

  /** An emergency abort reaches every call that has a child left: the callbacks it takes down
      include each call whose child is unreaped, and no call that has given its slot back. */
  lemma {:induction false} EmergencyCoversChildren(events: seq<Event>, states: seq<State>, n: nat, i: nat)
    requires Execution(events, states) && n < |states| && i < |states[n].calls|
    ensures var em := Next(states[n], EmergencyStart).emergencies[|states[n].emergencies|];
            && (Unreaped(states[n].calls[i]) ==> i in em.rest)
            && (states[n].calls[i].released == 1 ==> i !in em.rest)
  {
    ExecutionInv(events, states, n);
    assert CallInv(states[n].calls[i]);
    assert i in states[n].registry <==> Listed(states[n].calls[i]);
  }

  /** The caller gets a result only from a supervisor that is through: the slot is back and no
      child is left. A cancelled call never turns into a finished one. */
  lemma {:induction false} ResultMeansReleased(events: seq<Event>, states: seq<State>, n: nat, i: nat)
    requires Execution(events, states) && n < |states| && i < |states[n].calls|
    requires states[n].calls[i].result == ResultSet
    ensures var c := states[n].calls[i]; c.released == 1 && !Unreaped(c) && !c.queued && i !in states[n].registry
  {
    ExecutionInv(events, states, n);
    assert CallInv(states[n].calls[i]);
    assert i in states[n].registry <==> Listed(states[n].calls[i]);
  }

  // ----- reaping and stray signals -----

  predicate IsReaped(c: Call) {
    c.child.Child? && c.child.status == Reaped
  }

  /** The supervisor's system calls that collect an exited child. */
  predicate Reaps(c: Call, e: SupervisorStep) {
    e.ReapStep? || e == CommunicateStep(false) || (e.PollStep? && c.child.Child? && c.child.status == Exited)
  }

  predicate ReapsAt(s: State, e: Event, i: nat)
    requires i < |s.calls|
  {
    e.SupervisorMoves? && e.call == i && Reaps(s.calls[i], e.move)
  }

  /** An abort of call `i`, its caller's own or an emergency's, sends the signal. */
  predicate SignalsTo(s: State, e: Event, i: nat)
    requires i < |s.calls|
  {
    (e == CallerMoves(i, Abort(false)) && s.calls[i].caller == Aborting(Signal))
    || (e.EmergencyStep? && !e.raised && e.emergency < |s.emergencies|
        && s.emergencies[e.emergency].current == Some(i) && s.emergencies[e.emergency].pc == Signal)
  }

  /** An abort of call `i` looks at the return code, finds none and goes on to the signal. */
  predicate LooksAt(s: State, e: Event, i: nat)
    requires i < |s.calls|
  {
    Unreaped(s.calls[i])
    && ((e.CallerMoves? && e.call == i && e.step.Abort? && s.calls[i].caller == Aborting(Check))
        || (e.EmergencyStep? && e.emergency < |s.emergencies|
            && s.emergencies[e.emergency].current == Some(i) && s.emergencies[e.emergency].pc == Check))
  }

  lemma {:induction false} SupervisorReaps(c: Call, e: SupervisorStep)
    requires CallInv(c) && SupervisorReady(c, e)
    ensures IsReaped(MoveSupervisor(c, e)) <==> IsReaped(c) || Reaps(c, e)
    ensures MoveSupervisor(c, e).strays == c.strays
  {
    if e.KillEarlyStep? || e.KillLateStep? {
      OwnKillHits(c, e.raised);
      hide KillEarly, KillLate;
    }
    hide CallInv;
  }

  /** The supervisor's own kills meet a child that is not reaped. */
  lemma {:induction false} OwnKillHits(c: Call, raised: bool)
    requires CallInv(c)
    ensures c.supervisor == KillingEarly ==>
              KillEarly(c, raised).strays == c.strays && (IsReaped(KillEarly(c, raised)) <==> IsReaped(c))
    ensures c.supervisor == KillingLate ==>
              KillLate(c, raised).strays == c.strays && (IsReaped(KillLate(c, raised)) <==> IsReaped(c))
  {
    hide PublishedOk, SlotOk, EarlyOk, AbortedOk, ResultOk;
  }

  lemma {:induction false} AbortStrays(c: Call, pc: AbortPc, raised: bool)
    requires pc == Signal ==> c.child.Child?
    ensures IsReaped(AbortStep(c, pc, raised).call) <==> IsReaped(c)
    ensures AbortStep(c, pc, raised).call.strays == c.strays + (if pc == Signal && !raised && IsReaped(c) then 1 else 0)
  {
    if pc == Signal {
      SignalledStrays(c);
    }
    hide Signalled;
  }

  lemma {:induction false} SignalledStrays(c: Call)
    requires c.child.Child?
    ensures Signalled(c).child.Child? && Signalled(c).child.status == c.child.status
    ensures Signalled(c).strays == c.strays + (if IsReaped(c) then 1 else 0)
  {
  }

  lemma {:induction false} CallerStrays(c: Call, e: CallerStep)
    requires CallInv(c) && CallerReady(c, e)
    ensures IsReaped(MoveCaller(c, e)) <==> IsReaped(c)
    ensures MoveCaller(c, e).strays
            == c.strays + (if e == Abort(false) && c.caller == Aborting(Signal) && IsReaped(c) then 1 else 0)
  {
    if e.Abort? {
      assert c.caller.pc == Signal ==> c.child.Child? by { hide SlotOk, EarlyOk, ResultOk, ChildOk; }
      AbortStrays(c, c.caller.pc, e.raised);
      hide AbortStep;
    }
    hide CallInv;
  }

  /** One event: who is reaped by it, and whose count of stray signals grows. */
  ghost predicate StrayMoves(s: State, e: Event, i: nat, s': State)
    requires i < |s.calls|
  {
    i < |s'.calls|
    && (IsReaped(s'.calls[i]) <==> IsReaped(s.calls[i]) || ReapsAt(s, e, i))
    && s'.calls[i].strays == s.calls[i].strays + (if SignalsTo(s, e, i) && IsReaped(s.calls[i]) then 1 else 0)
  }

  lemma {:induction false} CallerEvent(s: State, j: nat, step: CallerStep, i: nat)
    requires Enabled(s, CallerMoves(j, step)) && i < |s.calls| && CallInv(s.calls[i])
    ensures StrayMoves(s, CallerMoves(j, step), i, Next(s, CallerMoves(j, step)))
  {
    if j == i {
      CallerStrays(s.calls[i], step);
    }
    hide MoveCaller, CallerReady, CallInv, IsReaped;
  }

  lemma {:induction false} SupervisorEvent(s: State, j: nat, move: SupervisorStep, i: nat)
    requires Enabled(s, SupervisorMoves(j, move)) && i < |s.calls| && CallInv(s.calls[i])
    ensures StrayMoves(s, SupervisorMoves(j, move), i, Next(s, SupervisorMoves(j, move)))
  {
    if j == i {
      SupervisorReaps(s.calls[i], move);
    }
    hide MoveSupervisor, SupervisorReady, CallInv, Reaps, IsReaped;
  }

  lemma {:induction false} StrayStep(s: State, e: Event, i: nat)
    requires Inv(s) && Enabled(s, e) && i < |s.calls|
    ensures StrayMoves(s, e, i, Next(s, e))
  {
    assert CallInv(s.calls[i]);
    assert forall k | 0 <= k < |s.emergencies| :: EmergencyOk(s, s.emergencies[k]);
    hide Inv, CallInv;
    match e
    case CallerMoves(j, step) => CallerEvent(s, j, step, i); hide Next, Enabled, StrayMoves;
    case SupervisorMoves(j, move) => SupervisorEvent(s, j, move, i); hide Next, Enabled, StrayMoves;
    case EmergencyStep(k, raised) => EmergencyStrays(s, k, raised, i); hide EmergencyStepped, IsReaped;
    case Acquire | EmergencyStart | EmergencyNext(_, _) => hide IsReaped;
  }

  lemma {:induction false} EmergencyStrays(s: State, k: nat, raised: bool, i: nat)
    requires Enabled(s, EmergencyStep(k, raised)) && EmergencyOk(s, s.emergencies[k]) && i < |s.calls|
             && CallInv(s.calls[i])
    ensures var d := EmergencyStepped(s, k, raised).calls[i];
            (IsReaped(d) <==> IsReaped(s.calls[i]))
            && d.strays == s.calls[i].strays
                           + (if SignalsTo(s, EmergencyStep(k, raised), i) && IsReaped(s.calls[i]) then 1 else 0)
  {
    var em := s.emergencies[k];
    if em.current == Some(i) {
      assert em.pc == Signal ==> s.calls[i].child.Child? by { hide SlotOk, EarlyOk, ResultOk, ChildOk; }
      AbortStrays(s.calls[i], em.pc, raised);
    }
    hide AbortStep, CallInv;
  }

  ghost predicate ReapedBy(events: seq<Event>, states: seq<State>, n: nat, i: nat)
    requires |states| == |events| + 1 && n < |events|
  {
    i < |states[n].calls| && ReapsAt(states[n], events[n], i)
  }

  lemma {:induction false} StrayAt(events: seq<Event>, states: seq<State>, n: nat, i: nat)
    requires Execution(events, states) && n < |events| && i < |states[n].calls|
    ensures i < |states[n + 1].calls|
    ensures IsReaped(states[n + 1].calls[i]) <==> IsReaped(states[n].calls[i]) || ReapedBy(events, states, n, i)
    ensures states[n + 1].calls[i].strays
            == states[n].calls[i].strays
               + (if SignalsTo(states[n], events[n], i) && IsReaped(states[n].calls[i]) then 1 else 0)
  {
    hide Inv, Enabled, Next, SignalsTo, IsReaped, ReapsAt;
    ExecutionInv(events, states, n);
    assert Linked(events, states, n);
    StrayStep(states[n], events[n], i);
    assert StrayMoves(states[n], events[n], i, states[n + 1]);
  }

  lemma {:induction false} ReapedSince(events: seq<Event>, states: seq<State>, m: nat, n: nat, i: nat)
    requires Execution(events, states) && m <= n < |states| && i < |states[m].calls|
    ensures i < |states[n].calls|
    ensures IsReaped(states[n].calls[i])
            <==> IsReaped(states[m].calls[i]) || exists j | m <= j < n :: ReapedBy(events, states, j, i)
    decreases n
  {
    hide Linked, IsReaped, ReapedBy;
    if m < n {
      ReapedSince(events, states, m, n - 1, i);
      StrayAt(events, states, n - 1, i);
    }
  }

  /** An abort's signal goes astray, to a process id that may be somebody else's by then, exactly
      if the supervisor reaped the child after the abort had looked at its return code. Nothing
      else adds to the stray signals of a call, in particular no kill of its supervisor. */
  lemma {:induction false} StraySignalsIff(events: seq<Event>, states: seq<State>, m: nat, n: nat, i: nat)
    requires Execution(events, states) && m < n < |events| && i < |states[m].calls| && LooksAt(states[m], events[m], i)
    ensures i < |states[n].calls| && i < |states[n + 1].calls|
    ensures states[n + 1].calls[i].strays
            == states[n].calls[i].strays
               + (if SignalsTo(states[n], events[n], i) && exists j | m < j < n :: ReapedBy(events, states, j, i)
                  then 1 else 0)
  {
    StrayAt(events, states, m, i);
    ReapedSince(events, states, m + 1, n, i);
    StrayAt(events, states, n, i);
    hide Linked, SignalsTo;
  }

  // ----- clean-up that raises -----

  /** A kill that raises in the clean-up costs the slot for good although the child is still
      there: the supervisor never reaps it, releases nothing and answers nobody. */
  lemma {:induction false} RaisingKillKeepsSlot(events: seq<Event>, states: seq<State>, m: nat, n: nat, i: nat)
    requires Execution(events, states) && m < n < |states| && events[m] == SupervisorMoves(i, KillLateStep(true))
    ensures i < |states[n].calls| && i in states[n].registry
    ensures var c := states[n].calls[i];
            c.supervisor == Crashed && c.released == 0 && Unreaped(c) && c.result != ResultSet && !c.queued
  {
    ExecutionInv(events, states, m);
    assert Linked(events, states, m);
    KillRaised(states[m], i);
    hide Linked, Next, Enabled, CallInv, Evolves, Listed, Inv, Unreaped;
    LaterCall(events, states, m + 1, n, i);
    CrashStays(states[m + 1].calls[i], states[n].calls[i]);
  }

  /** The clean-up of call `i` raises: its kill, or the closing of the child's streams. */
  predicate RaisesAtEnd(e: Event, i: nat) {
    e == SupervisorMoves(i, KillLateStep(true)) || e == SupervisorMoves(i, CloseStep(true))
  }

  lemma {:induction false} CrashOfSupervisor(c: Call, e: SupervisorStep)
    requires SupervisorReady(c, e)
    ensures MoveSupervisor(c, e).supervisor == Crashed <==>
            c.supervisor == Crashed || e == KillLateStep(true) || e == CloseStep(true)
  {
    if e.KillEarlyStep? || e.KillLateStep? || e.CloseStep? {
      CrashOfKill(c, e);
      hide *;
    } else if e.FeedStep? || e.CommunicateStep? || e.ReapStep? || e.ExitStep? {
      CrashOfWait(c, e);
      hide *;
    } else {
      CrashOfMove(c, e);
      hide *;
    }
  }

  lemma {:induction false} CrashOfKill(c: Call, e: SupervisorStep)
    requires SupervisorReady(c, e) && (e.KillEarlyStep? || e.KillLateStep? || e.CloseStep?)
    ensures MoveSupervisor(c, e).supervisor == Crashed <==> e == KillLateStep(true) || e == CloseStep(true)
  {
    hide Signalled, Spawn, Publish, Feed, Communicated, Poll, Reap, Exit, Deliver;
    SameSupervisor(c);
  }

  lemma {:induction false} SameSupervisor(c: Call)
    ensures Signalled(c).supervisor == c.supervisor
  {
  }

  lemma {:induction false} CrashOfMove(c: Call, e: SupervisorStep)
    requires SupervisorReady(c, e)
    requires e.SpawnStep? || e.PublishStep? || e.PollStep? || e.DeregisterStep? || e.ReleaseStep? || e.DeliverStep?
    ensures MoveSupervisor(c, e).supervisor != Crashed && c.supervisor != Crashed
  {
    NotCrashed(c);
    hide Signalled, KillEarly, KillLate, Close, Feed, Communicated, Reap, Exit, Spawn, Publish, Poll;
  }

  lemma {:induction false} NotCrashed(c: Call)
    ensures Publish(c).supervisor != Crashed && Poll(c).supervisor != Crashed
    ensures Spawn(c, true).supervisor != Crashed && Spawn(c, false).supervisor != Crashed
  {
  }

  lemma {:induction false} CrashOfWait(c: Call, e: SupervisorStep)
    requires SupervisorReady(c, e) && (e.FeedStep? || e.CommunicateStep? || e.ReapStep? || e.ExitStep?)
    ensures MoveSupervisor(c, e).supervisor == Crashed <==> c.supervisor == Crashed
  {
    hide Signalled, Spawn, Publish, Poll, Deliver, Close, KillEarly, KillLate;
  }

  lemma {:induction false} CrashOfCaller(c: Call, e: CallerStep)
    requires SlotOk(c) && CallerReady(c, e)
    ensures MoveCaller(c, e).supervisor == Crashed <==> c.supervisor == Crashed
  {
    if e.Abort? {
      CrashOfAbort(c, c.caller.pc, e.raised);
      hide AbortStep, SlotOk, Leave, RunDeliver;
    } else if e.LeaveCall? {
      CrashOfLeave(c, e.cancels);
      hide *;
    } else if e.Start? {
      CrashOfStart(c, e.started);
      hide *;
    } else {
      hide CallerAbort, SlotOk, Leave;
    }
  }

  lemma {:induction false} CrashOfLeave(c: Call, cancels: bool)
    requires CallerReady(c, LeaveCall(cancels))
    ensures MoveCaller(c, LeaveCall(cancels)).supervisor == c.supervisor
  {
    hide CallerAbort, RunDeliver;
  }

  lemma {:induction false} CrashOfStart(c: Call, started: bool)
    requires SlotOk(c) && CallerReady(c, Start(started))
    ensures MoveCaller(c, Start(started)).supervisor != Crashed && c.supervisor == NotRunning
  {
    hide CallerAbort, RunDeliver, Leave;
  }

  lemma {:induction false} CrashOfAbort(c: Call, pc: AbortPc, raised: bool)
    ensures AbortStep(c, pc, raised).call.supervisor == c.supervisor
  {
    hide Signalled;
    SameSupervisor(c);
  }

  lemma {:induction false} CrashStep(s: State, e: Event, i: nat)
    requires Enabled(s, e) && i < |s.calls| && SlotOk(s.calls[i])
    ensures i < |Next(s, e).calls|
    ensures Next(s, e).calls[i].supervisor == Crashed <==> s.calls[i].supervisor == Crashed || RaisesAtEnd(e, i)
  {
    hide MoveCaller, MoveSupervisor, CallerReady, SupervisorReady, AbortStep, SlotOk;
    match e
    case CallerMoves(j, step) => if j == i { CrashOfCaller(s.calls[i], step); }
    case SupervisorMoves(j, move) => if j == i { CrashOfSupervisor(s.calls[i], move); }
    case EmergencyStep(k, raised) =>
      if s.emergencies[k].current == Some(i) { CrashOfAbort(s.calls[i], s.emergencies[k].pc, raised); }
    case Acquire | EmergencyStart | EmergencyNext(_, _) =>
  }

  lemma {:induction false} FirstSeen(events: seq<Event>, states: seq<State>, n: nat, i: nat)
    requires Execution(events, states) && n < |events| && |states[n].calls| <= i < |states[n + 1].calls|
    ensures states[n + 1].calls[i] == NEW_CALL
    ensures forall j: nat | j <= n :: !RaisesAtEnd(events[j], i)
  {
    assert Linked(events, states, n);
    forall j: nat | j <= n ensures !RaisesAtEnd(events[j], i) {
      assert Linked(events, states, j);
      ExecutionEvolves(events, states, j, n);
      hide Next, Execution;
    }
    hide MoveCaller, MoveSupervisor, CallerReady, SupervisorReady, AbortStep, Execution;
  }

  /** A supervisor is lost exactly if its kill or the closing of the child's streams has raised in
      the clean-up. When a call has come to its end, its slot is missing exactly then. */
  lemma {:induction false} LostSlotIff(events: seq<Event>, states: seq<State>, n: nat, i: nat)
    requires Execution(events, states) && n < |states| && i < |states[n].calls|
    ensures states[n].calls[i].supervisor == Crashed <==> exists j: nat | j < n :: RaisesAtEnd(events[j], i)
    ensures Ended(states[n].calls[i]) ==>
              (states[n].calls[i].released == 0 <==> exists j: nat | j < n :: RaisesAtEnd(events[j], i))
  {
    hide Linked, Next, Enabled, CallInv, Evolves, Inv, RaisesAtEnd;
    CrashedSince(events, states, n, i);
    LaterCall(events, states, n, n, i);
    EndedSlot(states[n].calls[i]);
  }

  lemma {:induction false} EndedSlot(c: Call)
    requires CallInv(c)
    ensures Ended(c) ==> (c.released == 0 <==> c.supervisor == Crashed)
  {
    hide ChildOk, PublishedOk, EarlyOk, AbortedOk, ResultOk;
  }

  lemma {:induction false} CrashedSince(events: seq<Event>, states: seq<State>, n: nat, i: nat)
    requires Execution(events, states) && n < |states| && i < |states[n].calls|
    ensures states[n].calls[i].supervisor == Crashed <==> exists j: nat | j < n :: RaisesAtEnd(events[j], i)
  {
    hide Linked, Next, Enabled, CallInv, Evolves, Inv, RaisesAtEnd;
    if n > 0 && i < |states[n - 1].calls| {
      CrashedSince(events, states, n - 1, i);
      CrashAt(events, states, n - 1, i);
    } else if n > 0 {
      FirstSeen(events, states, n - 1, i);
    }
  }

  lemma {:induction false} CrashAt(events: seq<Event>, states: seq<State>, n: nat, i: nat)
    requires Execution(events, states) && n < |events| && i < |states[n].calls|
    ensures i < |states[n + 1].calls|
    ensures states[n + 1].calls[i].supervisor == Crashed <==>
            states[n].calls[i].supervisor == Crashed || RaisesAtEnd(events[n], i)
  {
    hide Next, Enabled, Evolves, Inv, RaisesAtEnd, ChildOk, PublishedOk, EarlyOk, AbortedOk, ResultOk, SlotOk;
    LaterCall(events, states, n, n, i);
    assert Linked(events, states, n);
    CrashStep(states[n], events[n], i);
  }

  lemma {:induction false} LaterCall(events: seq<Event>, states: seq<State>, m: nat, n: nat, i: nat)
    requires Execution(events, states) && m <= n < |states| && i < |states[m].calls|
    ensures i < |states[n].calls| && Evolves(states[m].calls[i], states[n].calls[i]) && CallInv(states[n].calls[i])
    ensures i in states[n].registry <==> Listed(states[n].calls[i])
  {
    hide Linked, CallInv, Evolves, Listed;
    ExecutionInv(events, states, n);
    ExecutionEvolves(events, states, m, n);
  }

  lemma {:induction false} CrashStays(c: Call, d: Call)
    requires Evolves(c, d) && c.supervisor == Crashed && Unreaped(c) && CallInv(d)
    ensures d.supervisor == Crashed && d.released == 0 && Unreaped(d) && d.result != ResultSet && !d.queued && Listed(d)
  {
    hide ChildOk, PublishedOk, EarlyOk, AbortedOk, ChildEvolves;
  }

  lemma {:induction false} KillRaised(s: State, i: nat)
    requires Inv(s) && Enabled(s, SupervisorMoves(i, KillLateStep(true)))
    ensures var d := Next(s, SupervisorMoves(i, KillLateStep(true))).calls[i]; d.supervisor == Crashed && Unreaped(d)
  {
    assert CallInv(s.calls[i]);
    hide Inv, PublishedOk, SlotOk, EarlyOk, AbortedOk, ResultOk;
  }

  // ----- emergency aborts -----

  /** Emergency `k` runs a callback whose kill raises. */
  ghost predicate RaisesIn(events: seq<Event>, states: seq<State>, n: nat, k: nat)
    requires |states| == |events| + 1 && n < |events|
  {
    events[n] == EmergencyStep(k, true) && k < |states[n].emergencies| && states[n].emergencies[k].pc == Signal
  }

  predicate Served(s: State, k: nat, i: nat) {
    k < |s.emergencies| && i < |s.calls|
    && (i in s.emergencies[k].rest || s.emergencies[k].current == Some(i) || s.calls[i].aborted)
  }

  lemma {:induction false} ServedStep(s: State, e: Event, k: nat, i: nat)
    requires Inv(s) && Enabled(s, e) && Served(s, k, i)
    requires !(e == EmergencyStep(k, true) && s.emergencies[k].pc == Signal)
    ensures Served(Next(s, e), k, i)
  {
    NextKeeps(s, e);
    assert i < |Next(s, e).calls| && (s.calls[i].aborted ==> Next(s, e).calls[i].aborted) by {
      assert Evolves(s.calls[i], Next(s, e).calls[i]);
      hide Inv, Next, Enabled, ChildEvolves;
    }
    hide Inv, AllEvolve;
    match e
    case EmergencyStep(l, raised) => CallbackServes(s, l, raised, k, i); hide EmergencyStepped;
    case _ => hide CallerNext, SupervisorNext, CallerReady, SupervisorReady; SameEmergency(s, e, k);
  }

  lemma {:induction false} SameEmergency(s: State, e: Event, k: nat)
    requires Enabled(s, e) && k < |s.emergencies| && !e.EmergencyStep?
    ensures k < |Next(s, e).emergencies|
    ensures var a, b := s.emergencies[k], Next(s, e).emergencies[k];
            forall i | i in a.rest || a.current == Some(i) :: i in b.rest || b.current == Some(i)
  {
    hide MoveCaller, MoveSupervisor, CallerReady, SupervisorReady;
  }

  lemma {:induction false} CallbackServes(s: State, l: nat, raised: bool, k: nat, i: nat)
    requires Enabled(s, EmergencyStep(l, raised)) && Served(s, k, i)
    requires s.calls[i].aborted ==> EmergencyStepped(s, l, raised).calls[i].aborted
    requires !(l == k && raised && s.emergencies[k].pc == Signal)
    ensures Served(EmergencyStepped(s, l, raised), k, i)
  {
    if l == k && s.emergencies[k].current == Some(i) {
      AbortEnds(s.calls[i], s.emergencies[k].pc, raised);
    }
    hide AbortStep;
  }

  lemma {:induction false} AbortEnds(c: Call, pc: AbortPc, raised: bool)
    requires !(pc == Signal && raised)
    ensures AbortStep(c, pc, raised).next.None? ==> AbortStep(c, pc, raised).call.aborted
  {
  }

  /** Every call registered when an emergency abort began is still to be aborted by it, being
      aborted, or has been aborted, as long as no kill of that emergency raised. So when it ends
      without one, all of them have been aborted. */
  lemma {:induction false} EmergencyServesAll(events: seq<Event>, states: seq<State>, m: nat, n: nat, k: nat, i: nat)
    requires Execution(events, states) && m < n < |states| && events[m] == EmergencyStart
    requires k == |states[m].emergencies| && i in states[m].registry
    requires forall j | m < j < n :: !RaisesIn(events, states, j, k)
    ensures Served(states[n], k, i)
    ensures states[n].emergencies[k].rest == {} && states[n].emergencies[k].current.None? ==> states[n].calls[i].aborted
    decreases n
  {
    if n == m + 1 {
      ExecutionInv(events, states, m);
      assert Linked(events, states, m);
    } else {
      EmergencyServesAll(events, states, m, n - 1, k, i);
      ExecutionInv(events, states, n - 1);
      assert Linked(events, states, n - 1) && !RaisesIn(events, states, n - 1, k);
      hide Inv, Enabled, Next, Served;
      ServedStep(states[n - 1], events[n - 1], k, i);
    }
  }

  lemma {:induction false} OverStep(s: State, e: Event, k: nat)
    requires Enabled(s, e) && k < |s.emergencies| && s.emergencies[k] == Emergency({}, None, Mark)
    ensures k < |Next(s, e).emergencies| && Next(s, e).emergencies[k] == Emergency({}, None, Mark)
  {
    hide MoveCaller, MoveSupervisor, CallerReady, SupervisorReady, AbortStep;
  }

  /** A kill that raises ends its emergency abort: the callbacks still to run are dropped and it
      never does anything again. */
  lemma {:induction false} RaisingKillEndsEmergency(events: seq<Event>, states: seq<State>, m: nat, n: nat, k: nat)
    requires Execution(events, states) && m < n < |states| && RaisesIn(events, states, m, k)
    ensures k < |states[n].emergencies| && states[n].emergencies[k] == Emergency({}, None, Mark)
    decreases n
  {
    if n == m + 1 {
      assert Linked(events, states, m);
    } else {
      RaisingKillEndsEmergency(events, states, m, n - 1, k);
      assert Linked(events, states, n - 1);
      hide Enabled, Next;
      OverStep(states[n - 1], events[n - 1], k);
    }
  }

  // ----- both do happen -----

  function OneCall(c: Call, registry: set<nat>): State {
    State(SLOTS - 1, registry, [c], [])
  }

  lemma {:induction false} Extend(events: seq<Event>, states: seq<State>, e: Event)
    returns (events': seq<Event>, states': seq<State>)
    requires Execution(events, states) && Enabled(states[|events|], e)
    ensures events' == events + [e] && Execution(events', states')
    ensures |states'| == |events'| + 1 && states'[|events'|] == Next(states[|events|], e)
  {
    hide Enabled, Next;
    events', states' := events + [e], states + [Next(states[|events|], e)];
    forall n | 0 <= n < |events'| ensures Linked(events', states', n) {
      if n < |events| {
        assert Linked(events, states, n);
      }
    }
  }

  lemma {:induction false} CallerDoes(s: State, c: Call, e: CallerStep)
    requires s == OneCall(c, if e.Register? then {} else {0}) && CallerReady(c, e) && !e.Undo? && !e.GiveBack?
    ensures Enabled(s, CallerMoves(0, e)) && Next(s, CallerMoves(0, e)) == OneCall(MoveCaller(c, e), {0})
  {
    assert [c][0 := MoveCaller(c, e)] == [MoveCaller(c, e)];
    hide MoveCaller, CallerReady;
  }

  lemma {:induction false} SupervisorDoes(s: State, c: Call, e: SupervisorStep)
    requires s == OneCall(c, {0}) && SupervisorReady(c, e) && !e.DeregisterStep? && !e.ReleaseStep?
    ensures Enabled(s, SupervisorMoves(0, e)) && Next(s, SupervisorMoves(0, e)) == OneCall(MoveSupervisor(c, e), {0})
  {
    assert [c][0 := MoveSupervisor(c, e)] == [MoveSupervisor(c, e)];
    hide MoveSupervisor, SupervisorReady;
  }

  /** The child is there and will get the request. */
  lemma {:induction false} PublishedChild() returns (events: seq<Event>, states: seq<State>, c: Call)
    ensures Execution(events, states) && |states| == |events| + 1 && states[|events|] == OneCall(c, {0})
    ensures c == NEW_CALL.(caller := Awaiting, supervisor := Communicating(true), child := Child(Running, false, false),
                           published := true)
  {
    events, states := [], [Init()];
    assert Next(Init(), Acquire) == OneCall(NEW_CALL, {});
    events, states := Extend(events, states, Acquire);
    c := NEW_CALL;
    hide Execution, Enabled, Next, OneCall;
    CallerDoes(states[|events|], c, Register);
    events, states := Extend(events, states, CallerMoves(0, Register));
    c := MoveCaller(c, Register);
    CallerDoes(states[|events|], c, Start(true));
    events, states := Extend(events, states, CallerMoves(0, Start(true)));
    c := MoveCaller(c, Start(true));
    SupervisorDoes(states[|events|], c, SpawnStep(true));
    events, states := Extend(events, states, SupervisorMoves(0, SpawnStep(true)));
    c := MoveSupervisor(c, SpawnStep(true));
    SupervisorDoes(states[|events|], c, PublishStep);
    events, states := Extend(events, states, SupervisorMoves(0, PublishStep));
    c := MoveSupervisor(c, PublishStep);
  }

  /** The child is being talked to when its caller is cancelled, and ends by itself. */
  lemma {:induction false} EndingChild() returns (events: seq<Event>, states: seq<State>, c: Call)
    ensures Execution(events, states) && |states| == |events| + 1 && states[|events|] == OneCall(c, {0})
    ensures c.caller == Aborting(Check) && c.supervisor == Communicating(true) && c.published && c.strays == 0
    ensures c.child == Child(Exited, false, false)
  {
    events, states, c := PublishedChild();
    hide Execution, Enabled, Next, OneCall;
    CallerDoes(states[|events|], c, LeaveCall(true));
    events, states := Extend(events, states, CallerMoves(0, LeaveCall(true)));
    c := MoveCaller(c, LeaveCall(true));
    CallerDoes(states[|events|], c, Abort(false));
    events, states := Extend(events, states, CallerMoves(0, Abort(false)));
    c := MoveCaller(c, Abort(false));
    SupervisorDoes(states[|events|], c, ExitStep);
    events, states := Extend(events, states, SupervisorMoves(0, ExitStep));
    c := MoveSupervisor(c, ExitStep);
  }

  /** Look, reap, signal: a cancelled call whose child ends at that moment. */
  lemma {:induction false} StrayExecution() returns (events: seq<Event>, states: seq<State>)
    ensures Execution(events, states) && |states[|events|].calls| == 1 && states[|events|].calls[0].strays == 1
  {
    var c;
    events, states, c := EndingChild();
    assert forall d :: OneCall(d, {0}).calls == [d];
    hide Execution, Enabled, Next, OneCall;
    CallerDoes(states[|events|], c, Abort(false));
    events, states := Extend(events, states, CallerMoves(0, Abort(false)));
    c := MoveCaller(c, Abort(false));
    SupervisorDoes(states[|events|], c, CommunicateStep(false));
    events, states := Extend(events, states, SupervisorMoves(0, CommunicateStep(false)));
    c := MoveSupervisor(c, CommunicateStep(false));
    CallerDoes(states[|events|], c, Abort(false));
    events, states := Extend(events, states, CallerMoves(0, Abort(false)));
  }

  /** Talking to the child raises, and so does killing it: the slot is gone with the child alive. */
  lemma {:induction false} LostSlotExecution() returns (events: seq<Event>, states: seq<State>)
    ensures Execution(events, states) && |states[|events|].calls| == 1 && states[|events|].slots == 7
    ensures Ended(states[|events|].calls[0]) && Unreaped(states[|events|].calls[0])
  {
    var c;
    events, states, c := PublishedChild();
    assert forall d :: OneCall(d, {0}).calls == [d] && OneCall(d, {0}).slots == 7;
    hide Execution, Enabled, Next, OneCall;
    SupervisorDoes(states[|events|], c, CommunicateStep(true));
    events, states := Extend(events, states, SupervisorMoves(0, CommunicateStep(true)));
    c := MoveSupervisor(c, CommunicateStep(true));
    SupervisorDoes(states[|events|], c, PollStep);
    events, states := Extend(events, states, SupervisorMoves(0, PollStep));
    c := MoveSupervisor(c, PollStep);
    SupervisorDoes(states[|events|], c, KillLateStep(true));
    events, states := Extend(events, states, SupervisorMoves(0, KillLateStep(true)));
  }
}
