/** The programs of the caller, the supervisor and an abort, step by step: where each goes on and what it
    leaves behind, in every state of every execution. */
module IoWorkerPaths {
  import opened Common
  import opened IoWorkerModel
  import opened IoWorkerSafety

  // ----- an abort -----

  /** One step of an abort: it first says so, then looks whether a child was published and is unreaped,
      and only then signals; `next` is where it goes on, if it does. */
  ghost predicate AbortPath(c: Call, pc: AbortPc, raised: bool, d: Call, next: Option<AbortPc>) {
    match pc
    case Mark =>
      if c.published then d == c.(abandoned := true) && next == Some(Check)
      else d == c.(abandoned := true, early := true, aborted := true) && next == None
    case Check =>
      if c.child != NoChild && !c.child.status.Reaped? then d == c && next == Some(Signal)
      else d == c.(aborted := true) && next == None
    case Signal =>
      && next == None
      && if raised then d == c.(abortRaised := true)
         else if c.child == NoChild then d == c.(aborted := true)
         else if c.child.status.Reaped? then d == c.(aborted := true, strays := c.strays + 1)
         else d == c.(aborted := true, child := Child(c.child.status, true, c.child.fed))
  }

  lemma {:induction false} MarkPath(c: Call, raised: bool)
    ensures AbortPath(c, Mark, raised, AbortStep(c, Mark, raised).call, AbortStep(c, Mark, raised).next)
  {
    if c.published {} else {}
  }

  lemma {:induction false} CheckPath(c: Call, raised: bool)
    ensures AbortPath(c, Check, raised, AbortStep(c, Check, raised).call, AbortStep(c, Check, raised).next)
  {
    if c.child.NoChild? {} else if c.child.status == Reaped {} else {}
  }

  lemma {:induction false} SignalPath(c: Call, raised: bool)
    ensures AbortPath(c, Signal, raised, AbortStep(c, Signal, raised).call, AbortStep(c, Signal, raised).next)
  {
    if raised {} else if c.child.NoChild? {} else if c.child.status == Reaped {} else {}
  }

  lemma {:induction false} AbortGoes(c: Call, pc: AbortPc, raised: bool)
    ensures AbortPath(c, pc, raised, AbortStep(c, pc, raised).call, AbortStep(c, pc, raised).next)
  {
    hide AbortPath, AbortStep;
    match pc
    case Mark => MarkPath(c, raised);
    case Check => CheckPath(c, raised);
    case Signal => SignalPath(c, raised);
  }

  // ----- the caller -----

  /** One step of the caller: it registers its abort and starts the supervisor, or undoes both if that
      fails; it waits, and leaves with its result or to abort; a delivery sets a future nobody decided. */
  ghost predicate CallerPath(c: Call, e: CallerStep, d: Call) {
    match e
    case Register => d == c.(caller := Starting)
    case Start(started) =>
      d == if started then c.(caller := Awaiting, supervisor := Preparing) else c.(caller := Undoing)
    case Undo => d == c.(caller := GivingBack)
    case GiveBack => d == c.(caller := Failed, released := c.released + 1)
    case LeaveCall(cancels) =>
      d == if c.result.ResultSet? then c.(caller := Gone)
           else if cancels then c.(caller := Aborting(Mark), result := Cancelled) else c.(caller := Aborting(Mark))
    case Delivered => d == if c.result.Pending? then c.(queued := false, result := ResultSet) else c.(queued := false)
    case Abort(raised) =>
      c.caller.Aborting?
      && exists a: Call, next: Option<AbortPc> ::
           AbortPath(c, c.caller.pc, raised, a, next)
           && d == a.(caller := if next.Some? then Aborting(next.value) else Gone)
  }

  lemma {:induction false} LeavePath(c: Call, cancels: bool)
    requires CallerReady(c, LeaveCall(cancels))
    ensures CallerPath(c, LeaveCall(cancels), MoveCaller(c, LeaveCall(cancels)))
  {
    if c.result == ResultSet {} else if cancels {} else {}
  }

  lemma {:induction false} OwnAbortPath(c: Call, raised: bool)
    requires CallerReady(c, Abort(raised))
    ensures CallerPath(c, Abort(raised), MoveCaller(c, Abort(raised)))
  {
    AbortGoes(c, c.caller.pc, raised);
    hide AbortStep, AbortPath;
  }

  lemma {:induction false} StartPath(c: Call, e: CallerStep)
    requires CallerReady(c, e) && !e.LeaveCall? && !e.Abort?
    ensures CallerPath(c, e, MoveCaller(c, e))
  {
    match e
    case Register =>
    case Start(started) => if started {} else {}
    case Undo =>
    case GiveBack =>
    case Delivered => if c.result == Pending {} else {}
  }

  lemma {:induction false} CallerGoes(c: Call, e: CallerStep)
    requires CallerReady(c, e)
    ensures CallerPath(c, e, MoveCaller(c, e))
  {
    hide CallerPath, MoveCaller;
    match e
    case LeaveCall(cancels) => LeavePath(c, cancels);
    case Abort(raised) => OwnAbortPath(c, raised);
    case _ => StartPath(c, e);
  }

  // ----- the supervisor -----

  /** One step of the supervisor, or the child's own end. */
  ghost predicate SupervisorPath(c: Call, e: SupervisorStep, d: Call) {
    match e
    case SpawnStep(created) =>
      d == if created then c.(child := Child(ChildStatus.Running, false, false), supervisor := Spawned)
           else c.(supervisor := Polling)
    case PublishStep =>
      d == c.(published := true, supervisor := if c.abandoned then KillingEarly else Communicating(true))
    case KillEarlyStep(raised) => KilledBy(c, raised, Polling, Communicating(false), d)
    case KillLateStep(raised) => KilledBy(c, raised, Crashed, Reaping, d)
    case FeedStep =>
      c.child.Child? && d == c.(supervisor := Communicating(false),
                                child := Child(c.child.status, c.child.signalled, true))
    case CommunicateStep(raised) =>
      d == if raised then c.(supervisor := Polling) else ReapedInto(c, Polling)
    case PollStep =>
      d == if c.child.NoChild? then c.(supervisor := Deregistering)
           else if c.child.status.Running? then c.(supervisor := KillingLate) else ReapedInto(c, Closing)
    case ReapStep => d == ReapedInto(c, Closing)
    case CloseStep(raised) => d == c.(supervisor := if raised then Crashed else Deregistering)
    case DeregisterStep => d == c.(supervisor := Releasing)
    case ReleaseStep => d == c.(supervisor := Delivering, released := c.released + 1)
    case DeliverStep(open) => d == c.(supervisor := Over, queued := open)
    case ExitStep => c.child.Child? && d == c.(child := Child(Exited, c.child.signalled, c.child.fed))
  }

  /** The child's end has been seen. */
  function ReapedInto(c: Call, pc: SupervisorPc): Call {
    match c.child
    case NoChild => c.(supervisor := pc)
    case Child(_, signalled, fed) => c.(supervisor := pc, child := Child(Reaped, signalled, fed))
  }

  ghost predicate KilledBy(c: Call, raised: bool, onError: SupervisorPc, onward: SupervisorPc, d: Call) {
    if raised then d == c.(killRaised := true, supervisor := onError)
    else if c.child.NoChild? then d == c.(supervisor := onward)
    else if c.child.status.Reaped? then d == c.(supervisor := onward, strays := c.strays + 1)
    else d == c.(supervisor := onward, child := Child(c.child.status, true, c.child.fed))
  }

  lemma {:induction false} KillPath(c: Call, raised: bool)
    ensures KilledBy(c, raised, Polling, Communicating(false), KillEarly(c, raised))
    ensures KilledBy(c, raised, Crashed, Reaping, KillLate(c, raised))
  {
    if raised {} else if c.child.NoChild? {} else if c.child.status == Reaped {} else {}
  }

  lemma {:induction false} PollPath(c: Call)
    requires SupervisorReady(c, PollStep)
    ensures SupervisorPath(c, PollStep, MoveSupervisor(c, PollStep))
  {
    if c.child.NoChild? {} else if c.child.status == ChildStatus.Running {} else {}
  }

  lemma {:induction false} TalkPath(c: Call, e: SupervisorStep)
    requires SupervisorReady(c, e) && (e.SpawnStep? || e.PublishStep? || e.FeedStep? || e.CommunicateStep?)
    ensures SupervisorPath(c, e, MoveSupervisor(c, e))
  {
    match e
    case SpawnStep(created) => if created {} else {}
    case PublishStep => if c.abandoned {} else {}
    case FeedStep =>
    case CommunicateStep(raised) => if raised {} else {}
  }

  lemma {:induction false} EndPath(c: Call, e: SupervisorStep)
    requires SupervisorReady(c, e)
    requires e.ReapStep? || e.CloseStep? || e.DeregisterStep? || e.ReleaseStep? || e.DeliverStep? || e.ExitStep?
    ensures SupervisorPath(c, e, MoveSupervisor(c, e))
  {
    match e
    case ReapStep =>
    case CloseStep(raised) => if raised {} else {}
    case DeregisterStep =>
    case ReleaseStep =>
    case DeliverStep(open) =>
    case ExitStep =>
  }

  lemma {:induction false} SupervisorGoes(c: Call, e: SupervisorStep)
    requires SupervisorReady(c, e)
    ensures SupervisorPath(c, e, MoveSupervisor(c, e))
  {
    match e
    case KillEarlyStep(raised) => KillPath(c, raised); hide KillEarly, KilledBy;
    case KillLateStep(raised) => KillPath(c, raised); hide KillLate, KilledBy;
    case PollStep => PollPath(c); hide *;
    case SpawnStep(_) | PublishStep | FeedStep | CommunicateStep(_) => TalkPath(c, e); hide *;
    case _ => EndPath(c, e); hide *;
  }

  // ----- the machine -----

  /** One step of one party: its own call changes as its program says, the registry and the slots with it,
      and nothing else. */
  lemma {:induction false} PartyGoes(events: seq<Event>, states: seq<State>, n: nat)
    requires Execution(events, states) && n < |events| && (events[n].CallerMoves? || events[n].SupervisorMoves?)
    ensures var s, s', e := states[n], states[n + 1], events[n];
            && e.call < |s.calls| && |s'.calls| == |s.calls| && s'.emergencies == s.emergencies
            && s'.calls == s.calls[e.call := s'.calls[e.call]]
            && (e.CallerMoves? ==> CallerPath(s.calls[e.call], e.step, s'.calls[e.call]))
            && (e.SupervisorMoves? ==> SupervisorPath(s.calls[e.call], e.move, s'.calls[e.call]))
            && s'.registry == (if e.CallerMoves? && e.step.Register? then s.registry + {e.call}
                               else if (e.CallerMoves? && e.step.Undo?)
                                   || (e.SupervisorMoves? && e.move.DeregisterStep?)
                               then s.registry - {e.call} else s.registry)
            && s'.slots == s.slots + (if (e.CallerMoves? && e.step.GiveBack?)
                                         || (e.SupervisorMoves? && e.move.ReleaseStep?) then 1 else 0)
  {
    assert Linked(events, states, n);
    hide MoveCaller, MoveSupervisor, CallerPath, SupervisorPath, CallerReady, SupervisorReady;
    match events[n]
    case CallerMoves(i, step) => CallerGoes(states[n].calls[i], step);
    case SupervisorMoves(i, move) => SupervisorGoes(states[n].calls[i], move);
  }

  /** A new call takes a free slot, or is turned away without a trace. */
  lemma {:induction false} CallBegins(events: seq<Event>, states: seq<State>, n: nat)
    requires Execution(events, states) && n < |events| && events[n].Acquire?
    ensures var s := states[n];
            states[n + 1]
            == if s.slots == 0 then s
               else s.(slots := s.slots - 1,
                       calls := s.calls + [Call(Registering, NotRunning, Pending, false, false, false, NoChild, false,
                                                false, false, false, 0, 0)])
  {
    assert Linked(events, states, n);
  }

  /** An emergency abort takes down the callbacks registered when it began, each from its start and one
      after the other; one that raises ends it. */
  lemma {:induction false} EmergencyGoes(events: seq<Event>, states: seq<State>, n: nat)
    requires Execution(events, states) && n < |events|
    requires events[n].EmergencyStart? || events[n].EmergencyNext? || events[n].EmergencyStep?
    ensures var s, s' := states[n], states[n + 1];
            && s'.slots == s.slots && s'.registry == s.registry
            && match events[n]
               case EmergencyStart =>
                 s'.calls == s.calls && s'.emergencies == s.emergencies + [Emergency(s.registry, None, Mark)]
               case EmergencyNext(k, i) =>
                 && k < |s.emergencies| && s.emergencies[k].current.None? && i in s.emergencies[k].rest
                 && s'.calls == s.calls
                 && s'.emergencies == s.emergencies[k := Emergency(s.emergencies[k].rest - {i}, Some(i), Mark)]
               case EmergencyStep(k, raised) =>
                 && k < |s.emergencies| && s.emergencies[k].current.Some?
                 && s.emergencies[k].current.value < |s.calls|
                 && Aborts(s, s', k, raised)
               case _ => true
  {
    assert Linked(events, states, n);
    match events[n]
    case EmergencyStart =>
    case EmergencyNext(_, _) =>
    case EmergencyStep(k, raised) => AbortsNext(states[n], k, raised); hide EmergencyStepped, Aborts;
  }

  ghost predicate Aborts(s: State, s': State, k: nat, raised: bool)
    requires k < |s.emergencies| && s.emergencies[k].current.Some? && s.emergencies[k].current.value < |s.calls|
  {
    var em := s.emergencies[k];
    var i := em.current.value;
    exists d: Call, next: Option<AbortPc> ::
      && AbortPath(s.calls[i], em.pc, raised, d, next) && s'.calls == s.calls[i := d]
      && s'.emergencies == s.emergencies[k := if next.Some? then em.(pc := next.value)
                                              else if em.pc.Signal? && raised then Emergency({}, None, Mark)
                                              else Emergency(em.rest, None, Mark)]
  }

  lemma {:induction false} AbortsNext(s: State, k: nat, raised: bool)
    requires Enabled(s, EmergencyStep(k, raised))
    ensures Aborts(s, EmergencyStepped(s, k, raised), k, raised)
  {
    var em := s.emergencies[k];
    AbortGoes(s.calls[em.current.value], em.pc, raised);
    hide AbortStep, AbortPath;
  }
}
