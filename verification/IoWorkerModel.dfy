/** Filesystem worker supervision: callers on the event loop, one supervisor thread a call, the
    child processes and emergency aborts, each a program of atomic steps that interleave freely.
    A step is one lock-protected section or one system call. */
module IoWorkerModel {
  import opened Common

  const SLOTS: nat := 8

  datatype ChildStatus = Running | Exited | Reaped
  /** `signalled`: SIGKILL was sent before the child was reaped. `fed`: it got the request. */
  datatype Child = NoChild | Child(status: ChildStatus, signalled: bool, fed: bool)

  /** `_kill` looks at the return code and then sends the signal. */
  datatype AbortPc = Mark | Check | Signal

  datatype CallerPc = Registering | Starting | Undoing | GivingBack | Failed
                    | Awaiting | Aborting(pc: AbortPc) | Gone

  datatype SupervisorPc = NotRunning | Preparing | Spawned | KillingEarly | Communicating(payload: bool)
                        | Polling | KillingLate | Reaping | Closing | Deregistering | Releasing | Delivering | Over
                        | Crashed

  datatype Future = Pending | ResultSet | Cancelled

  /** One `run_io` call. The fields after `child` are history: the abort came before the child
      was published, an abort ran to its end, an abort's or the supervisor's kill raised, signals
      sent after the child was reaped, and how often the slot was given back. */
  datatype Call = Call(caller: CallerPc, supervisor: SupervisorPc, result: Future, queued: bool, abandoned: bool,
                       published: bool, child: Child, early: bool, aborted: bool, abortRaised: bool,
                       killRaised: bool, strays: nat, released: nat)

  /** One `abort_io_workers`: the callbacks still to run and the one being run. */
  datatype Emergency = Emergency(rest: set<nat>, current: Option<nat>, pc: AbortPc)

  datatype State = State(slots: nat, registry: set<nat>, calls: seq<Call>, emergencies: seq<Emergency>)

  const NEW_CALL :=
    Call(Registering, NotRunning, Pending, false, false, false, NoChild, false, false, false, false, 0, 0)

  function Init(): State {
    State(SLOTS, {}, [], [])
  }

  // ----- steps of one call -----

  /** One step of `abort`: where it goes next, and whether the kill raised. */
  datatype AbortTurn = AbortTurn(call: Call, next: Option<AbortPc>)

  function AbortStep(c: Call, pc: AbortPc, raised: bool): AbortTurn {
    match pc
    case Mark =>
      var c' := c.(abandoned := true, early := c.early || !c.published);
      if c.published then AbortTurn(c', Some(Check)) else AbortTurn(c'.(aborted := true), None)
    case Check =>
      if c.child.Child? && c.child.status != Reaped then AbortTurn(c, Some(Signal))
      else AbortTurn(c.(aborted := true), None)
    case Signal =>
      if raised then AbortTurn(c.(abortRaised := true), None)
      else AbortTurn(Signalled(c).(aborted := true), None)
  }

  /** SIGKILL goes out; once the child is reaped its process id may already be somebody else's. */
  function Signalled(c: Call): Call {
    if c.child.NoChild? then c
    else if c.child.status == Reaped then c.(strays := c.strays + 1)
    else c.(child := c.child.(signalled := true))
  }

  function CallerAbort(c: Call, raised: bool): Call
    requires c.caller.Aborting?
  {
    var t := AbortStep(c, c.caller.pc, raised);
    t.call.(caller := if t.next.Some? then Aborting(t.next.value) else Gone)
  }

  /** `wait_for` gave up on the result: by timeout or cancellation it cancels the future, on
      teardown it does not. */
  function Leave(c: Call, cancels: bool): Call {
    if c.result == ResultSet then c.(caller := Gone)
    else c.(result := if cancels then Cancelled else c.result, caller := Aborting(Mark))
  }

  function RunDeliver(c: Call): Call {
    c.(queued := false, result := if c.result == Pending then ResultSet else c.result)
  }

  function Spawn(c: Call, created: bool): Call {
    if created then c.(child := Child(Running, false, false), supervisor := Spawned) else c.(supervisor := Polling)
  }

  function Publish(c: Call): Call {
    c.(published := true, supervisor := if c.abandoned then KillingEarly else Communicating(true))
  }

  function KillEarly(c: Call, raised: bool): Call {
    if raised then c.(killRaised := true, supervisor := Polling)
    else Signalled(c).(supervisor := Communicating(false))
  }

  function Feed(c: Call): Call
    requires c.child.Child?
  {
    c.(child := c.child.(fed := true), supervisor := Communicating(false))
  }

  /** `communicate` ends with the child reaped, or raises. */
  function Communicated(c: Call, raised: bool): Call
    requires c.child.Child?
  {
    if raised then c.(supervisor := Polling) else c.(child := c.child.(status := Reaped), supervisor := Polling)
  }

  function Poll(c: Call): Call {
    if c.child.NoChild? then c.(supervisor := Deregistering)
    else if c.child.status == Running then c.(supervisor := KillingLate)
    else c.(child := c.child.(status := Reaped), supervisor := Closing)
  }

  function KillLate(c: Call, raised: bool): Call {
    if raised then c.(killRaised := true, supervisor := Crashed) else Signalled(c).(supervisor := Reaping)
  }

  function Reap(c: Call): Call
    requires c.child.Child?
  {
    c.(child := c.child.(status := Reaped), supervisor := Closing)
  }

  function Close(c: Call, raised: bool): Call {
    c.(supervisor := if raised then Crashed else Deregistering)
  }

  function Deliver(c: Call, open: bool): Call {
    c.(supervisor := Over, queued := open)
  }

  function Exit(c: Call): Call
    requires c.child.Child?
  {
    c.(child := c.child.(status := Exited))
  }

  // ----- the machine -----

  datatype CallerStep = Register | Start(started: bool) | Undo | GiveBack | LeaveCall(cancels: bool)
                      | Abort(raised: bool) | Delivered

  datatype SupervisorStep = SpawnStep(created: bool) | PublishStep | KillEarlyStep(raised: bool) | FeedStep
                          | CommunicateStep(raised: bool) | PollStep | KillLateStep(raised: bool) | ReapStep
                          | CloseStep(raised: bool) | DeregisterStep | ReleaseStep | DeliverStep(open: bool) | ExitStep

  predicate CallerReady(c: Call, e: CallerStep) {
    match e
    case Register => c.caller == Registering
    case Start(_) => c.caller == Starting
    case Undo => c.caller == Undoing
    case GiveBack => c.caller == GivingBack
    case LeaveCall(_) => c.caller == Awaiting
    case Abort(_) => c.caller.Aborting?
    case Delivered => c.queued
  }

  function MoveCaller(c: Call, e: CallerStep): Call
    requires CallerReady(c, e)
  {
    match e
    case Register => c.(caller := Starting)
    case Start(started) => if started then c.(caller := Awaiting, supervisor := Preparing) else c.(caller := Undoing)
    case Undo => c.(caller := GivingBack)
    case GiveBack => c.(caller := Failed, released := c.released + 1)
    case LeaveCall(cancels) => Leave(c, cancels)
    case Abort(raised) => CallerAbort(c, raised)
    case Delivered => RunDeliver(c)
  }

  /** The supervisor's steps, and the child's own exit. */
  predicate SupervisorReady(c: Call, e: SupervisorStep) {
    match e
    case SpawnStep(_) => c.supervisor == Preparing
    case PublishStep => c.supervisor == Spawned
    case KillEarlyStep(_) => c.supervisor == KillingEarly
    case FeedStep => c.supervisor == Communicating(true) && c.child.Child?
    case CommunicateStep(raised) =>
      c.supervisor.Communicating? && c.child.Child? && (!raised ==> c.child.status == Exited)
    case PollStep => c.supervisor == Polling
    case KillLateStep(_) => c.supervisor == KillingLate
    case ReapStep => c.supervisor == Reaping && c.child.Child? && c.child.status == Exited
    case CloseStep(_) => c.supervisor == Closing
    case DeregisterStep => c.supervisor == Deregistering
    case ReleaseStep => c.supervisor == Releasing
    case DeliverStep(_) => c.supervisor == Delivering
    case ExitStep => c.child.Child? && c.child.status == Running
  }

  function MoveSupervisor(c: Call, e: SupervisorStep): Call
    requires SupervisorReady(c, e)
  {
    match e
    case SpawnStep(created) => Spawn(c, created)
    case PublishStep => Publish(c)
    case KillEarlyStep(raised) => KillEarly(c, raised)
    case FeedStep => Feed(c)
    case CommunicateStep(raised) => Communicated(c, raised)
    case PollStep => Poll(c)
    case KillLateStep(raised) => KillLate(c, raised)
    case ReapStep => Reap(c)
    case CloseStep(raised) => Close(c, raised)
    case DeregisterStep => c.(supervisor := Releasing)
    case ReleaseStep => c.(supervisor := Delivering, released := c.released + 1)
    case DeliverStep(open) => Deliver(c, open)
    case ExitStep => Exit(c)
  }

  datatype Event = Acquire
                 | CallerMoves(call: nat, step: CallerStep)
                 | SupervisorMoves(call: nat, move: SupervisorStep)
                 | EmergencyStart
                 | EmergencyNext(emergency: nat, target: nat)
                 | EmergencyStep(emergency: nat, raised: bool)

  predicate Enabled(s: State, e: Event) {
    match e
    case Acquire | EmergencyStart => true
    case CallerMoves(i, step) => i < |s.calls| && CallerReady(s.calls[i], step)
    case SupervisorMoves(i, move) => i < |s.calls| && SupervisorReady(s.calls[i], move)
    case EmergencyNext(k, i) =>
      k < |s.emergencies| && s.emergencies[k].current.None? && i in s.emergencies[k].rest && i < |s.calls|
    case EmergencyStep(k, _) =>
      k < |s.emergencies| && s.emergencies[k].current.Some? && s.emergencies[k].current.value < |s.calls|
  }

  function Put(s: State, i: nat, c: Call): State
    requires i < |s.calls|
  {
    s.(calls := s.calls[i := c])
  }

  function CallerNext(s: State, i: nat, e: CallerStep): State
    requires i < |s.calls| && CallerReady(s.calls[i], e)
  {
    var s' := Put(s, i, MoveCaller(s.calls[i], e));
    if e.Register? then s'.(registry := s.registry + {i})
    else if e.Undo? then s'.(registry := s.registry - {i})
    else if e.GiveBack? then s'.(slots := s.slots + 1)
    else s'
  }

  function SupervisorNext(s: State, i: nat, e: SupervisorStep): State
    requires i < |s.calls| && SupervisorReady(s.calls[i], e)
  {
    var s' := Put(s, i, MoveSupervisor(s.calls[i], e));
    if e.DeregisterStep? then s'.(registry := s.registry - {i})
    else if e.ReleaseStep? then s'.(slots := s.slots + 1)
    else s'
  }

  /** One step of the callback an emergency abort is running; one that raises ends the loop. */
  function EmergencyStepped(s: State, k: nat, raised: bool): State
    requires Enabled(s, EmergencyStep(k, raised))
  {
    var em := s.emergencies[k];
    var t := AbortStep(s.calls[em.current.value], em.pc, raised);
    var em' := if t.next.Some? then em.(pc := t.next.value)
               else Emergency(if em.pc == Signal && raised then {} else em.rest, None, Mark);
    Put(s, em.current.value, t.call).(emergencies := s.emergencies[k := em'])
  }

  function Next(s: State, e: Event): State
    requires Enabled(s, e)
  {
    match e
    case Acquire => if s.slots == 0 then s else s.(slots := s.slots - 1, calls := s.calls + [NEW_CALL])
    case CallerMoves(i, step) => CallerNext(s, i, step)
    case SupervisorMoves(i, move) => SupervisorNext(s, i, move)
    case EmergencyStart => s.(emergencies := s.emergencies + [Emergency(s.registry, None, Mark)])
    case EmergencyNext(k, i) =>
      s.(emergencies := s.emergencies[k := Emergency(s.emergencies[k].rest - {i}, Some(i), Mark)])
    case EmergencyStep(k, raised) => EmergencyStepped(s, k, raised)
  }
}
