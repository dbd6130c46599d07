/** The whole manager: all runs ever created, the agent map, the callers waiting for a
    control lock, the semaphore and the log of what was handed out. `Next` is one await-free
    segment of one operation, task or environment action; an execution is any sequence of
    enabled events. */
module AgentRuntime {
  import opened Common
  import opened StreamText
  import opened AgentModel
  import opened AgentInvariant
  import opened AgentRestore

  datatype Limits = Limits(maxDepth: int, maxActive: int, concurrency: int)

  function Capacity(l: Limits): nat {
    if l.concurrency < 1 then 1 else l.concurrency
  }

  datatype Waiter = Waiter(run: nat, request: Request)

  datatype Entry = Entry(run: nat, output: Output)

  datatype State = State(
    limits: Limits,
    clock: int,
    runs: seq<Run>,
    owned: map<string, nat>,
    waiting: map<OpId, Waiter>,
    replies: map<OpId, Reply>,
    session: string,
    env: string,
    cwd: string,
    generation: nat,
    phase: Phase,
    slots: nat,
    log: seq<Entry>)

  datatype SpawnError = ManagerClosed | NoSession | TooDeep | TooMany | UnknownProfile

  datatype Event =
    | SpawnCall(agentId: string, prompt: Message, depth: int, callback: bool, profileKnown: bool)
    | SpawnReport(run: nat, raised: bool)
    | SpawnReap(run: nat)
    | Call(op: OpId, agentId: string, request: Request)
    | Acquire(op: OpId)
    | Resume(run: nat, raised: bool)
    | TaskRuns(run: nat, task: nat, choice: TaskChoice)
    | WaitCall(agentId: string)
    | Abandon(reason: string)
    | UpdateSession(env: string, session: string, cwd: Option<string>, force: bool)
    | Restore(items: seq<Item>)
    | CloseCall
    | CloseMark
    | CloseFinish
    | MarkInjected(agentId: string, session: string, messageId: string, epoch: nat)
    | MarkDelivered(agentId: string, session: string, epoch: nat)
    | Tick(now: int)

  function Init(limits: Limits, session: string, env: string, cwd: string, now: int): State {
    State(limits, now, [], map[], map[], map[], session, env, cwd, 0, Open, Capacity(limits), [])
  }

  // ----- reading the state -----

  predicate Mapped(s: State, i: nat)
    requires i < |s.runs|
  {
    var a := s.runs[i].snapshot.agentId;
    a in s.owned && s.owned[a] == i
  }

  function CtxOf(s: State, i: nat): Ctx
    requires i < |s.runs|
  {
    Ctx(s.phase, s.session, s.generation, Mapped(s, i), s.clock)
  }

  predicate IsCurrent(s: State, i: nat)
    requires i < |s.runs|
  {
    Current(CtxOf(s, i), s.runs[i])
  }

  /** The lookup every public operation starts with. */
  predicate Visible(s: State, agentId: string) {
    agentId in s.owned && s.owned[agentId] < |s.runs|
    && (s.session == "" || s.runs[s.owned[agentId]].snapshot.sessionId == s.session)
  }

  /** What wait_agent answers after the done event of the run it was called for was set. */
  function WaitAnswer(s: State, agentId: string, i: nat): Option<Snapshot>
    requires i < |s.runs|
  {
    var r := s.runs[i];
    if agentId in s.owned && (s.owned[agentId] != i || r.detached || r.generation != s.generation) then None
    else if s.session != "" && r.snapshot.sessionId != s.session then None
    else Some(r.snapshot)
  }

  function ActiveIds(s: State): set<string> {
    set a | a in s.owned && s.owned[a] < |s.runs| && !s.runs[s.owned[a]].done
  }

  function ActiveRuns(s: State): nat {
    |ActiveIds(s)|
  }

  function SpawnRefusal(s: State, depth: int, profileKnown: bool): Option<SpawnError> {
    if s.phase != Open then Some(ManagerClosed)
    else if s.session == "" then Some(NoSession)
    else if depth > s.limits.maxDepth then Some(TooDeep)
    else if ActiveRuns(s) >= s.limits.maxActive then Some(TooMany)
    else if !profileKnown then Some(UnknownProfile)
    else None
  }

  // ----- changing one run -----

  function Tag(i: nat, out: seq<Output>): seq<Entry> {
    seq(|out|, k requires 0 <= k < |out| => Entry(i, out[k]))
  }

  function Put(s: State, i: nat, r: Run, out: seq<Output>): State
    requires i < |s.runs|
  {
    s.(runs := s.runs[i := r], log := s.log + Tag(i, out))
  }

  function Spawn(s: State, agentId: string, prompt: Message, callback: bool): State {
    var e := Spawned(Ctx(s.phase, s.session, s.generation, true, s.clock), agentId, callback, prompt);
    s.(runs := s.runs + [e.run], owned := s.owned[agentId := |s.runs|], log := s.log + Tag(|s.runs|, e.out))
  }

  function ReportSpawn(s: State, i: nat, raised: bool): State
    requires i < |s.runs|
  {
    var r := SpawnReported(CtxOf(s, i), s.runs[i], raised);
    var s' := Put(s, i, r, []);
    if r.spawn.SpawnReaping? && Mapped(s, i) then s'.(owned := s.owned - {r.snapshot.agentId}) else s'
  }

  function PlaceCall(s: State, op: OpId, agentId: string, request: Request): State {
    if s.phase != Open || !Visible(s, agentId) || (request.Input? && Blank(request.input.prompt)) then
      s.(replies := s.replies[op := Returned(false)])
    else s.(replies := s.replies[op := Suspended], waiting := s.waiting[op := Waiter(s.owned[agentId], request)])
  }

  function AcquireTurn(c: Ctx, r: Run, op: OpId, request: Request): Turn {
    match request
    case CancelRequest => CancelAcquired(c, r, op)
    case Input(q) => InputAcquired(c, r, op, q)
  }

  function TakeLock(s: State, op: OpId): State
    requires op in s.waiting && s.waiting[op].run < |s.runs|
  {
    var w := s.waiting[op];
    var t := AcquireTurn(CtxOf(s, w.run), s.runs[w.run], op, w.request);
    Put(s, w.run, t.run, t.out).(waiting := s.waiting - {op}, replies := s.replies[op := t.reply])
  }

  function HolderTurn(c: Ctx, r: Run, raised: bool): Turn
    requires r.control.Held?
  {
    var op := r.control.op;
    match r.control.at
    case CancelAwait => CancelAwaited(c, r, op)
    case CancelReport => CancelReported(c, r, op, raised)
    case CancelComplete(failed) => CancelCompleted(r, failed)
    case InputAwait(q) => InputAwaited(c, r, op, q)
    case InputReport => InputReported(c, r, raised)
  }

  function ResumeHolder(s: State, i: nat, raised: bool): State
    requires i < |s.runs| && s.runs[i].control.Held?
  {
    var t := HolderTurn(CtxOf(s, i), s.runs[i], raised);
    Put(s, i, t.run, t.out).(replies := s.replies[s.runs[i].control.op := t.reply])
  }

  predicate Enters(r: Run, k: nat, choice: TaskChoice) {
    k < |r.tasks| && choice.Advance? && r.tasks[k].pc == WaitingSlot && !r.tasks[k].cancelRequested
  }

  predicate Leaves(r: Run, k: nat, choice: TaskChoice) {
    k < |r.tasks| && choice.Advance? && r.tasks[k].pc == Completing
  }

  function RunTask(s: State, i: nat, k: nat, choice: TaskChoice): State
    requires i < |s.runs| && CanTake(s.runs[i], k, choice)
    requires Enters(s.runs[i], k, choice) ==> s.slots > 0
  {
    var e := TaskSegment(CtxOf(s, i), s.runs[i], k, choice);
    Put(s, i, e.run, e.out).(slots := if Enters(s.runs[i], k, choice) then s.slots - 1
                                      else if Leaves(s.runs[i], k, choice) then s.slots + 1
                                      else s.slots)
  }

  // ----- changing all runs -----

  function AbandonAll(s: State, reason: string): State {
    s.(runs := seq(|s.runs|, i requires 0 <= i < |s.runs| =>
                     if Mapped(s, i) then Abandoned(CtxOf(s, i), s.runs[i], reason) else s.runs[i]))
  }

  predicate SwitchesContext(s: State, env: string, session: string, cwd: Option<string>, force: bool) {
    force || session != s.session || env != s.env || (cwd.Some? && cwd.value != s.cwd)
  }

  function Switch(s: State, env: string, session: string, cwd: Option<string>, force: bool): State {
    s.(env := env, session := session, cwd := if cwd.Some? then cwd.value else s.cwd,
       generation := if SwitchesContext(s, env, session, cwd, force) then s.generation + 1 else s.generation)
  }

  function Adopted(s: State, items: seq<Item>): seq<Run> {
    RestoredRuns(s.session, s.generation, s.clock, items)
  }

  function Shift(index: map<string, nat>, n: nat): map<string, nat> {
    map a | a in index :: index[a] + n
  }

  function Detached(s: State): seq<Run> {
    seq(|s.runs|, i requires 0 <= i < |s.runs| => if Mapped(s, i) then Replaced(s.runs[i]) else s.runs[i])
  }

  function RestoreAll(s: State, items: seq<Item>): State {
    var prior := Detached(s);
    var adopted := Adopted(s, items);
    s.(runs := prior + adopted, owned := Shift(Index(adopted), |prior|))
  }

  function MarkAll(s: State): State {
    s.(phase := Marked,
       runs := seq(|s.runs|, i requires 0 <= i < |s.runs| => CloseMarked(Mapped(s, i), s.runs[i])))
  }

  function FinishAll(s: State): State {
    s.(phase := Closed,
       runs := seq(|s.runs|, i requires 0 <= i < |s.runs| => CloseFinished(CtxOf(s, i), s.runs[i])))
  }

  // ----- callbacks -----

  function Inject(s: State, agentId: string, session: string, messageId: string, epoch: nat): State {
    if agentId in s.owned && s.owned[agentId] < |s.runs| && CanInject(s.runs[s.owned[agentId]], session, epoch) then
      var i := s.owned[agentId];
      Put(s, i, InjectedRun(CtxOf(s, i), s.runs[i], messageId), [CallbackInjected(epoch)])
    else s
  }

  function Deliver(s: State, agentId: string, session: string, epoch: nat): State {
    if agentId in s.owned && s.owned[agentId] < |s.runs| && CanDeliver(s.runs[s.owned[agentId]], session, epoch) then
      var i := s.owned[agentId];
      Put(s, i, DeliveredRun(CtxOf(s, i), s.runs[i]), [CallbackDelivered(epoch)])
    else s
  }

  // ----- the transition system -----

  /** When an event can happen. Generated ids are new; transcripts hold distinct ids. */
  ghost predicate Enabled(s: State, e: Event) {
    match e
    case SpawnCall(agentId, _, _, _, _) => agentId !in s.owned
    case SpawnReport(i, _) => i < |s.runs| && s.runs[i].spawn.SpawnReporting? && HasTask(s.runs[i])
    case SpawnReap(i) => i < |s.runs| && s.runs[i].spawn.SpawnReaping? && !Live(s.runs[i])
    case Call(op, _, _) => op !in s.replies
    case Acquire(op) =>
      op in s.waiting && s.waiting[op].run < |s.runs|
      && var r := s.runs[s.waiting[op].run];
         r.control.Free? && (s.waiting[op].request.Input? ==> InputFresh(r, s.waiting[op].request.input))
    case Resume(i, _) =>
      i < |s.runs| && s.runs[i].control.Held?
      && (s.runs[i].control.at.CancelAwait? || s.runs[i].control.at.InputAwait? ==> !Live(s.runs[i]))
    case TaskRuns(i, k, choice) =>
      i < |s.runs| && CanTake(s.runs[i], k, choice) && (Enters(s.runs[i], k, choice) ==> s.slots > 0)
    case Restore(items) => forall j | 0 <= j < |items| :: DistinctUuids(items[j].transcript)
    case CloseMark => s.phase == Closing
    case CloseFinish =>
      s.phase == Marked
      && forall i, k | 0 <= i < |s.runs| && 0 <= k < |s.runs[i].tasks| && s.runs[i].tasks[k].joined ::
           s.runs[i].tasks[k].pc == Finished
    case _ => true
  }

  function Next(s: State, e: Event): (s': State)
    requires Enabled(s, e)
  {
    match e
    case SpawnCall(agentId, prompt, depth, callback, profileKnown) =>
      if SpawnRefusal(s, depth, profileKnown).Some? then s else Spawn(s, agentId, prompt, callback)
    case SpawnReport(i, raised) => ReportSpawn(s, i, raised)
    case SpawnReap(i) => Put(s, i, s.runs[i].(spawn := SpawnOver), [])
    case Call(op, agentId, request) => PlaceCall(s, op, agentId, request)
    case Acquire(op) => TakeLock(s, op)
    case Resume(i, raised) => ResumeHolder(s, i, raised)
    case TaskRuns(i, k, choice) => RunTask(s, i, k, choice)
    case WaitCall(agentId) =>
      if Visible(s, agentId) then Put(s, s.owned[agentId], Fence(s.runs[s.owned[agentId]]), []) else s
    case Abandon(reason) => AbandonAll(s, reason)
    case UpdateSession(env, session, cwd, force) => Switch(s, env, session, cwd, force)
    case Restore(items) => if s.phase != Open then s else RestoreAll(s, items)
    case CloseCall => if s.phase == Open then s.(phase := Closing) else s
    case CloseMark => MarkAll(s)
    case CloseFinish => FinishAll(s)
    case MarkInjected(agentId, session, messageId, epoch) => Inject(s, agentId, session, messageId, epoch)
    case MarkDelivered(agentId, session, epoch) => Deliver(s, agentId, session, epoch)
    case Tick(now) => s.(clock := now)
  }

  // ----- invariant -----

  ghost function SlotHolders(runs: seq<Run>): set<nat> {
    set i: nat | i < |runs| && InSlot(runs[i])
  }

  ghost predicate MapOk(s: State) {
    && (forall a | a in s.owned :: s.owned[a] < |s.runs| && s.runs[s.owned[a]].snapshot.agentId == a)
    && (forall op | op in s.waiting :: s.waiting[op].run < |s.runs|)
  }

  ghost predicate Inv(s: State) {
    && MapOk(s)
    && (forall i | 0 <= i < |s.runs| :: RunInv(CtxOf(s, i), s.runs[i]))
    && |SlotHolders(s.runs)| + s.slots == Capacity(s.limits)
  }
}
