/** One managed agent run and the await-free segments that change it.

    A run is what the manager keeps per agent: its snapshot, the tasks created for it (the
    last one is the run's current task), its event flags, the holder of its control lock and
    the progress of the call that spawned it. Every function below is one segment between two
    suspension points; what it hands to the outside world is returned as `out`. */
module AgentModel {
  import opened Common
  import opened StreamText

  datatype Status = Queued | Running | Completed | Failed | Stopped | Cancelled | OtherStatus(name: string)

  predicate Terminal(s: Status) {
    s.Completed? || s.Failed? || s.Stopped? || s.Cancelled?
  }

  datatype CallbackState = CallbackDisabled | Pending | Injected | Delivered | OtherCallback(name: string)

  datatype Snapshot = Snapshot(
    agentId: string,
    sessionId: string,
    status: Status,
    createdAt: int,
    updatedAt: int,
    finishedAt: Option<int>,
    finalResult: string,
    error: string,
    callbackEnabled: bool,
    callbackState: CallbackState,
    callbackMessageId: Option<string>,
    callbackEpoch: nat)

  /** Where a run's task is suspended. */
  datatype TaskPc =
    | NotStarted      // created, never scheduled
    | WaitingStart    // on the start event
    | WaitingSlot     // on the semaphore
    | Body            // inside the query loop
    | ReportingEnd    // handing over completed/failed, still inside the try
    | ReportingStop   // in the cancellation handler
    | ReportingFail   // in the exception handler
    | ReportingError  // handing over the error event
    | Releasing       // in the outer finally
    | Completing      // done event set, handing over the completion
    | FinalReport     // finalizing a run that never entered the body
    | FinalCompleting // the same, done event set
    | Finished

  predicate HoldsSlot(pc: TaskPc) {
    pc.Body? || pc.ReportingEnd? || pc.ReportingStop? || pc.ReportingFail? || pc.ReportingError?
    || pc.Releasing? || pc.Completing?
  }

  /** `tracked`: in the manager's set of detached tasks; `joined`: awaited by close. */
  datatype Task = Task(
    pc: TaskPc,
    cancelRequested: bool,
    tracked: bool,
    joined: bool,
    baseline: set<string>,
    projection: Option<seq<Message>>)

  type OpId = nat

  datatype InputRequest = InputRequest(prompt: string, interrupt: bool, messageId: Option<string>, newId: string)

  datatype Request = CancelRequest | Input(input: InputRequest)

  datatype ControlPc =
    | CancelAwait | CancelReport | CancelComplete(raised: bool)
    | InputAwait(request: InputRequest) | InputReport

  datatype Control = Free | Held(op: OpId, at: ControlPc)

  datatype SpawnPc = SpawnReporting | SpawnReaping(task: nat) | SpawnOver

  datatype Run = Run(
    snapshot: Snapshot,
    generation: nat,
    messages: seq<Message>,
    chunks: seq<string>,
    finalText: string,
    done: bool,
    started: bool,
    cancelled: bool,
    detached: bool,
    tasks: seq<Task>,
    control: Control,
    spawn: SpawnPc)

  /** Open until close is called; Closing until its task marks the runs; Marked while it
      waits for their tasks; Closed afterwards. The source's closed flag is `phase != Open`. */
  datatype Phase = Open | Closing | Marked | Closed

  /** The part of the manager one run's segments read; `mapped` says the agent map still
      holds this very run. */
  datatype Ctx = Ctx(phase: Phase, session: string, generation: nat, mapped: bool, now: int)

  datatype Output =
    | StateEvent(status: Status)
    | StreamEvent
    | ErrorEvent(message: string)
    | Completion(epoch: nat)
    | Transcript(messages: seq<Message>)
    | InputAccepted(uuid: string, epoch: nat)
    | CallbackInjected(epoch: nat)
    | CallbackDelivered(epoch: nat)

  /** Outputs handed to the session's event or completion sink. */
  predicate Handed(o: Output) {
    o.StateEvent? || o.StreamEvent? || o.ErrorEvent? || o.Completion?
  }

  datatype Reply = Suspended | Returned(value: bool) | Raised

  datatype Turn = Turn(run: Run, out: seq<Output>, reply: Reply)

  datatype Effect = Effect(run: Run, out: seq<Output>)

  // ----- observations -----

  predicate HasTask(r: Run) {
    r.tasks != []
  }

  predicate Live(r: Run) {
    r.tasks != [] && r.tasks[|r.tasks| - 1].pc != Finished
  }

  predicate Current(c: Ctx, r: Run) {
    c.phase == Open
    && !r.detached
    && c.mapped
    && c.session != ""
    && r.snapshot.sessionId == c.session
    && r.generation == c.generation
  }

  // ----- building blocks -----

  function SetStatus(c: Ctx, s: Snapshot, status: Status): Snapshot {
    s.(status := status, updatedAt := c.now, finishedAt := if Terminal(status) then Some(c.now) else s.finishedAt)
  }

  function SetLast(r: Run, t: Task): Run
    requires HasTask(r)
  {
    r.(tasks := r.tasks[|r.tasks| - 1 := t])
  }

  /** `task.cancel()` on the run's current task; nothing on a finished one. */
  function CancelTask(r: Run): Run {
    if Live(r) then SetLast(r, r.tasks[|r.tasks| - 1].(cancelRequested := true)) else r
  }

  function Fence(r: Run): Run {
    if HasTask(r) && !Live(r) then r.(done := true) else r
  }

  function EmitState(c: Ctx, r: Run, status: Status): Effect {
    var r' := r.(snapshot := SetStatus(c, r.snapshot, status));
    Effect(r', if Current(c, r') then [StateEvent(status)] else [])
  }

  function EmitCompletion(c: Ctx, r: Run): seq<Output> {
    if Current(c, r) && r.snapshot.callbackEnabled && r.snapshot.callbackState == Pending
    then [Completion(r.snapshot.callbackEpoch)] else []
  }

  function WriteTranscript(c: Ctx, r: Run): seq<Output> {
    if r.detached || r.snapshot.sessionId != c.session || r.generation != c.generation then []
    else [Transcript(r.messages)]
  }

  /** Set the done event, then hand over the completion if one is due. */
  function Settle(c: Ctx, r: Run): Effect {
    var r' := r.(done := true);
    Effect(r', EmitCompletion(c, r'))
  }

  /** Finalization of a cancelled run up to the delivery of its stopped event. */
  function BeginFinalize(c: Ctx, r: Run): Effect {
    var s := r.snapshot.(error := if r.detached then r.snapshot.error else "stopped",
                         finalResult := Strip(r.finalText));
    var r' := r.(snapshot := s);
    var e := EmitState(c, r', Stopped);
    Effect(e.run, WriteTranscript(c, r') + e.out)
  }

  // ----- spawn_agent -----

  function NewTask(): Task {
    Task(NotStarted, false, false, false, {}, None)
  }

  /** Reservation of the run, creation of its task and the queued event. */
  function Spawned(c: Ctx, agentId: string, callback: bool, prompt: Message): Effect {
    var s := Snapshot(agentId, c.session, Queued, c.now, c.now, None, "", "",
                      callback, if callback then Pending else CallbackDisabled, None, 0);
    EmitState(c, Run(s, c.generation, [prompt], [], "", false, false, false, false,
                     [NewTask()], Free, SpawnReporting), Queued)
  }

  predicate SpawnValid(c: Ctx, r: Run) {
    c.mapped && !r.detached && c.phase == Open
    && r.snapshot.sessionId == c.session && r.generation == c.generation
  }

  /** After the queued event: release the task, or give the reservation up. */
  function SpawnReported(c: Ctx, r: Run, raised: bool): Run {
    if !raised && SpawnValid(c, r) then r.(started := true, spawn := SpawnOver)
    else
      CancelTask(r.(cancelled := true, detached := true, started := true, done := true,
                    spawn := if HasTask(r) then SpawnReaping(|r.tasks| - 1) else SpawnOver))
  }

  // ----- cancel_agent -----

  function MarkCancelled(r: Run): Run {
    CancelTask(r.(cancelled := true, started := true))
  }

  /** The control lock was acquired by a cancel. */
  function CancelAcquired(c: Ctx, r: Run, op: OpId): Turn {
    if !Current(c, r) then Turn(r, [], Returned(false))
    else if !Live(r) then Turn(Fence(r), [], Returned(false))
    else Turn(MarkCancelled(r).(control := Held(op, CancelAwait)), [], Suspended)
  }

  /** The cancelled task has finished. */
  function CancelAwaited(c: Ctx, r: Run, op: OpId): Turn {
    if !Current(c, r) then Turn(r.(control := Free), [], Returned(false))
    else if r.done then Turn(r.(control := Free), [], Returned(true))
    else
      var e := BeginFinalize(c, r);
      Turn(e.run.(control := Held(op, CancelReport)), e.out, Suspended)
  }

  function CancelReported(c: Ctx, r: Run, op: OpId, raised: bool): Turn {
    var e := Settle(c, r);
    if e.out == [] then Turn(e.run.(control := Free), [], if raised then Raised else Returned(true))
    else Turn(e.run.(control := Held(op, CancelComplete(raised))), e.out, Suspended)
  }

  function CancelCompleted(r: Run, failed: bool): Turn {
    Turn(r.(control := Free), [], if failed then Raised else Returned(true))
  }

  // ----- send_input -----

  predicate Repeats(r: Run, q: InputRequest) {
    q.messageId.Some? && Contains(r.messages, q.messageId.value)
  }

  /** Undelivered callback of an earlier launch: fresh input is refused. */
  predicate RefusesInput(r: Run, q: InputRequest) {
    Terminal(r.snapshot.status) && r.snapshot.callbackEnabled
    && (r.snapshot.callbackState.Pending? || r.snapshot.callbackState.Injected?) && !Repeats(r, q)
  }

  function InputUuid(q: InputRequest): string {
    if q.messageId.Some? && q.messageId.value != "" then q.messageId.value else q.newId
  }

  /** A new launch: append the message, reset the run, hand over the queued event. */
  function Restart(c: Ctx, r: Run, op: OpId, q: InputRequest, repeated: bool): Turn {
    var s := r.snapshot.(error := "", finalResult := "", finishedAt := None);
    var s' := if s.callbackEnabled && !repeated
              then s.(callbackEpoch := s.callbackEpoch + 1, callbackState := Pending, callbackMessageId := None)
              else s;
    var r' := r.(
      messages := if repeated then r.messages else r.messages + [UserMessage(InputUuid(q), q.prompt)],
      done := false, cancelled := false, detached := false, started := false,
      finalText := "", chunks := [],
      snapshot := s'.(status := Queued, updatedAt := c.now),
      control := Held(op, InputReport));
    var e := EmitState(c, r', Queued);
    Turn(e.run,
         (if repeated then [] else [InputAccepted(InputUuid(q), s'.callbackEpoch)])
         + WriteTranscript(c, r') + e.out,
         Suspended)
  }

  /** The control lock was acquired by an input. */
  function InputAcquired(c: Ctx, r: Run, op: OpId, q: InputRequest): Turn {
    if !Current(c, r) then Turn(r, [], Returned(false))
    else if RefusesInput(r, q) then Turn(r, [], Returned(false))
    else if Repeats(r, q) && Answered(r.messages, q.messageId.value, {q.messageId.value}, false) then
      Turn(r, [], Returned(true))
    else
      var r' := Fence(r);
      if Live(r') then
        if Repeats(r', q) then Turn(r', [], Returned(true))
        else if !q.interrupt then Turn(r', [], Returned(false))
        else Turn(MarkCancelled(r').(control := Held(op, InputAwait(q))), [], Suspended)
      else Restart(c, r', op, q, Repeats(r', q))
  }

  /** The interrupted task has finished. The lookup made before the interruption stands. */
  function InputAwaited(c: Ctx, r: Run, op: OpId, q: InputRequest): Turn {
    if !Current(c, r) then Turn(r.(control := Free), [], Returned(false))
    else Restart(c, r, op, q, false)
  }

  /** After the queued event: launch the replacement, or leave a settled run behind. */
  function InputReported(c: Ctx, r: Run, raised: bool): Turn {
    if raised then
      var r' := r.(cancelled := true, started := true, done := true, control := Free);
      var s := r.snapshot;
      Turn(if r.detached then r'
           else r'.(snapshot := s.(status := Stopped, error := "stopped", updatedAt := c.now,
                                   finishedAt := Some(c.now))), [], Raised)
    else if !Current(c, r) then
      Turn(r.(cancelled := true, started := true, done := true, control := Free), [], Returned(false))
    else
      Turn(r.(tasks := r.tasks + [NewTask()], started := true, control := Free), [], Returned(true))
  }

  // ----- the run's task -----

  datatype TaskChoice =
    | Advance                      // continue from the current suspension point
    | Prepare                      // the body copies the history for the query loop
    | Extend(more: seq<Message>)   // the query loop extends its projection
    | Text(text: string)
    | Retry(discarded: nat)
    | Report(error: string)        // an error event from the query loop
    | OtherEvent
    | Swallow                      // the query loop swallows a cancellation
    | End                          // the query loop ends
    | Fail(error: string, newId: string)
    | Stop(newId: string)          // a cancellation surfaces

  function SetPc(r: Run, k: nat, pc: TaskPc): Run
    requires k < |r.tasks|
  {
    r.(tasks := r.tasks[k := r.tasks[k].(pc := pc)])
  }

  function ClearCancel(r: Run, k: nat): Run
    requires k < |r.tasks|
  {
    r.(tasks := r.tasks[k := r.tasks[k].(cancelRequested := false)])
  }

  /** Move on and consume a pending cancellation. */
  function MoveTo(r: Run, k: nat, pc: TaskPc): Run
    requires k < |r.tasks|
  {
    r.(tasks := r.tasks[k := r.tasks[k].(pc := pc, cancelRequested := false)])
  }

  /** Write-back of the projection and capture of the partial reply. */
  function Capture(r: Run, k: nat, newId: string): Run
    requires k < |r.tasks|
  {
    var t := r.tasks[k];
    var history := if t.projection.Some? then t.projection.value else r.messages;
    r.(messages := if r.detached then history else CapturePartial(history, t.baseline, r.finalText, newId))
  }

  /** Whether a choice is possible at the task's suspension point; a slot is needed to
      enter the body and is checked by the manager. */
  predicate CanTake(r: Run, k: nat, choice: TaskChoice) {
    k < |r.tasks| &&
    var t := r.tasks[k];
    match choice
    case Advance =>
      && !t.pc.Body? && !t.pc.Finished?
      && (t.pc == WaitingStart ==> t.cancelRequested || r.started)
      && (t.pc == ReportingEnd ==> !t.cancelRequested)
    case Prepare => t.pc == Body && t.projection.None?
    case Extend(more) =>
      t.pc == Body && t.projection.Some? && DistinctUuids(t.projection.value + more)
      && forall m | m in more :: Some(m.uuid) != PendingUuid(r)
    case Text(_) | Retry(_) | Report(_) | OtherEvent => t.pc == Body
    case Swallow => t.pc == Body && t.cancelRequested
    case End => t.pc == Body && t.projection.Some?
    case Fail(_, newId) => t.pc == Body && FreshFor(r, k, newId)
    case Stop(newId) => (t.pc.Body? || t.pc.ReportingEnd?) && t.cancelRequested && FreshFor(r, k, newId)
  }

  /** The id the message of an interrupting input will get. */
  function PendingUuid(r: Run): Option<string> {
    if r.control.Held? && r.control.at.InputAwait? then Some(InputUuid(r.control.at.request)) else None
  }

  /** Generated message ids are new to the run. */
  predicate FreshFor(r: Run, k: nat, newId: string)
    requires k < |r.tasks|
  {
    var t := r.tasks[k];
    !Contains(r.messages, newId) && newId !in t.baseline && Some(newId) != PendingUuid(r)
    && (t.projection.Some? ==> !Contains(t.projection.value, newId))
  }

  /** Finalization entered by a task cancelled before its body. */
  function FinalizeTask(c: Ctx, r: Run, k: nat): Effect
    requires k < |r.tasks|
  {
    if r.done then Effect(MoveTo(r, k, Finished), [])
    else
      var e := BeginFinalize(c, MoveTo(r, k, FinalReport));
      Effect(e.run, e.out)
  }

  function EnterBody(c: Ctx, r: Run, k: nat): Effect
    requires k < |r.tasks|
  {
    var t := r.tasks[k].(pc := Body, baseline := set m | m in r.messages :: m.uuid);
    EmitState(c, r.(tasks := r.tasks[k := t]), Running)
  }

  /** Up to the body: waiting for the start event, then for a slot. */
  function AdvanceQueued(c: Ctx, r: Run, k: nat): Effect
    requires k < |r.tasks| && (r.tasks[k].pc.NotStarted? || r.tasks[k].pc.WaitingStart? || r.tasks[k].pc.WaitingSlot?)
  {
    var t := r.tasks[k];
    match t.pc
    case NotStarted =>
      // A task cancelled before its first turn never runs its coroutine.
      Effect(SetPc(r, k, if t.cancelRequested then Finished else WaitingStart), [])
    case WaitingStart =>
      if t.cancelRequested then FinalizeTask(c, r, k)
      else Effect(SetPc(r, k, if r.cancelled || r.done then Finished else WaitingSlot), [])
    case _ =>
      if t.cancelRequested then FinalizeTask(c, r, k) else EnterBody(c, r, k)
  }

  /** From the terminal state event to the release of the slot. */
  function AdvanceReport(c: Ctx, r: Run, k: nat): Effect
    requires k < |r.tasks|
  {
    var t := r.tasks[k];
    match t.pc
    case Releasing => Settle(c, MoveTo(r, k, Completing))
    case ReportingFail =>
      if t.cancelRequested || r.detached || r.snapshot.sessionId != c.session then
        Effect(MoveTo(r, k, Releasing), [])
      else
        Effect(MoveTo(r, k, ReportingError), if Current(c, r) then [ErrorEvent(r.snapshot.error)] else [])
    case _ => Effect(MoveTo(r, k, Releasing), [])
  }

  function AdvanceTask(c: Ctx, r: Run, k: nat): Effect
    requires CanTake(r, k, Advance)
  {
    match r.tasks[k].pc
    case NotStarted | WaitingStart | WaitingSlot => AdvanceQueued(c, r, k)
    case ReportingEnd | ReportingStop | ReportingFail | ReportingError | Releasing => AdvanceReport(c, r, k)
    case FinalReport => Settle(c, MoveTo(r, k, FinalCompleting))
    case _ => Effect(SetPc(r, k, Finished), [])
  }

  // Events the query loop yields; a run that is no longer current drops them.

  function HandleText(c: Ctx, r: Run, text: string): Effect {
    if !Current(c, r) then Effect(r, [])
    else Effect(r.(chunks := r.chunks + [text], finalText := r.finalText + text), [StreamEvent])
  }

  function HandleRetry(c: Ctx, r: Run, discarded: nat): Effect {
    if !Current(c, r) then Effect(r, [])
    else
      var n := if discarded < |r.finalText| then discarded else |r.finalText|;
      Effect(r.(chunks := DropChunks(r.chunks, n), finalText := Keep(r.finalText, discarded)), [StreamEvent])
  }

  function HandleError(c: Ctx, r: Run, error: string): Effect {
    if !Current(c, r) then Effect(r, [])
    else Effect(r.(snapshot := r.snapshot.(error := error)), [StreamEvent])
  }

  function HandleOther(c: Ctx, r: Run): Effect {
    Effect(r, if Current(c, r) then [StreamEvent] else [])
  }

  function EndBody(c: Ctx, r: Run, k: nat): Effect
    requires k < |r.tasks| && r.tasks[k].projection.Some?
  {
    var r' := r.(messages := r.tasks[k].projection.value,
                 snapshot := r.snapshot.(finalResult := Strip(r.finalText)));
    var e := EmitState(c, SetPc(r', k, ReportingEnd), if r'.snapshot.error != "" then Failed else Completed);
    Effect(e.run, WriteTranscript(c, r') + e.out)
  }

  function FailBody(c: Ctx, r: Run, k: nat, error: string, newId: string): Effect
    requires k < |r.tasks|
  {
    var r1 := Capture(r, k, newId);
    var r' := r1.(snapshot := r1.snapshot.(error := error, finalResult := Strip(r1.finalText)));
    var e := EmitState(c, SetPc(r', k, ReportingFail), Failed);
    Effect(e.run, WriteTranscript(c, r') + e.out)
  }

  function StopBody(c: Ctx, r: Run, k: nat, newId: string): Effect
    requires k < |r.tasks|
  {
    var r1 := Capture(r, k, newId);
    var r' := r1.(snapshot := r1.snapshot.(error := if r1.detached then r1.snapshot.error else "stopped",
                                           finalResult := Strip(r1.finalText)));
    var e := EmitState(c, MoveTo(r', k, ReportingStop), Stopped);
    Effect(e.run, WriteTranscript(c, r') + e.out)
  }

  function SetProjection(r: Run, k: nat, projection: seq<Message>): Run
    requires k < |r.tasks|
  {
    r.(tasks := r.tasks[k := r.tasks[k].(projection := Some(projection))])
  }

  function TaskSegment(c: Ctx, r: Run, k: nat, choice: TaskChoice): Effect
    requires CanTake(r, k, choice)
  {
    match choice
    case Advance => AdvanceTask(c, r, k)
    case Prepare => Effect(SetProjection(r, k, r.messages), [])
    case Extend(more) => Effect(SetProjection(r, k, r.tasks[k].projection.value + more), [])
    case Text(text) => HandleText(c, r, text)
    case Retry(discarded) => HandleRetry(c, r, discarded)
    case Report(error) => HandleError(c, r, error)
    case OtherEvent => HandleOther(c, r)
    case Swallow => Effect(ClearCancel(r, k), [])
    case End => EndBody(c, r, k)
    case Fail(error, newId) => FailBody(c, r, k, error, newId)
    case Stop(newId) => StopBody(c, r, k, newId)
  }

  // ----- session switches and close, seen from one run -----

  function Track(r: Run): Run {
    if Live(r) then SetLast(r, r.tasks[|r.tasks| - 1].(tracked := true)) else r
  }

  function Abandoned(c: Ctx, r: Run, reason: string): Run {
    if r.done then r
    else
      var s := r.snapshot;
      var r' := r.(cancelled := true, detached := true, started := true, done := true,
                   snapshot := if Terminal(s.status) then s
                               else s.(status := Stopped, error := reason, updatedAt := c.now,
                                       finishedAt := Some(c.now)));
      CancelTask(Track(r'))
  }

  /** Removal from the map by a restore. */
  function Replaced(r: Run): Run {
    var r' := if !Live(r) then r
              else CancelTask(Track(r.(
                detached := true, cancelled := true, started := true,
                snapshot := r.snapshot.(callbackEnabled := false, callbackState := CallbackDisabled))));
    r'.(done := true)
  }

  /** The mark phase of close: cancel what still runs and join every task the manager owns. */
  function CloseMarked(mapped: bool, r: Run): Run {
    var owned := Live(r) && (r.tasks[|r.tasks| - 1].tracked || (mapped && !r.done));
    var r1 := if mapped && !r.done then
                if Live(r) then Track(r.(cancelled := true, detached := true, started := true))
                else r.(done := true)
              else r;
    if owned && Live(r1) then SetLast(r1, r1.tasks[|r1.tasks| - 1].(cancelRequested := true, joined := true)) else r1
  }

  /** The end of close: runs whose task never settled them are finalized. */
  function CloseFinished(c: Ctx, r: Run): Run {
    if r.done then r else BeginFinalize(c, r).run.(done := true)
  }

  // ----- callbacks -----

  predicate CanInject(r: Run, session: string, epoch: nat) {
    r.snapshot.callbackState == Pending && r.snapshot.sessionId == session && r.snapshot.callbackEpoch == epoch
  }

  function InjectedRun(c: Ctx, r: Run, messageId: string): Run {
    r.(snapshot := r.snapshot.(callbackState := Injected, callbackMessageId := Some(messageId), updatedAt := c.now))
  }

  predicate CanDeliver(r: Run, session: string, epoch: nat) {
    r.snapshot.callbackState == Injected && r.snapshot.sessionId == session && r.snapshot.callbackEpoch == epoch
  }

  function DeliveredRun(c: Ctx, r: Run): Run {
    r.(snapshot := r.snapshot.(callbackState := Delivered, updatedAt := c.now))
  }
}
