/** What one segment may do to a run and to the outside world. Both relations are stated
    between the run before and after a segment, so that they add up over a whole execution. */
module AgentEvolution {
  import opened Common
  import opened StreamText
  import opened AgentModel
  import opened AgentInvariant

  /** Progress of a callback within one epoch. */
  function Rank(s: CallbackState): nat {
    match s
    case Pending => 0
    case Injected => 1
    case Delivered => 2
    case CallbackDisabled | OtherCallback(_) => 3
  }

  /** Identity is kept, histories and epochs only grow, callbacks only advance within an
      epoch, finished tasks stay as they are and a task is added only to an idle run. */
  ghost predicate Evolves(r: Run, r': Run) {
    && r'.snapshot.agentId == r.snapshot.agentId
    && r'.snapshot.sessionId == r.snapshot.sessionId
    && r'.generation == r.generation
    && r.messages <= r'.messages
    && CallbackEvolves(r, r')
    && TasksEvolve(r, r')
    && (r.detached ==> r'.detached)
  }

  ghost predicate CallbackEvolves(r: Run, r': Run) {
    && r.snapshot.callbackEpoch <= r'.snapshot.callbackEpoch
    && (r.snapshot.callbackEpoch == r'.snapshot.callbackEpoch ==>
          Rank(r.snapshot.callbackState) <= Rank(r'.snapshot.callbackState))
  }

  /** The current launch may still hand over its completion. */
  predicate MayComplete(r: Run) {
    HasTask(r)
    && !(r.control.Held? && r.control.at.InputReport?)
    && (!r.done || (r.control.Held? && r.control.at.CancelReport?))
  }

  ghost predicate TasksEvolve(r: Run, r': Run) {
    && |r.tasks| <= |r'.tasks|
    && (MayComplete(r') && |r'.tasks| == |r.tasks| ==> MayComplete(r))
    && (forall k | 0 <= k < |r.tasks| && r.tasks[k].pc == Finished :: r'.tasks[k].pc == Finished)
    && (forall k | 0 <= k < |r.tasks| && r.tasks[k].joined :: r'.tasks[k].joined)
    && (|r.tasks| < |r'.tasks| ==> forall k | 0 <= k < |r.tasks| :: r'.tasks[k].pc == Finished)
  }

  /** At most one input is accepted per segment, under an id the history does not hold, and
      the epoch moves only then, by one. */
  ghost predicate AcceptsOnce(r: Run, r': Run, out: seq<Output>) {
    && (r'.snapshot.callbackEpoch != r.snapshot.callbackEpoch ==>
          r'.snapshot.callbackEpoch == r.snapshot.callbackEpoch + 1 && out != [] && out[0].InputAccepted?)
    && (forall i | 0 <= i < |out| && out[i].InputAccepted? ::
          i == 0 && !HasUuid(r.messages, out[0].uuid) && HasUuid(r'.messages, out[0].uuid)
          && |r'.messages| == |r.messages| + 1)
  }

  /** Sinks only hear of runs that are current, a completion belongs to a settled run and
      uses up the launch, and transcripts are written only for the session that owns the run. */
  ghost predicate OutputOk(c: Ctx, r: Run, r': Run, out: seq<Output>) {
    && AcceptsOnce(r, r', out)
    && forall o | o in out ::
         && (Handed(o) ==> Current(c, r'))
         && (o.Completion? ==> MayComplete(r) && !MayComplete(r') && r'.done && |out| == 1
                               && r'.tasks != [] && |r'.tasks| == |r.tasks|
                               && o.epoch == r'.snapshot.callbackEpoch)
         && (o.Transcript? ==> o.messages == r'.messages && !r'.detached
                               && r'.snapshot.sessionId == c.session && r'.generation == c.generation)
         && !o.CallbackInjected? && !o.CallbackDelivered?
  }

  ghost predicate StepOk(c: Ctx, r: Run, r': Run, out: seq<Output>) {
    Evolves(r, r') && OutputOk(c, r, r', out)
    && |r'.tasks| <= |r.tasks| + 1 && (|r'.tasks| != |r.tasks| ==>
          Current(c, r) && r.control.Held? && r.control.at.InputReport? && r'.control.Free?)
  }

  lemma {:induction false} EvolvesTransitive(a: Run, b: Run, c: Run)
    requires Evolves(a, b) && Evolves(b, c)
    ensures Evolves(a, c)
  {
  }

  // ----- the callers -----

  lemma {:induction false} SpawnedOk(c: Ctx, agentId: string, callback: bool, prompt: Message)
    requires c.phase == Open && c.mapped && c.session != ""
    ensures forall o | o in Spawned(c, agentId, callback, prompt).out ::
              o.StateEvent? && Current(c, Spawned(c, agentId, callback, prompt).run)
  {
  }

  lemma {:induction false} SpawnReportedOk(c: Ctx, r: Run, raised: bool)
    ensures StepOk(c, r, SpawnReported(c, r, raised), [])
  {
  }

  lemma {:induction false} FenceOk(c: Ctx, r: Run)
    ensures StepOk(c, r, Fence(r), [])
  {
  }

  /** What the task of a current run knows before it settles the run. */
  lemma {:induction false} WorkingRunMayComplete(c: Ctx, r: Run)
    requires RunInv(c, r) && Live(r) && Working(Last(r).pc) && Current(c, r)
    ensures MayComplete(r)
  {
  }

  lemma {:induction false} SettleOk(c: Ctx, r: Run, r0: Run)
    requires Current(c, r0) ==> MayComplete(r0)
    requires r0.tasks != [] && !(r0.control.Held? && r0.control.at.CancelReport?)
    requires r == r0.(tasks := r.tasks) && |r.tasks| == |r0.tasks| && TasksEvolve(r0, r)
    ensures StepOk(c, r0, Settle(c, r).run, Settle(c, r).out)
  {
  }

  lemma {:induction false} CancelAcquiredOk(c: Ctx, r: Run, op: OpId)
    requires r.control.Free?
    ensures StepOk(c, r, CancelAcquired(c, r, op).run, CancelAcquired(c, r, op).out)
  {
  }

  lemma {:induction false} CancelAwaitedOk(c: Ctx, r: Run, op: OpId)
    requires r.control == Held(op, CancelAwait)
    ensures StepOk(c, r, CancelAwaited(c, r, op).run, CancelAwaited(c, r, op).out)
  {
  }

  lemma {:induction false} CancelReportedOk(c: Ctx, r: Run, op: OpId, raised: bool)
    requires r.control == Held(op, CancelReport) && HasTask(r)
    ensures StepOk(c, r, CancelReported(c, r, op, raised).run, CancelReported(c, r, op, raised).out)
  {
  }

  lemma {:induction false} CancelCompletedOk(c: Ctx, r: Run, op: OpId, raised: bool)
    requires r.control == Held(op, CancelComplete(raised))
    ensures StepOk(c, r, CancelCompleted(r, raised).run, CancelCompleted(r, raised).out)
  {
  }

  lemma {:induction false} RestartOk(c: Ctx, r: Run, op: OpId, q: InputRequest, repeated: bool)
    requires Current(c, r)
    requires !repeated ==> !HasUuid(r.messages, InputUuid(q))
    ensures StepOk(c, r, Restart(c, r, op, q, repeated).run, Restart(c, r, op, q, repeated).out)
  {
    var t := Restart(c, r, op, q, repeated);
    if !repeated {
      assert t.run.messages[|r.messages|].uuid == InputUuid(q);
    }
  }

  lemma {:induction false} UnchangedOk(c: Ctx, r: Run)
    ensures StepOk(c, r, r, [])
  {
  }

  lemma {:induction false} InterruptOk(c: Ctx, r: Run, op: OpId, at: ControlPc)
    requires Live(r) && r.control.Free? && !at.CancelReport?
    ensures StepOk(c, r, MarkCancelled(r).(control := Held(op, at)), [])
  {
  }

  /** The fence does not show through the reset that follows it. */
  lemma {:induction false} RestartAfterFence(c: Ctx, r: Run, op: OpId, q: InputRequest, repeated: bool)
    ensures Restart(c, Fence(r), op, q, repeated) == Restart(c, r, op, q, repeated)
    ensures Repeats(Fence(r), q) == Repeats(r, q) && Live(Fence(r)) == Live(r) && (Live(r) ==> Fence(r) == r)
  {
  }

  lemma {:induction false} FreshInputNotHeld(r: Run, q: InputRequest)
    requires InputFresh(r, q) && !Repeats(r, q)
    ensures !HasUuid(r.messages, InputUuid(q))
  {
  }

  lemma {:induction false} InputAcquiredOk(c: Ctx, r: Run, op: OpId, q: InputRequest)
    requires r.control.Free? && InputFresh(r, q)
    ensures StepOk(c, r, InputAcquired(c, r, op, q).run, InputAcquired(c, r, op, q).out)
  {
    var repeated := Repeats(r, q);
    if !repeated { FreshInputNotHeld(r, q); }
    RestartAfterFence(c, r, op, q, repeated);
    UnchangedOk(c, r);
    if Live(r) { InterruptOk(c, r, op, InputAwait(q)); }
    if Current(c, r) { RestartOk(c, r, op, q, repeated); }
    hide StepOk, InputFresh, Answered, Restart, Fence, Repeats, RefusesInput, Live, MarkCancelled, Current;
  }

  lemma {:induction false} InputAwaitedOk(c: Ctx, r: Run, op: OpId, q: InputRequest)
    requires r.control == Held(op, InputAwait(q)) && ControlInv(r)
    ensures StepOk(c, r, InputAwaited(c, r, op, q).run, InputAwaited(c, r, op, q).out)
  {
    if Current(c, r) {
      RestartOk(c, r, op, q, false);
    }
  }

  lemma {:induction false} InputReportedOk(c: Ctx, r: Run, op: OpId, raised: bool)
    requires RunInv(c, r) && r.control == Held(op, InputReport)
    ensures StepOk(c, r, InputReported(c, r, raised).run, InputReported(c, r, raised).out)
  {
    hide SettledInv, OwnershipInv, HistoryInv;
  }

  // ----- the task -----

  /** A task's own bookkeeping, without output. */
  lemma {:induction false} QuietOk(c: Ctx, r: Run, k: nat, t: Task)
    requires k == |r.tasks| - 1 && Live(r) && t.joined == r.tasks[k].joined
    ensures StepOk(c, r, r.(tasks := r.tasks[k := t]), [])
  {
  }

  lemma {:induction false} FinalizeTaskOk(c: Ctx, r: Run, k: nat)
    requires k == |r.tasks| - 1 && Live(r)
    ensures StepOk(c, r, FinalizeTask(c, r, k).run, FinalizeTask(c, r, k).out)
  {
    hide StepOk;
    if r.done {
      QuietOk(c, r, k, r.tasks[k].(cancelRequested := false, pc := Finished));
    } else {
      ReportOk(c, r, FinalizeTask(c, r, k).run, FinalizeTask(c, r, k).out);
    }
  }

  lemma {:induction false} AdvanceQueuedOk(c: Ctx, r: Run, k: nat)
    requires k == |r.tasks| - 1 && Live(r)
    requires r.tasks[k].pc == NotStarted || r.tasks[k].pc == WaitingStart || r.tasks[k].pc == WaitingSlot
    ensures StepOk(c, r, AdvanceQueued(c, r, k).run, AdvanceQueued(c, r, k).out)
  {
    hide StepOk;
    var t := r.tasks[k];
    if t.pc != NotStarted && t.cancelRequested {
      FinalizeTaskOk(c, r, k);
    } else if t.pc == WaitingSlot {
      ReportOk(c, r, EnterBody(c, r, k).run, EnterBody(c, r, k).out);
    } else {
      QuietOk(c, r, k, t.(pc := if t.pc == NotStarted && !t.cancelRequested then WaitingStart
                                else if t.pc == NotStarted || r.cancelled || r.done then Finished else WaitingSlot));
    }
  }

  lemma {:induction false} AdvanceReportOk(c: Ctx, r: Run, k: nat)
    requires k == |r.tasks| - 1 && Reporting(r.tasks[k].pc)
    ensures StepOk(c, r, AdvanceReport(c, r, k).run, AdvanceReport(c, r, k).out)
  {
    hide StepOk;
    var t := r.tasks[k];
    QuietOk(c, r, k, t.(cancelRequested := false, pc := Releasing));
    if t.pc == ReportingFail && Current(c, r) {
      ErrorEventOk(c, r, k);
    } else {
      QuietOk(c, r, k, t.(cancelRequested := false, pc := ReportingError));
    }
  }

  lemma {:induction false} ErrorEventOk(c: Ctx, r: Run, k: nat)
    requires k == |r.tasks| - 1 && Live(r) && Current(c, r)
    ensures StepOk(c, r, MoveTo(r, k, ReportingError), [ErrorEvent(r.snapshot.error)])
  {
    QuietOk(c, r, k, r.tasks[k].(cancelRequested := false, pc := ReportingError));
  }

  lemma {:induction false} AdvanceOk(c: Ctx, r: Run, k: nat)
    requires RunInv(c, r) && CanTake(r, k, Advance)
    ensures StepOk(c, r, AdvanceTask(c, r, k).run, AdvanceTask(c, r, k).out)
  {
    hide SettledInv, OwnershipInv, HistoryInv, StepOk;
    LiveTaskIsLast(c, r, k, Advance);
    match r.tasks[k].pc
    case NotStarted | WaitingStart | WaitingSlot => AdvanceQueuedOk(c, r, k);
    case ReportingEnd | ReportingStop | ReportingFail | ReportingError => AdvanceReportOk(c, r, k);
    case Releasing =>
      if Current(c, r) { WorkingRunMayComplete(c, r); }
      SettleOk(c, MoveTo(r, k, Completing), r);
    case FinalReport =>
      if Current(c, r) { WorkingRunMayComplete(c, r); }
      SettleOk(c, MoveTo(r, k, FinalCompleting), r);
    case _ => FinishOk(c, r, k);
  }

  lemma {:induction false} FinishOk(c: Ctx, r: Run, k: nat)
    requires k == |r.tasks| - 1
    ensures StepOk(c, r, SetPc(r, k, Finished), [])
  {
  }

  lemma {:induction false} HandleOk(c: Ctx, r: Run, k: nat, choice: TaskChoice)
    requires CanTake(r, k, choice)
    requires choice.Text? || choice.Retry? || choice.Report? || choice.OtherEvent? || choice.Swallow? || choice.Prepare?
             || choice.Extend?
    ensures StepOk(c, r, TaskSegment(c, r, k, choice).run, TaskSegment(c, r, k, choice).out)
  {
  }

  function StateOut(c: Ctx, r: Run): seq<Output> {
    if Current(c, r) then [StateEvent(r.snapshot.status)] else []
  }

  /** Terminal reports: the history grew, the transcript and the state event are handed over. */
  lemma {:induction false} ReportOk(c: Ctx, r: Run, r': Run, out: seq<Output>)
    requires SameProtocol(r, r') && r.messages <= r'.messages && Last(r).pc != Finished
    requires r'.snapshot.agentId == r.snapshot.agentId
    requires r'.snapshot.callbackEpoch == r.snapshot.callbackEpoch
    requires r'.snapshot.callbackState == r.snapshot.callbackState
    requires out == WriteTranscript(c, r') + StateOut(c, r') || out == StateOut(c, r')
    ensures StepOk(c, r, r', out)
  {
    forall i | 0 <= i < |out| ensures out[i].Transcript? || (out[i].StateEvent? && Current(c, r')) {
      assert out[i] in out;
    }
    assert TasksEvolve(r, r');
  }

  lemma {:induction false} EndOk(c: Ctx, r: Run, k: nat)
    requires RunInv(c, r) && CanTake(r, k, End)
    ensures StepOk(c, r, EndBody(c, r, k).run, EndBody(c, r, k).out)
  {
    hide SettledInv, OwnershipInv, ControlInv, StepOk;
    LiveTaskIsLast(c, r, k, End);
    ReportOk(c, r, EndBody(c, r, k).run, EndBody(c, r, k).out);
  }

  lemma {:induction false} FailOk(c: Ctx, r: Run, k: nat, error: string, newId: string)
    requires RunInv(c, r) && CanTake(r, k, Fail(error, newId))
    ensures StepOk(c, r, FailBody(c, r, k, error, newId).run, FailBody(c, r, k, error, newId).out)
  {
    hide RunInv, StepOk, CapturePartial, Strip;
    LiveTaskIsLast(c, r, k, Fail(error, newId));
    CaptureGrows(c, r, k, newId);
    hide FreshFor, HasUuid, DistinctUuids;
    var e := FailBody(c, r, k, error, newId);
    assert SameProtocol(r, e.run);
    ReportOk(c, r, e.run, e.out);
  }

  lemma {:induction false} StopOk(c: Ctx, r: Run, k: nat, newId: string)
    requires RunInv(c, r) && CanTake(r, k, Stop(newId))
    ensures StepOk(c, r, StopBody(c, r, k, newId).run, StopBody(c, r, k, newId).out)
  {
    hide RunInv, StepOk, CapturePartial, Strip;
    LiveTaskIsLast(c, r, k, Stop(newId));
    CaptureGrows(c, r, k, newId);
    hide FreshFor, HasUuid, DistinctUuids;
    var e := StopBody(c, r, k, newId);
    assert SameProtocol(r, e.run);
    ReportOk(c, r, e.run, e.out);
  }

  lemma {:induction false} TaskOk(c: Ctx, r: Run, k: nat, choice: TaskChoice)
    requires RunInv(c, r) && CanTake(r, k, choice)
    ensures StepOk(c, r, TaskSegment(c, r, k, choice).run, TaskSegment(c, r, k, choice).out)
  {
    hide RunInv, StepOk;
    match choice
    case Advance => AdvanceOk(c, r, k);
    case End => EndOk(c, r, k);
    case Fail(error, newId) => FailOk(c, r, k, error, newId);
    case Stop(newId) => StopOk(c, r, k, newId);
    case _ => HandleOk(c, r, k, choice);
  }

  // ----- session switches, close and callbacks -----

  lemma {:induction false} AbandonedOk(c: Ctx, r: Run, reason: string)
    ensures StepOk(c, r, Abandoned(c, r, reason), [])
  {
  }

  lemma {:induction false} ReplacedOk(c: Ctx, r: Run)
    ensures StepOk(c, r, Replaced(r), [])
  {
  }

  lemma {:induction false} CloseMarkedOk(c: Ctx, r: Run)
    ensures StepOk(c, r, CloseMarked(c.mapped, r), [])
  {
  }

  lemma {:induction false} CloseFinishedOk(c: Ctx, r: Run)
    ensures StepOk(c, r, CloseFinished(c, r), [])
  {
  }

  /** A successful injection or delivery advances the callback within its epoch. */
  lemma {:induction false} CallbackOk(c: Ctx, r: Run, session: string, messageId: string, epoch: nat)
    ensures CanInject(r, session, epoch) ==>
              Evolves(r, InjectedRun(c, r, messageId)) && Rank(r.snapshot.callbackState) == 0
              && Rank(InjectedRun(c, r, messageId).snapshot.callbackState) == 1
    ensures CanDeliver(r, session, epoch) ==>
              Evolves(r, DeliveredRun(c, r)) && Rank(r.snapshot.callbackState) == 1
              && Rank(DeliveredRun(c, r).snapshot.callbackState) == 2
  {
  }
}
