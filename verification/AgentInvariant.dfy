/** What every segment keeps true of one run, stated relative to the manager context. */
module AgentInvariant {
  import opened Common
  import opened StreamText
  import opened AgentModel

  function Last(r: Run): Task
    requires HasTask(r)
  {
    r.tasks[|r.tasks| - 1]
  }

  predicate AfterDone(pc: TaskPc) {
    pc == Completing || pc == FinalCompleting
  }

  /** The task has not looked at the run's flags yet. */
  predicate Unstarted(pc: TaskPc) {
    pc.NotStarted? || pc.WaitingStart?
  }

  /** A launch that found the done event already set: its task returns without running. */
  predicate Stillborn(r: Run)
    requires HasTask(r)
  {
    r.done && Unstarted(Last(r).pc)
  }

  /** Only the newest task can be unfinished. */
  ghost predicate OneLiveTask(r: Run) {
    forall k | 0 <= k < |r.tasks| - 1 :: r.tasks[k].pc == Finished
  }

  /** Who may still be unsettled. */
  ghost predicate SettledInv(c: Ctx, r: Run) {
    && (!c.mapped ==> r.done)
    && (r.detached && (c.phase.Open? || c.phase.Closing?) ==> r.done)
    && r.generation <= c.generation
    && (c.phase == Open && !r.done && r.generation == c.generation ==> Current(c, r))
    && (c.phase == Closed ==> r.done)
    && (Current(c, r) && !r.done && (!Live(r) || r.cancelled) ==> r.control.Held?)
    && (!r.done && Live(r) && Last(r).cancelRequested ==> r.cancelled)
    && (Live(r) && Unstarted(Last(r).pc) && r.cancelled ==> Last(r).cancelRequested)
    && (!r.done && r.tasks == [] ==> r.control.Held? && r.control.at.InputReport?)
  }

  /** What a settled run's unfinished task is doing, and who waits for it. */
  ghost predicate OwnershipInv(c: Ctx, r: Run) {
    && (r.spawn.SpawnReaping? ==> r.spawn.task == |r.tasks| - 1 && r.detached && r.done && !c.mapped)
    && (Live(r) ==>
          var t := Last(r);
          && (AfterDone(t.pc) ==> r.done)
          && (t.tracked ==> r.detached)
          && (r.done && !AfterDone(t.pc) && !Stillborn(r) ==> t.tracked || r.spawn.SpawnReaping?)
          && (!c.mapped ==> t.tracked || r.spawn.SpawnReaping?)
          && (c.phase.Marked? || c.phase.Closed? ==>
                (c.phase.Marked? && t.joined) || AfterDone(t.pc) || Stillborn(r) || r.spawn.SpawnReaping?)
          && (if c.phase.Marked? then t.tracked ==> t.joined else !t.joined)
          && (c.phase.Closed? ==> !t.tracked)
          && ((t.pc.NotStarted? || t.pc.WaitingStart?) && !r.started ==> r.spawn.SpawnReporting?))
  }

  /** What the holder of the control lock relies on. */
  ghost predicate ControlInv(r: Run) {
    r.control.Held? ==>
      match r.control.at
      case CancelAwait => HasTask(r)
      case CancelReport => HasTask(r) && !Live(r)
      case CancelComplete(_) => HasTask(r) && !Live(r) && r.done
      case InputReport => !Live(r) && r.finalText == "" && r.chunks == [] && (r.cancelled ==> r.detached)
      case InputAwait(q) =>
        HasTask(r) && !HasUuid(r.messages, InputUuid(q))
        && (Live(r) && Last(r).projection.Some? ==> !HasUuid(Last(r).projection.value, InputUuid(q)))
  }

  /** The history only grows, the text is what the chunks spell. */
  ghost predicate HistoryInv(r: Run) {
    && DistinctUuids(r.messages)
    && (HasTask(r) ==> r.finalText == Flatten(r.chunks))
    && (Live(r) ==>
          var t := Last(r);
          && ((t.pc.NotStarted? || t.pc.WaitingStart? || t.pc.WaitingSlot?) ==> t.projection.None?)
          && (t.pc == Body && t.projection.Some? ==>
                r.messages <= t.projection.value && DistinctUuids(t.projection.value))
          && (t.pc == ReportingEnd ==> t.projection == Some(r.messages)))
  }

  ghost predicate RunInv(c: Ctx, r: Run) {
    OneLiveTask(r) && SettledInv(c, r) && OwnershipInv(c, r) && ControlInv(r) && HistoryInv(r)
  }

  // ----- appending to a history -----

  lemma {:induction false} AppendDistinct(messages: seq<Message>, m: Message)
    requires DistinctUuids(messages) && !HasUuid(messages, m.uuid)
    ensures DistinctUuids(messages + [m])
  {
  }

  lemma {:induction false} CaptureDistinct(messages: seq<Message>, baseline: set<string>, text: string, newId: string)
    requires DistinctUuids(messages) && !HasUuid(messages, newId)
    ensures DistinctUuids(CapturePartial(messages, baseline, text, newId))
    ensures forall id | !HasUuid(messages, id) && id != newId ::
              !HasUuid(CapturePartial(messages, baseline, text, newId), id)
  {
  }

  // ----- changes that leave the protocol state alone -----

  /** Nothing but the owning session is read from the snapshot. */
  lemma {:induction false} SnapshotKeeps(c: Ctx, r: Run, s: Snapshot)
    requires RunInv(c, r) && s.sessionId == r.snapshot.sessionId
    ensures RunInv(c, r.(snapshot := s))
  {
    var r' := r.(snapshot := s);
    assert HistoryInv(r') && ControlInv(r') by { hide SettledInv, OwnershipInv; }
    assert OwnershipInv(c, r') by { hide SettledInv, HistoryInv, ControlInv; }
  }

  /** Suspension points between the semaphore and the done event. */
  predicate Working(pc: TaskPc) {
    !(pc.NotStarted? || pc.WaitingStart? || pc.Completing? || pc.FinalCompleting? || pc.Finished?)
  }

  /** Same flags, same owners, same tasks except for the last one's local state. */
  ghost predicate SameProtocol(r: Run, r': Run) {
    && r'.snapshot.sessionId == r.snapshot.sessionId && r'.generation == r.generation
    && r'.done == r.done && r'.started == r.started && r'.cancelled == r.cancelled && r'.detached == r.detached
    && r'.control == r.control && r'.spawn == r.spawn
    && HasTask(r) && |r'.tasks| == |r.tasks|
    && (forall k | 0 <= k < |r.tasks| - 1 :: r'.tasks[k] == r.tasks[k])
    && Last(r').tracked == Last(r).tracked && Last(r').joined == Last(r).joined
    && (Last(r').cancelRequested ==> Last(r).cancelRequested)
  }

  /** A working task moves on: only its history and its control-lock promise need care. */
  lemma {:induction false} WorkKeeps(c: Ctx, r: Run, r': Run)
    requires RunInv(c, r) && SameProtocol(r, r')
    requires Working(Last(r').pc) && (Working(Last(r).pc) || (Live(r) && !r.done))
    requires ControlInv(r') && HistoryInv(r')
    ensures RunInv(c, r')
  {
    assert SettledInv(c, r') by { hide OwnershipInv, HistoryInv, ControlInv; }
    assert OwnershipInv(c, r') by { hide SettledInv, HistoryInv, ControlInv; }
  }

  // ----- segments of the callers -----

  lemma {:induction false} SpawnedKeeps(c: Ctx, agentId: string, callback: bool, prompt: Message)
    requires c.phase == Open && c.mapped && c.session != ""
    ensures RunInv(c, Spawned(c, agentId, callback, prompt).run)
  {
  }

  lemma {:induction false} SpawnReportedKeeps(c: Ctx, r: Run, raised: bool)
    requires RunInv(c, r) && r.spawn.SpawnReporting? && HasTask(r)
    ensures var r' := SpawnReported(c, r, raised);
            RunInv(if r'.spawn.SpawnReaping? then c.(mapped := false) else c, r')
  {
    var r' := SpawnReported(c, r, raised);
    assert HistoryInv(r') by { hide SettledInv, OwnershipInv, ControlInv; }
    assert ControlInv(r') by { hide SettledInv, OwnershipInv, HistoryInv; }
  }

  lemma {:induction false} SpawnReapedKeeps(c: Ctx, r: Run)
    requires RunInv(c, r) && r.spawn.SpawnReaping? && !Live(r)
    ensures RunInv(c, r.(spawn := SpawnOver))
  {
  }

  lemma {:induction false} MarkCancelledKeeps(c: Ctx, r: Run, op: OpId, at: ControlPc)
    requires RunInv(c, r) && r.control.Free? && Live(r)
    requires ControlInv(r.(control := Held(op, at)))
    ensures RunInv(c, MarkCancelled(r).(control := Held(op, at)))
  {
    MarkedHistory(r, op, at);
    MarkedOwnership(c, r, op, at);
    hide OwnershipInv, ControlInv, HistoryInv;
  }

  lemma {:induction false} MarkedHistory(r: Run, op: OpId, at: ControlPc)
    requires OneLiveTask(r) && HistoryInv(r) && Live(r) && ControlInv(r.(control := Held(op, at)))
    ensures var r' := MarkCancelled(r).(control := Held(op, at)); OneLiveTask(r') && HistoryInv(r') && ControlInv(r')
  {
  }

  lemma {:induction false} MarkedOwnership(c: Ctx, r: Run, op: OpId, at: ControlPc)
    requires OwnershipInv(c, r) && Live(r)
    ensures OwnershipInv(c, MarkCancelled(r).(control := Held(op, at)))
  {
  }

  lemma {:induction false} FenceKeeps(c: Ctx, r: Run)
    requires RunInv(c, r)
    ensures RunInv(c, Fence(r))
  {
    assert SettledInv(c, Fence(r)) by { hide OwnershipInv, ControlInv, HistoryInv; }
    assert ControlInv(Fence(r)) by { hide OwnershipInv, SettledInv, HistoryInv; }
  }

  lemma {:induction false} CancelAcquiredKeeps(c: Ctx, r: Run, op: OpId)
    requires RunInv(c, r) && r.control.Free?
    ensures RunInv(c, CancelAcquired(c, r, op).run)
  {
    hide RunInv;
    if Current(c, r) {
      if Live(r) {
        MarkCancelledKeeps(c, r, op, CancelAwait);
      } else {
        FenceKeeps(c, r);
      }
    }
  }

  /** Giving the control lock back needs the run settled, or nobody relying on the holder. */
  lemma {:induction false} ReleaseKeeps(c: Ctx, r: Run)
    requires RunInv(c, r) && (r.done || (HasTask(r) && !Current(c, r)))
    ensures RunInv(c, r.(control := Free))
  {
    var r' := r.(control := Free);
    assert SettledInv(c, r') by { hide OwnershipInv, ControlInv, HistoryInv; }
    assert OwnershipInv(c, r') by { hide SettledInv, ControlInv, HistoryInv; }
    assert HistoryInv(r') by { hide SettledInv, ControlInv, OwnershipInv; }
  }

  /** The holder moves on while the run's task is finished. */
  lemma {:induction false} HolderKeeps(c: Ctx, r: Run, op: OpId, at: ControlPc)
    requires RunInv(c, r) && r.control.Held? && ControlInv(r.(control := Held(op, at)))
    ensures RunInv(c, r.(control := Held(op, at)))
  {
    var r' := r.(control := Held(op, at));
    assert SettledInv(c, r') by { hide OwnershipInv, ControlInv, HistoryInv; }
    assert OwnershipInv(c, r') by { hide SettledInv, ControlInv, HistoryInv; }
    assert HistoryInv(r') by { hide SettledInv, ControlInv, OwnershipInv; }
  }

  lemma {:induction false} CancelAwaitedKeeps(c: Ctx, r: Run, op: OpId)
    requires RunInv(c, r) && r.control == Held(op, CancelAwait) && !Live(r)
    ensures RunInv(c, CancelAwaited(c, r, op).run)
  {
    if !Current(c, r) || r.done {
      ReleaseKeeps(c, r);
    } else {
      HolderKeeps(c, r, op, CancelReport) by { hide SettledInv, OwnershipInv, HistoryInv; }
      hide RunInv;
      SnapshotKeeps(c, r.(control := Held(op, CancelReport)), BeginFinalize(c, r).run.snapshot);
    }
  }

  lemma {:induction false} SetDoneKeeps(c: Ctx, r: Run)
    requires RunInv(c, r) && !Live(r)
    ensures RunInv(c, r.(done := true))
  {
    var r' := r.(done := true);
    assert SettledInv(c, r') by { hide OwnershipInv, ControlInv, HistoryInv; }
    assert ControlInv(r') by { hide OwnershipInv, SettledInv, HistoryInv; }
  }

  lemma {:induction false} CancelReportedKeeps(c: Ctx, r: Run, op: OpId, raised: bool)
    requires RunInv(c, r) && r.control == Held(op, CancelReport)
    ensures RunInv(c, CancelReported(c, r, op, raised).run)
  {
    var r' := r.(done := true);
    SetDoneKeeps(c, r) by { hide OwnershipInv, SettledInv, HistoryInv; }
    if EmitCompletion(c, r') == [] {
      ReleaseKeeps(c, r');
    } else {
      HolderKeeps(c, r', op, CancelComplete(raised)) by { hide SettledInv, OwnershipInv, HistoryInv; }
    }
  }

  lemma {:induction false} CancelCompletedKeeps(c: Ctx, r: Run, op: OpId, raised: bool)
    requires RunInv(c, r) && r.control == Held(op, CancelComplete(raised))
    ensures RunInv(c, CancelCompleted(r, raised).run)
  {
    ReleaseKeeps(c, r) by { hide OwnershipInv, SettledInv, HistoryInv; }
  }

  lemma {:induction false} RestartKeeps(c: Ctx, r: Run, op: OpId, q: InputRequest, repeated: bool)
    requires RunInv(c, r) && Current(c, r) && !Live(r)
    requires !repeated ==> !HasUuid(r.messages, InputUuid(q))
    ensures RunInv(c, Restart(c, r, op, q, repeated).run)
  {
    var r' := Restart(c, r, op, q, repeated).run;
    if !repeated {
      AppendDistinct(r.messages, UserMessage(InputUuid(q), q.prompt));
    }
    assert HistoryInv(r') by { hide SettledInv, OwnershipInv, ControlInv; }
    assert SettledInv(c, r') by { hide HistoryInv, OwnershipInv, ControlInv; }
  }

  /** A generated id is new to the run's history and to its task's projection. */
  ghost predicate InputFresh(r: Run, q: InputRequest) {
    && !HasUuid(r.messages, q.newId)
    && (Live(r) && Last(r).projection.Some? && !Repeats(r, q) ==> !HasUuid(Last(r).projection.value, InputUuid(q)))
  }

  lemma {:induction false} InputAcquiredKeeps(c: Ctx, r: Run, op: OpId, q: InputRequest)
    requires RunInv(c, r) && r.control.Free? && InputFresh(r, q)
    ensures RunInv(c, InputAcquired(c, r, op, q).run)
  {
    hide RunInv, SettledInv, OwnershipInv, HistoryInv;
    FenceKeeps(c, r);
    var r' := Fence(r);
    if Live(r') {
      if !Repeats(r', q) {
        MarkCancelledKeeps(c, r', op, InputAwait(q));
      }
    } else if Current(c, r') {
      RestartKeeps(c, r', op, q, Repeats(r', q));
    }
  }

  lemma {:induction false} InputAwaitedKeeps(c: Ctx, r: Run, op: OpId, q: InputRequest)
    requires RunInv(c, r) && r.control == Held(op, InputAwait(q)) && !Live(r)
    ensures RunInv(c, InputAwaited(c, r, op, q).run)
  {
    hide SettledInv, OwnershipInv, HistoryInv;
    if Current(c, r) {
      RestartKeeps(c, r, op, q, false);
    } else {
      ReleaseKeeps(c, r);
    }
  }

  /** A launch given up: the run stays behind settled. */
  lemma {:induction false} GiveUpKeeps(c: Ctx, r: Run)
    requires RunInv(c, r) && !Live(r)
    ensures RunInv(c, r.(cancelled := true, started := true, done := true, control := Free))
  {
    var r' := r.(cancelled := true, started := true, done := true, control := Free);
    assert SettledInv(c, r') by { hide OwnershipInv, ControlInv, HistoryInv; }
    assert HistoryInv(r') by { hide SettledInv, ControlInv, OwnershipInv; }
  }

  lemma {:induction false} LaunchKeeps(c: Ctx, r: Run, op: OpId)
    requires RunInv(c, r) && r.control == Held(op, InputReport) && Current(c, r)
    ensures RunInv(c, r.(tasks := r.tasks + [NewTask()], started := true, control := Free))
  {
    var r' := r.(tasks := r.tasks + [NewTask()], started := true, control := Free);
    assert OneLiveTask(r') by { hide SettledInv, HistoryInv, OwnershipInv; }
    assert HistoryInv(r') by { hide SettledInv, OwnershipInv; }
    assert SettledInv(c, r') by { hide HistoryInv, OwnershipInv; }
  }

  lemma {:induction false} InputReportedKeeps(c: Ctx, r: Run, op: OpId, raised: bool)
    requires RunInv(c, r) && r.control == Held(op, InputReport)
    ensures RunInv(c, InputReported(c, r, raised).run)
  {
    hide SettledInv, OwnershipInv, HistoryInv;
    if raised || !Current(c, r) {
      GiveUpKeeps(c, r);
      SnapshotKeeps(c, r.(cancelled := true, started := true, done := true, control := Free),
                    InputReported(c, r, raised).run.snapshot);
    } else {
      LaunchKeeps(c, r, op);
    }
  }

  // ----- segments of the task -----

  lemma {:induction false} LiveTaskIsLast(c: Ctx, r: Run, k: nat, choice: TaskChoice)
    requires RunInv(c, r) && CanTake(r, k, choice)
    ensures k == |r.tasks| - 1
  {
  }

  /** The last task ends, or waits for its turn, without touching the history. */
  lemma {:induction false} StartKeeps(c: Ctx, r: Run, k: nat)
    requires RunInv(c, r) && k == |r.tasks| - 1
    requires Last(r).pc == NotStarted || (Last(r).pc == WaitingStart && !Last(r).cancelRequested && r.started)
    ensures RunInv(c, AdvanceQueued(c, r, k).run)
  {
    var r' := AdvanceQueued(c, r, k).run;
    assert HistoryInv(r') by { hide SettledInv, OwnershipInv, ControlInv; }
    assert ControlInv(r') by { hide SettledInv, OwnershipInv, HistoryInv; }
    assert SettledInv(c, r') by { hide HistoryInv, OwnershipInv, ControlInv; }
    assert OwnershipInv(c, r') by { hide HistoryInv, ControlInv; }
  }

  /** A task past its done event, or one that owes nothing, may end. */
  lemma {:induction false} FinishKeeps(c: Ctx, r: Run, k: nat)
    requires RunInv(c, r) && k == |r.tasks| - 1 && r.done
    ensures RunInv(c, SetPc(r, k, Finished)) && RunInv(c, MoveTo(r, k, Finished))
  {
    var r1 := SetPc(r, k, Finished);
    var r2 := MoveTo(r, k, Finished);
    assert HistoryInv(r1) && HistoryInv(r2) by { hide SettledInv, OwnershipInv, ControlInv; }
    assert ControlInv(r1) && ControlInv(r2) by { hide SettledInv, OwnershipInv, HistoryInv; }
  }

  lemma {:induction false} FinalizeTaskKeeps(c: Ctx, r: Run, k: nat)
    requires RunInv(c, r) && k == |r.tasks| - 1
    requires Last(r).pc == WaitingStart || Last(r).pc == WaitingSlot
    ensures RunInv(c, FinalizeTask(c, r, k).run)
  {
    if r.done {
      FinishKeeps(c, r, k);
    } else {
      var r' := MoveTo(r, k, FinalReport);
      assert HistoryInv(r') by { hide SettledInv, OwnershipInv, ControlInv; }
      assert ControlInv(r') by { hide SettledInv, OwnershipInv, HistoryInv; }
      WorkKeeps(c, r, r');
      hide RunInv;
      SnapshotKeeps(c, r', BeginFinalize(c, r').run.snapshot);
    }
  }

  lemma {:induction false} EnterBodyKeeps(c: Ctx, r: Run, k: nat)
    requires RunInv(c, r) && k == |r.tasks| - 1 && Last(r).pc == WaitingSlot
    ensures RunInv(c, EnterBody(c, r, k).run)
  {
    var r' := EnterBody(c, r, k).run;
    assert HistoryInv(r') by { hide SettledInv, OwnershipInv, ControlInv; }
    assert ControlInv(r') by { hide SettledInv, OwnershipInv, HistoryInv; }
    WorkKeeps(c, r, r') by { hide SettledInv, OwnershipInv, HistoryInv, ControlInv; }
  }

  lemma {:induction false} AdvanceQueuedKeeps(c: Ctx, r: Run, k: nat)
    requires RunInv(c, r) && k == |r.tasks| - 1 && CanTake(r, k, Advance)
    requires Last(r).pc == NotStarted || Last(r).pc == WaitingStart || Last(r).pc == WaitingSlot
    ensures RunInv(c, AdvanceQueued(c, r, k).run)
  {
    hide RunInv;
    if Last(r).pc != NotStarted && Last(r).cancelRequested {
      FinalizeTaskKeeps(c, r, k);
    } else if Last(r).pc == WaitingSlot {
      EnterBodyKeeps(c, r, k);
    } else {
      StartKeeps(c, r, k);
    }
  }

  predicate Reporting(pc: TaskPc) {
    pc.ReportingEnd? || pc.ReportingStop? || pc.ReportingFail? || pc.ReportingError?
  }

  lemma {:induction false} MoveKeeps(c: Ctx, r: Run, k: nat, pc: TaskPc)
    requires RunInv(c, r) && k == |r.tasks| - 1 && Working(Last(r).pc)
    requires pc.ReportingError? || pc.Releasing?
    ensures RunInv(c, MoveTo(r, k, pc))
  {
    var r' := MoveTo(r, k, pc);
    assert HistoryInv(r') by { hide SettledInv, OwnershipInv, ControlInv; }
    assert ControlInv(r') by { hide SettledInv, OwnershipInv, HistoryInv; }
    WorkKeeps(c, r, r') by { hide SettledInv, OwnershipInv, HistoryInv, ControlInv; }
  }

  /** The task sets the done event itself. */
  lemma {:induction false} TaskSettlesKeeps(c: Ctx, r: Run, k: nat, pc: TaskPc)
    requires RunInv(c, r) && k == |r.tasks| - 1 && Working(Last(r).pc) && AfterDone(pc)
    ensures RunInv(c, MoveTo(r, k, pc).(done := true))
  {
    var r' := MoveTo(r, k, pc).(done := true);
    assert HistoryInv(r') by { hide SettledInv, OwnershipInv, ControlInv; }
    assert ControlInv(r') by { hide SettledInv, OwnershipInv, HistoryInv; }
    assert SettledInv(c, r') by { hide HistoryInv, OwnershipInv, ControlInv; }
  }

  lemma {:induction false} AfterDoneIsDone(c: Ctx, r: Run)
    requires RunInv(c, r) && HasTask(r) && AfterDone(Last(r).pc)
    ensures r.done
  {
  }

  lemma {:induction false} AdvanceKeeps(c: Ctx, r: Run, k: nat)
    requires RunInv(c, r) && CanTake(r, k, Advance)
    ensures RunInv(c, AdvanceTask(c, r, k).run)
  {
    hide RunInv;
    LiveTaskIsLast(c, r, k, Advance);
    match r.tasks[k].pc
    case NotStarted | WaitingStart | WaitingSlot => AdvanceQueuedKeeps(c, r, k);
    case ReportingFail => MoveKeeps(c, r, k, Releasing); MoveKeeps(c, r, k, ReportingError);
    case ReportingEnd | ReportingStop | ReportingError => MoveKeeps(c, r, k, Releasing);
    case Releasing => TaskSettlesKeeps(c, r, k, Completing);
    case FinalReport => TaskSettlesKeeps(c, r, k, FinalCompleting);
    case _ => AfterDoneIsDone(c, r); FinishKeeps(c, r, k);
  }

  lemma {:induction false} TextKeeps(c: Ctx, r: Run, chunks: seq<string>, text: string)
    requires RunInv(c, r) && Live(r) && text == Flatten(chunks)
    ensures RunInv(c, r.(chunks := chunks, finalText := text))
  {
    var r' := r.(chunks := chunks, finalText := text);
    assert HistoryInv(r') by { hide SettledInv, OwnershipInv, ControlInv; }
    assert ControlInv(r') by { hide SettledInv, OwnershipInv, HistoryInv; }
    assert SettledInv(c, r') by { hide HistoryInv, OwnershipInv, ControlInv; }
    assert OwnershipInv(c, r') by { hide HistoryInv, SettledInv, ControlInv; }
  }

  lemma {:induction false} TextIsChunks(c: Ctx, r: Run)
    requires RunInv(c, r) && HasTask(r)
    ensures r.finalText == Flatten(r.chunks)
  {
  }

  lemma {:induction false} HandleKeeps(c: Ctx, r: Run, choice: TaskChoice)
    requires RunInv(c, r) && Live(r)
    ensures choice.Text? ==> RunInv(c, HandleText(c, r, choice.text).run)
    ensures choice.Retry? ==> RunInv(c, HandleRetry(c, r, choice.discarded).run)
    ensures choice.Report? ==> RunInv(c, HandleError(c, r, choice.error).run)
  {
    hide RunInv;
    TextIsChunks(c, r);
    match choice
    case Text(text) =>
      FlattenAppend(r.chunks, text);
      TextKeeps(c, r, r.chunks + [text], r.finalText + text);
    case Retry(discarded) =>
      var n := if discarded < |r.finalText| then discarded else |r.finalText|;
      DropChunksKeepsText(r.chunks, n);
      TextKeeps(c, r, DropChunks(r.chunks, n), Keep(r.finalText, discarded));
    case Report(error) => SnapshotKeeps(c, r, r.snapshot.(error := error));
    case _ =>
  }

  /** The query loop copies the history and then only extends its copy. */
  lemma {:induction false} ProjectionKeeps(c: Ctx, r: Run, k: nat, projection: seq<Message>)
    requires RunInv(c, r) && k == |r.tasks| - 1 && Last(r).pc == Body
    requires (if Last(r).projection.Some? then Last(r).projection.value else r.messages) <= projection
    requires DistinctUuids(projection)
    requires PendingUuid(r).Some? ==> !HasUuid(projection, PendingUuid(r).value)
    ensures RunInv(c, SetProjection(r, k, projection))
  {
    var r' := SetProjection(r, k, projection);
    assert HistoryInv(r') by { hide SettledInv, OwnershipInv, ControlInv; }
    assert ControlInv(r') by { hide SettledInv, OwnershipInv, HistoryInv; }
    WorkKeeps(c, r, r') by { hide SettledInv, OwnershipInv, HistoryInv, ControlInv; }
  }

  lemma {:induction false} PrepareKeeps(c: Ctx, r: Run, k: nat)
    requires RunInv(c, r) && CanTake(r, k, Prepare)
    ensures RunInv(c, SetProjection(r, k, r.messages))
  {
    LiveTaskIsLast(c, r, k, Prepare);
    hide SettledInv, OwnershipInv;
    ProjectionKeeps(c, r, k, r.messages);
  }

  lemma {:induction false} ExtendKeeps(c: Ctx, r: Run, k: nat, more: seq<Message>)
    requires RunInv(c, r) && CanTake(r, k, Extend(more))
    ensures RunInv(c, SetProjection(r, k, r.tasks[k].projection.value + more))
  {
    LiveTaskIsLast(c, r, k, Extend(more));
    hide SettledInv, OwnershipInv, HistoryInv;
    ProjectionKeeps(c, r, k, r.tasks[k].projection.value + more);
  }

  lemma {:induction false} SwallowKeeps(c: Ctx, r: Run, k: nat)
    requires RunInv(c, r) && k == |r.tasks| - 1 && Last(r).pc == Body
    ensures RunInv(c, ClearCancel(r, k))
  {
    var r' := ClearCancel(r, k);
    assert HistoryInv(r') by { hide SettledInv, OwnershipInv, ControlInv; }
    assert ControlInv(r') by { hide SettledInv, OwnershipInv, HistoryInv; }
    WorkKeeps(c, r, r') by { hide SettledInv, OwnershipInv, HistoryInv, ControlInv; }
  }

  lemma {:induction false} EndKeeps(c: Ctx, r: Run, k: nat)
    requires RunInv(c, r) && CanTake(r, k, End)
    ensures RunInv(c, EndBody(c, r, k).run)
  {
    LiveTaskIsLast(c, r, k, End);
    var r' := EndBody(c, r, k).run;
    assert HistoryInv(r') by { hide SettledInv, OwnershipInv, ControlInv; }
    assert ControlInv(r') by { hide SettledInv, OwnershipInv, HistoryInv; }
    WorkKeeps(c, r, r') by { hide SettledInv, OwnershipInv, HistoryInv, ControlInv; }
  }

  predicate InBody(pc: TaskPc) {
    pc.Body? || pc.ReportingEnd?
  }

  /** The write-back never drops a message and keeps ids distinct. */
  lemma {:induction false} CaptureGrows(c: Ctx, r: Run, k: nat, newId: string)
    requires RunInv(c, r) && k == |r.tasks| - 1 && InBody(r.tasks[k].pc) && FreshFor(r, k, newId)
    ensures r.messages <= Capture(r, k, newId).messages && DistinctUuids(Capture(r, k, newId).messages)
    ensures forall id | !HasUuid(r.messages, id) && id != newId
                        && (r.tasks[k].projection.Some? ==> !HasUuid(r.tasks[k].projection.value, id))
              :: !HasUuid(Capture(r, k, newId).messages, id)
  {
    hide SettledInv, OwnershipInv, ControlInv;
    var t := r.tasks[k];
    CaptureDistinct(if t.projection.Some? then t.projection.value else r.messages, t.baseline, r.finalText, newId);
  }

  lemma {:induction false} CaptureKeeps(c: Ctx, r: Run, k: nat, newId: string, r': Run)
    requires RunInv(c, r) && k == |r.tasks| - 1 && InBody(r.tasks[k].pc) && FreshFor(r, k, newId)
    requires r'.messages == Capture(r, k, newId).messages && SameProtocol(r, r')
    requires r'.finalText == r.finalText && r'.chunks == r.chunks && Last(r').projection == Last(r).projection
    requires Last(r').pc.ReportingStop? || Last(r').pc.ReportingFail?
    ensures RunInv(c, r')
  {
    CaptureGrows(c, r, k, newId);
    assert HistoryInv(r') by { hide SettledInv, OwnershipInv, ControlInv; }
    assert ControlInv(r') by { hide SettledInv, OwnershipInv, HistoryInv; }
    WorkKeeps(c, r, r') by { hide SettledInv, OwnershipInv, HistoryInv, ControlInv; }
  }

  lemma {:induction false} FailKeeps(c: Ctx, r: Run, k: nat, error: string, newId: string)
    requires RunInv(c, r) && CanTake(r, k, Fail(error, newId))
    ensures RunInv(c, FailBody(c, r, k, error, newId).run)
  {
    hide RunInv, CapturePartial, Strip, WriteTranscript, Current;
    LiveTaskIsLast(c, r, k, Fail(error, newId));
    CaptureKeeps(c, r, k, newId, FailBody(c, r, k, error, newId).run);
  }

  lemma {:induction false} StopKeeps(c: Ctx, r: Run, k: nat, newId: string)
    requires RunInv(c, r) && CanTake(r, k, Stop(newId))
    ensures RunInv(c, StopBody(c, r, k, newId).run)
  {
    hide RunInv, CapturePartial, Strip, WriteTranscript, Current;
    LiveTaskIsLast(c, r, k, Stop(newId));
    CaptureKeeps(c, r, k, newId, StopBody(c, r, k, newId).run);
  }

  lemma {:induction false} TaskKeeps(c: Ctx, r: Run, k: nat, choice: TaskChoice)
    requires RunInv(c, r) && CanTake(r, k, choice)
    ensures RunInv(c, TaskSegment(c, r, k, choice).run)
  {
    hide RunInv;
    LiveTaskIsLast(c, r, k, choice);
    match choice
    case Advance => AdvanceKeeps(c, r, k);
    case Prepare => PrepareKeeps(c, r, k);
    case Extend(more) => ExtendKeeps(c, r, k, more);
    case Swallow => SwallowKeeps(c, r, k);
    case Text(_) | Retry(_) | Report(_) | OtherEvent => HandleKeeps(c, r, choice);
    case End => EndKeeps(c, r, k);
    case Fail(error, newId) => FailKeeps(c, r, k, error, newId);
    case Stop(newId) => StopKeeps(c, r, k, newId);
  }

  // ----- session switches and close -----

  lemma {:induction false} AbandonKeeps(c: Ctx, r: Run, reason: string)
    requires RunInv(c, r)
    ensures RunInv(c, Abandoned(c, r, reason)) && Abandoned(c, r, reason).done
  {
    var r' := Abandoned(c, r, reason);
    assert HistoryInv(r') by { hide SettledInv, OwnershipInv, ControlInv; }
    assert ControlInv(r') by { hide SettledInv, OwnershipInv, HistoryInv; }
    assert SettledInv(c, r') by { hide OwnershipInv, HistoryInv, ControlInv; }
  }

  lemma {:induction false} ReplacedKeeps(c: Ctx, r: Run)
    requires RunInv(c, r) && c.phase == Open
    ensures RunInv(c.(mapped := false), Replaced(r))
  {
    var r' := Replaced(r);
    assert HistoryInv(r') by { hide SettledInv, OwnershipInv, ControlInv; }
    assert ControlInv(r') by { hide SettledInv, OwnershipInv, HistoryInv; }
  }

  /** A new session comes with a new generation, which no run is of. */
  lemma {:induction false} UpdateKeeps(c: Ctx, r: Run, session: string, generation: nat)
    requires RunInv(c, r) && c.generation <= generation && (c.generation == generation ==> session == c.session)
    ensures RunInv(c.(session := session, generation := generation), r)
  {
    assert SettledInv(c.(session := session, generation := generation), r) by { hide OwnershipInv; }
  }

  lemma {:induction false} CloseCalledKeeps(c: Ctx, r: Run)
    requires RunInv(c, r) && c.phase == Open
    ensures RunInv(c.(phase := Closing), r)
  {
  }

  lemma {:induction false} CloseMarkedKeeps(c: Ctx, r: Run)
    requires RunInv(c, r) && c.phase == Closing
    ensures RunInv(c.(phase := Marked), CloseMarked(c.mapped, r))
  {
    MarkedOthers(c, r);
    MarkedOwners(c, r);
    hide HistoryInv, ControlInv, OwnershipInv;
  }

  lemma {:induction false} MarkedOthers(c: Ctx, r: Run)
    requires OneLiveTask(r) && HistoryInv(r) && ControlInv(r)
    ensures var r' := CloseMarked(c.mapped, r); OneLiveTask(r') && HistoryInv(r') && ControlInv(r')
  {
    var r' := CloseMarked(c.mapped, r);
    assert HistoryInv(r') && OneLiveTask(r') by { hide ControlInv; }
    assert ControlInv(r') by { hide HistoryInv; }
  }

  lemma {:induction false} MarkedOwners(c: Ctx, r: Run)
    requires SettledInv(c, r) && OwnershipInv(c, r) && c.phase == Closing
    ensures OwnershipInv(c.(phase := Marked), CloseMarked(c.mapped, r))
  {
  }

  lemma {:induction false} CloseFinishedKeeps(c: Ctx, r: Run)
    requires RunInv(c, r) && c.phase == Marked
    requires forall k | 0 <= k < |r.tasks| && r.tasks[k].joined :: r.tasks[k].pc == Finished
    ensures RunInv(c.(phase := Closed), CloseFinished(c, r))
  {
    var r' := CloseFinished(c, r);
    assert HistoryInv(r') by { hide SettledInv, OwnershipInv, ControlInv; }
    assert ControlInv(r') by { hide SettledInv, OwnershipInv, HistoryInv; }
  }

  lemma {:induction false} CallbackKeeps(c: Ctx, r: Run, messageId: string)
    requires RunInv(c, r)
    ensures RunInv(c, InjectedRun(c, r, messageId)) && RunInv(c, DeliveredRun(c, r))
  {
    hide RunInv;
    SnapshotKeeps(c, r, InjectedRun(c, r, messageId).snapshot);
    SnapshotKeeps(c, r, DeliveredRun(c, r).snapshot);
  }

  // ----- the semaphore, seen from one run -----

  predicate InSlot(r: Run) {
    Live(r) && HoldsSlot(Last(r).pc)
  }

  /** The run keeps its agent id and its place in or out of the semaphore. */
  ghost predicate KeepsPlace(r: Run, r': Run) {
    r'.snapshot.agentId == r.snapshot.agentId && InSlot(r') == InSlot(r)
  }

  lemma {:induction false} SpawnPlace(c: Ctx, r: Run, raised: bool)
    ensures KeepsPlace(r, SpawnReported(c, r, raised))
    ensures SpawnReported(c, r, raised).spawn.SpawnReaping? || r.tasks == []
            || SpawnReported(c, r, raised).spawn.SpawnOver?
  {
  }

  lemma {:induction false} CancelPlace(c: Ctx, r: Run, op: OpId)
    ensures KeepsPlace(r, CancelAcquired(c, r, op).run)
    ensures KeepsPlace(r, CancelAwaited(c, r, op).run)
  {
  }

  lemma {:induction false} CancelledPlace(c: Ctx, r: Run, op: OpId, raised: bool)
    ensures KeepsPlace(r, CancelReported(c, r, op, raised).run)
    ensures KeepsPlace(r, CancelCompleted(r, raised).run)
  {
  }

  lemma {:induction false} RestartPlace(c: Ctx, r: Run, op: OpId, q: InputRequest, repeated: bool)
    ensures KeepsPlace(r, Restart(c, r, op, q, repeated).run)
  {
  }

  lemma {:induction false} FencePlace(r: Run)
    ensures KeepsPlace(r, Fence(r))
  {
  }

  lemma {:induction false} InputPlace(c: Ctx, r: Run, op: OpId, q: InputRequest)
    ensures KeepsPlace(r, InputAcquired(c, r, op, q).run)
  {
    FencePlace(r);
    RestartPlace(c, Fence(r), op, q, Repeats(Fence(r), q));
    hide Fence, Restart, RefusesInput, Answered, Repeats;
  }

  lemma {:induction false} InputAwaitedPlace(c: Ctx, r: Run, op: OpId, q: InputRequest)
    ensures KeepsPlace(r, InputAwaited(c, r, op, q).run)
  {
    hide Restart;
    RestartPlace(c, r, op, q, false);
  }

  lemma {:induction false} LaunchPlace(c: Ctx, r: Run, raised: bool)
    requires !Live(r)
    ensures KeepsPlace(r, InputReported(c, r, raised).run)
  {
  }

  lemma {:induction false} SwitchPlace(c: Ctx, r: Run, reason: string)
    ensures KeepsPlace(r, Abandoned(c, r, reason)) && KeepsPlace(r, Replaced(r)) && KeepsPlace(r, Fence(r))
  {
  }

  lemma {:induction false} ClosePlace(c: Ctx, r: Run)
    ensures KeepsPlace(r, CloseMarked(c.mapped, r)) && KeepsPlace(r, CloseFinished(c, r))
  {
  }

  lemma {:induction false} FinalizePlace(c: Ctx, r: Run, k: nat)
    requires k == |r.tasks| - 1
    ensures var r' := FinalizeTask(c, r, k).run; r'.snapshot.agentId == r.snapshot.agentId && !InSlot(r')
  {
  }

  lemma {:induction false} QueuedPlace(c: Ctx, r: Run, k: nat)
    requires k == |r.tasks| - 1 && (Last(r).pc.NotStarted? || Last(r).pc.WaitingStart? || Last(r).pc.WaitingSlot?)
    ensures var r' := AdvanceQueued(c, r, k).run;
            r'.snapshot.agentId == r.snapshot.agentId
            && InSlot(r') == (Last(r).pc.WaitingSlot? && !Last(r).cancelRequested)
  {
    FinalizePlace(c, r, k);
    EnterPlace(c, r, k);
    hide FinalizeTask, EnterBody;
  }

  lemma {:induction false} EnterPlace(c: Ctx, r: Run, k: nat)
    requires k == |r.tasks| - 1
    ensures var r' := EnterBody(c, r, k).run; r'.snapshot.agentId == r.snapshot.agentId && InSlot(r')
  {
    hide Current;
  }

  lemma {:induction false} ReportPlace(c: Ctx, r: Run, k: nat)
    requires k == |r.tasks| - 1 && (Reporting(Last(r).pc) || Last(r).pc.Releasing?)
    ensures KeepsPlace(r, AdvanceReport(c, r, k).run) && InSlot(r)
  {
    ReportMoves(c, r, k);
    hide AdvanceReport;
  }

  /** Between two reports a task only moves on. */
  lemma {:induction false} ReportMoves(c: Ctx, r: Run, k: nat)
    requires k < |r.tasks|
    ensures var r' := AdvanceReport(c, r, k).run;
            r' == MoveTo(r, k, Releasing) || r' == MoveTo(r, k, ReportingError)
            || r' == MoveTo(r, k, Completing).(done := true)
  {
    hide Current, EmitCompletion, MoveTo;
  }

  /** Only entering the body takes a slot, only the end of the task gives it back. */
  lemma {:induction false} AdvancePlace(c: Ctx, r: Run, k: nat)
    requires k == |r.tasks| - 1 && CanTake(r, k, Advance)
    ensures var r' := AdvanceTask(c, r, k).run;
            r'.snapshot.agentId == r.snapshot.agentId
            && InSlot(r') == (if Last(r).pc == WaitingSlot && !Last(r).cancelRequested then true
                              else InSlot(r) && Last(r).pc != Completing)
  {
    hide AdvanceQueued, AdvanceReport, InSlot, KeepsPlace;
    match Last(r).pc
    case NotStarted | WaitingStart | WaitingSlot => QueuedPlace(c, r, k); WaitingHoldsNoSlot(r);
    case ReportingEnd | ReportingStop | ReportingFail | ReportingError | Releasing =>
      ReportPlace(c, r, k);
      KeptSlot(r, AdvanceTask(c, r, k).run);
    case _ => FinalPlace(c, r, k);
  }

  lemma {:induction false} KeptSlot(r: Run, r': Run)
    requires KeepsPlace(r, r')
    ensures r'.snapshot.agentId == r.snapshot.agentId && InSlot(r') == InSlot(r)
  {
  }

  lemma {:induction false} WaitingHoldsNoSlot(r: Run)
    requires HasTask(r) && (Last(r).pc.NotStarted? || Last(r).pc.WaitingStart? || Last(r).pc.WaitingSlot?)
    ensures !InSlot(r)
  {
  }

  lemma {:induction false} FinalPlace(c: Ctx, r: Run, k: nat)
    requires k == |r.tasks| - 1
    requires Last(r).pc.FinalReport? || Last(r).pc.FinalCompleting? || Last(r).pc.Completing?
    requires CanTake(r, k, Advance)
    ensures AdvanceTask(c, r, k).run.snapshot.agentId == r.snapshot.agentId
    ensures InSlot(AdvanceTask(c, r, k).run) == (InSlot(r) && Last(r).pc != Completing)
  {
    hide AdvanceQueued, AdvanceReport, EmitCompletion;
  }

  lemma {:induction false} TaskPlace(c: Ctx, r: Run, k: nat, choice: TaskChoice)
    requires k == |r.tasks| - 1 && CanTake(r, k, choice) && !choice.Advance?
    ensures KeepsPlace(r, TaskSegment(c, r, k, choice).run) && InSlot(r)
  {
    hide Current, Strip, WriteTranscript, CapturePartial, FreshFor, DropChunks, Keep;
  }
}
