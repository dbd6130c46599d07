/** The done event of a run: which events set it and which one clears it, exactly, for every run
    and every event. */
module AgentDone {
  import opened Common
  import opened StreamText
  import opened AgentModel
  import opened AgentInvariant
  import opened AgentRestore
  import opened AgentRuntime

  // ----- one event -----

  /** send_input is handing over the queued event of a new launch. */
  predicate AtReport(r: Run) {
    r.control.Held? && r.control.at.InputReport?
  }

  /** A new launch begins: the only step that clears a done event. */
  predicate Restarts(r: Run, r': Run) {
    AtReport(r') && !AtReport(r)
  }

  /** The run's task reaches the segment that sets the done event. */
  predicate SettlesItself(r: Run, k: nat, choice: TaskChoice) {
    k < |r.tasks| && choice.Advance? && (r.tasks[k].pc.Releasing? || r.tasks[k].pc.FinalReport?)
  }

  /** The holder of the control lock sets the done event when it continues. */
  predicate HolderSettles(c: Ctx, r: Run, raised: bool) {
    r.control.Held? && (r.control.at.CancelReport? || (r.control.at.InputReport? && (raised || !Current(c, r))))
  }

  /** A wait for this run finds its task finished. */
  predicate Fences(s: State, agentId: string, i: nat)
    requires i < |s.runs|
  {
    Visible(s, agentId) && s.owned[agentId] == i && HasTask(s.runs[i]) && !Live(s.runs[i])
  }

  /** The events that set the done event of run `i`. */
  predicate Settles(s: State, e: Event, i: nat)
    requires i < |s.runs|
  {
    match e
    case SpawnReport(j, raised) => j == i && (raised || !SpawnValid(CtxOf(s, i), s.runs[i]))
    case Resume(j, raised) => j == i && HolderSettles(CtxOf(s, i), s.runs[i], raised)
    case TaskRuns(j, k, choice) => j == i && SettlesItself(s.runs[i], k, choice)
    case WaitCall(agentId) => Fences(s, agentId, i)
    case Abandon(_) => Mapped(s, i)
    case Restore(_) => s.phase == Open && Mapped(s, i)
    case CloseMark => Mapped(s, i) && !Live(s.runs[i])
    case CloseFinish => true
    case _ => false
  }

  lemma {:induction false} SpawnReportDone(c: Ctx, r: Run, raised: bool)
    ensures SpawnReported(c, r, raised).done == (r.done || raised || !SpawnValid(c, r))
    ensures SpawnReported(c, r, raised).control == r.control
  {
  }

  lemma {:induction false} AcquireDone(c: Ctx, r: Run, op: OpId, request: Request)
    requires RunInv(c, r) && r.control.Free?
    ensures var r' := AcquireTurn(c, r, op, request).run;
            r'.done == (r.done && !AtReport(r')) && (AtReport(r') ==> Current(c, r) && !Live(r))
  {
    hide RefusesInput, Answered, Repeats, OwnershipInv, HistoryInv, ControlInv;
  }

  lemma {:induction false} CancelTurnsDone(c: Ctx, r: Run, op: OpId, raised: bool)
    ensures var r' := CancelAwaited(c, r, op).run; r'.done == r.done && !AtReport(r')
    ensures var r' := CancelReported(c, r, op, raised).run; r'.done && !AtReport(r')
    ensures var r' := CancelCompleted(r, raised).run; r'.done == r.done && !AtReport(r')
  {
    hide WriteTranscript, Strip, Current;
  }

  lemma {:induction false} InputTurnsDone(c: Ctx, r: Run, op: OpId, q: InputRequest, raised: bool)
    ensures var r' := InputAwaited(c, r, op, q).run;
            r'.done == (r.done && !Current(c, r)) && (AtReport(r') <==> Current(c, r))
    ensures var r' := InputReported(c, r, raised).run; r'.done == (r.done || raised || !Current(c, r)) && !AtReport(r')
  {
    hide WriteTranscript, Strip, Current;
  }

  lemma {:induction false} HolderDone(c: Ctx, r: Run, raised: bool)
    requires r.control.Held?
    ensures var r' := HolderTurn(c, r, raised).run;
            r'.done == (HolderSettles(c, r, raised) || (r.done && !Restarts(r, r')))
            && (Restarts(r, r') ==> Current(c, r) && r.control.at.InputAwait? && !HolderSettles(c, r, raised))
  {
    hide CancelAwaited, CancelReported, CancelCompleted, InputAwaited, InputReported, Current;
    match r.control.at
    case CancelAwait | CancelReport => CancelTurnsDone(c, r, r.control.op, raised);
    case CancelComplete(failed) => CancelTurnsDone(c, r, r.control.op, failed);
    case InputAwait(q) => InputTurnsDone(c, r, r.control.op, q, raised);
    case InputReport => InputTurnsDone(c, r, r.control.op, InputRequest("", false, None, ""), raised);
  }

  lemma {:induction false} AdvanceDone(c: Ctx, r: Run, k: nat)
    requires CanTake(r, k, Advance)
    ensures var r' := AdvanceTask(c, r, k).run;
            r'.done == (r.done || SettlesItself(r, k, Advance)) && r'.control == r.control
  {
    if r.tasks[k].pc.NotStarted? || r.tasks[k].pc.WaitingStart? || r.tasks[k].pc.WaitingSlot? {
      QueuedDone(c, r, k);
    }
    hide AdvanceQueued, Current, EmitCompletion;
  }

  lemma {:induction false} QueuedDone(c: Ctx, r: Run, k: nat)
    requires k < |r.tasks| && (r.tasks[k].pc.NotStarted? || r.tasks[k].pc.WaitingStart? || r.tasks[k].pc.WaitingSlot?)
    ensures var r' := AdvanceQueued(c, r, k).run; r'.done == r.done && r'.control == r.control
  {
    hide WriteTranscript, Strip, Current;
  }

  lemma {:induction false} LoopEndDone(c: Ctx, r: Run, k: nat, error: string, newId: string)
    requires k < |r.tasks|
    ensures r.tasks[k].projection.Some? ==>
              EndBody(c, r, k).run.done == r.done && EndBody(c, r, k).run.control == r.control
    ensures var r' := FailBody(c, r, k, error, newId).run; r'.done == r.done && r'.control == r.control
    ensures var r' := StopBody(c, r, k, newId).run; r'.done == r.done && r'.control == r.control
  {
    hide WriteTranscript, Strip, Current, CapturePartial;
  }

  lemma {:induction false} TaskDone(c: Ctx, r: Run, k: nat, choice: TaskChoice)
    requires CanTake(r, k, choice)
    ensures var r' := TaskSegment(c, r, k, choice).run;
            r'.done == (r.done || SettlesItself(r, k, choice)) && r'.control == r.control
  {
    hide AdvanceTask, EndBody, FailBody, StopBody, Current, DropChunks, Keep, FreshFor;
    match choice
    case Advance => AdvanceDone(c, r, k);
    case End => LoopEndDone(c, r, k, "", "");
    case Fail(error, newId) => LoopEndDone(c, r, k, error, newId);
    case Stop(newId) => LoopEndDone(c, r, k, "", newId);
    case _ =>
  }

  lemma {:induction false} SwitchDone(c: Ctx, r: Run, reason: string)
    ensures Abandoned(c, r, reason).done && Abandoned(c, r, reason).control == r.control
    ensures Replaced(r).done && Replaced(r).control == r.control
    ensures Fence(r).done == (r.done || (HasTask(r) && !Live(r))) && Fence(r).control == r.control
  {
  }

  lemma {:induction false} CloseDone(c: Ctx, r: Run)
    ensures CloseMarked(c.mapped, r).done == (r.done || (c.mapped && !Live(r)))
    ensures CloseMarked(c.mapped, r).control == r.control
    ensures CloseFinished(c, r).done && CloseFinished(c, r).control == r.control
  {
    hide WriteTranscript, Strip, Current;
  }

  /** What one event does to one run's done event. */
  ghost predicate DoneMoves(s: State, s': State, i: nat, sets: bool)
    requires i < |s.runs|
  {
    i < |s'.runs|
    && var r, r' := s.runs[i], s'.runs[i];
       (r'.done <==> sets || (r.done && !Restarts(r, r'))) && (Restarts(r, r') ==> IsCurrent(s, i) && !Live(r) && !sets)
  }

  lemma {:induction false} SameDone(s: State, s': State, i: nat)
    requires i < |s.runs| && i < |s'.runs|
    requires s'.runs[i].done == s.runs[i].done && s'.runs[i].control == s.runs[i].control
    ensures DoneMoves(s, s', i, false)
  {
  }

  lemma {:induction false} QuietEvents(s: State, e: Event, i: nat)
    requires Enabled(s, e) && i < |s.runs|
    requires e.SpawnCall? || e.SpawnReap? || e.Call? || e.UpdateSession? || e.CloseCall? || e.MarkInjected?
             || e.MarkDelivered? || e.Tick?
    ensures DoneMoves(s, Next(s, e), i, Settles(s, e, i))
  {
    SameDone(s, Next(s, e), i);
    hide DoneMoves;
  }

  lemma {:induction false} SpawnMoves(s: State, i: nat, raised: bool, j: nat)
    requires Enabled(s, SpawnReport(i, raised)) && j < |s.runs|
    ensures DoneMoves(s, Next(s, SpawnReport(i, raised)), j, Settles(s, SpawnReport(i, raised), j))
  {
    hide SpawnReported, SpawnValid;
    SpawnReportDone(CtxOf(s, i), s.runs[i], raised);
  }

  lemma {:induction false} AcquireMoves(s: State, op: OpId, i: nat)
    requires Inv(s) && Enabled(s, Acquire(op)) && i < |s.runs|
    ensures DoneMoves(s, Next(s, Acquire(op)), i, false)
  {
    hide RunInv, AcquireTurn, InputFresh, Current, Live;
    if s.waiting[op].run == i {
      AcquireDone(CtxOf(s, i), s.runs[i], op, s.waiting[op].request);
    } else {
      SameDone(s, Next(s, Acquire(op)), i);
    }
  }

  lemma {:induction false} ResumeMoves(s: State, i: nat, raised: bool, j: nat)
    requires Enabled(s, Resume(i, raised)) && j < |s.runs|
    ensures DoneMoves(s, Next(s, Resume(i, raised)), j, Settles(s, Resume(i, raised), j))
  {
    hide HolderTurn, HolderSettles, Current, Live;
    HolderDone(CtxOf(s, i), s.runs[i], raised);
  }

  lemma {:induction false} TaskMoves(s: State, i: nat, k: nat, choice: TaskChoice, j: nat)
    requires Enabled(s, TaskRuns(i, k, choice)) && j < |s.runs|
    ensures DoneMoves(s, Next(s, TaskRuns(i, k, choice)), j, Settles(s, TaskRuns(i, k, choice), j))
  {
    hide TaskSegment, SettlesItself, Current, CanTake, Enters, Leaves;
    TaskDone(CtxOf(s, i), s.runs[i], k, choice);
  }

  lemma {:induction false} WaitMoves(s: State, agentId: string, i: nat)
    requires i < |s.runs|
    ensures DoneMoves(s, Next(s, WaitCall(agentId)), i, Settles(s, WaitCall(agentId), i))
  {
    hide Fence, Current, Live;
    SwitchDone(CtxOf(s, i), s.runs[i], "");
  }

  lemma {:induction false} BulkDone(s: State, e: Event, i: nat)
    requires Enabled(s, e) && i < |s.runs| && (e.Abandon? || e.Restore? || e.CloseMark? || e.CloseFinish?)
    ensures DoneMoves(s, Next(s, e), i, Settles(s, e, i))
  {
    if e.CloseMark? || e.CloseFinish? {
      CloseMoves(s, e, i);
      hide *;
    } else {
      hide Abandoned, Replaced, Adopted, Index, Shift, Live, HasTask, IsCurrent;
      SwitchDone(CtxOf(s, i), s.runs[i], if e.Abandon? then e.reason else "");
    }
  }

  lemma {:induction false} CloseMoves(s: State, e: Event, i: nat)
    requires Enabled(s, e) && i < |s.runs| && (e.CloseMark? || e.CloseFinish?)
    ensures DoneMoves(s, Next(s, e), i, Settles(s, e, i))
  {
    hide CloseMarked, CloseFinished, Live, IsCurrent;
    CloseDone(CtxOf(s, i), s.runs[i]);
  }

  /** Exactly these events set a run's done event, and exactly a restart clears it, which only
      a current run without a live task can undergo. */
  lemma {:induction false} DoneStep(s: State, e: Event, i: nat)
    requires Inv(s) && Enabled(s, e) && i < |s.runs|
    ensures DoneMoves(s, Next(s, e), i, Settles(s, e, i))
  {
    hide Inv, Enabled, DoneMoves, Settles, Next;
    match e
    case SpawnReport(j, raised) => SpawnMoves(s, j, raised, i);
    case Acquire(op) => AcquireMoves(s, op, i); SettlesNot(s, e, i);
    case Resume(j, raised) => ResumeMoves(s, j, raised, i);
    case TaskRuns(j, k, choice) => TaskMoves(s, j, k, choice, i);
    case WaitCall(agentId) => WaitMoves(s, agentId, i);
    case Abandon(_) | Restore(_) | CloseMark | CloseFinish => BulkDone(s, e, i);
    case _ => QuietEvents(s, e, i);
  }

  lemma {:induction false} SettlesNot(s: State, e: Event, i: nat)
    requires i < |s.runs| && e.Acquire?
    ensures !Settles(s, e, i)
  {
  }
}
