/** What a launch reports at its end, told from the events of the execution since it began. */
module AgentOutcome {
  import opened Common
  import opened StreamText
  import opened AgentModel
  import opened AgentInvariant
  import opened AgentRestore
  import opened AgentRuntime
  import opened AgentExecution
  import opened AgentEvolution
  import opened AgentSafety
  import opened AgentDone
  import opened AgentSettlement
  import opened AgentEdges

  // ----- what the query loop has yielded -----

  /** The text streamed so far, after one more event: a retry takes back from its end. */
  function TextAfter(text: string, e: Event, i: nat): string {
    if !e.TaskRuns? || e.run != i then text
    else match e.choice
         case Text(more) => text + more
         case Retry(discarded) => if discarded <= |text| then text[..|text| - discarded] else ""
         case _ => text
  }

  /** The last error reported, "" for none. */
  function ErrorAfter(error: string, e: Event, i: nat): string {
    if e.TaskRuns? && e.run == i && e.choice.Report? then e.choice.error else error
  }

  function StreamedText(events: seq<Event>, i: nat, m: nat, n: nat): string
    requires m <= n <= |events|
  {
    if m == n then "" else TextAfter(StreamedText(events, i, m, n - 1), events[n - 1], i)
  }

  function LastError(events: seq<Event>, i: nat, m: nat, n: nat): string
    requires m <= n <= |events|
  {
    if m == n then "" else ErrorAfter(LastError(events, i, m, n - 1), events[n - 1], i)
  }

  // ----- how far a launch has come -----

  predicate BeforeEnd(pc: TaskPc) {
    pc.NotStarted? || pc.WaitingStart? || pc.WaitingSlot? || pc.Body?
  }

  /** Nothing final has been reported of the current launch. */
  predicate Underway(r: Run) {
    AtReport(r) || (Live(r) && BeforeEnd(Last(r).pc))
  }

  predicate InBody(r: Run) {
    Live(r) && Last(r).pc == Body
  }

  /** What a run under way shows: queued until its task enters the body, then running. */
  predicate Shows(r: Run, text: string, error: string) {
    r.finalText == text && r.snapshot.error == error && r.snapshot.status == (if InBody(r) then Running else Queued)
  }

  /** A segment that has nothing to do with what the run shows. */
  ghost predicate Untouched(r: Run, r': Run) {
    Underway(r') ==>
      Underway(r) && r'.finalText == r.finalText && r'.snapshot.error == r.snapshot.error
      && r'.snapshot.status == r.snapshot.status && (InBody(r') <==> InBody(r))
  }

  // ----- segments of the callers -----

  lemma {:induction false} SameTouches(r: Run, r': Run)
    requires r'.finalText == r.finalText && r'.snapshot == r.snapshot && r'.control == r.control
    requires |r'.tasks| == |r.tasks| && forall k | 0 <= k < |r.tasks| :: r'.tasks[k].pc == r.tasks[k].pc
    ensures Untouched(r, r')
  {
  }

  lemma {:induction false} SpawnUntouched(c: Ctx, r: Run, raised: bool)
    ensures Untouched(r, SpawnReported(c, r, raised))
  {
    hide SpawnValid;
    SameTouches(r, SpawnReported(c, r, raised));
  }

  lemma {:induction false} MarkUntouched(r: Run, op: OpId, at: ControlPc)
    requires !at.InputReport? && r.control.Free?
    ensures Untouched(r, MarkCancelled(r).(control := Held(op, at)))
  {
    if Live(r) {} else {}
  }

  lemma {:induction false} FenceUntouched(r: Run)
    ensures Untouched(r, Fence(r))
  {
    SameTouches(r, Fence(r));
  }

  lemma {:induction false} CancelUntouched(c: Ctx, r: Run, op: OpId)
    requires r.control.Free?
    ensures Untouched(r, CancelAcquired(c, r, op).run)
  {
    SameTouches(r, r);
    FenceUntouched(r);
    MarkUntouched(r, op, CancelAwait);
    hide Untouched, Current, Live, Fence, MarkCancelled;
    if !Current(c, r) {} else if !Live(r) {} else {}
  }

  lemma {:induction false} InputUntouched(c: Ctx, r: Run, op: OpId, q: InputRequest)
    requires r.control.Free? && !AtReport(InputAcquired(c, r, op, q).run)
    ensures Untouched(r, InputAcquired(c, r, op, q).run)
  {
    SameTouches(r, r);
    FenceUntouched(r);
    RestartReports(c, Fence(r), op, q, Repeats(Fence(r), q));
    hide Untouched, Current, RefusesInput, Repeats, Answered, Restart, Live, MarkCancelled, AtReport;
    if Live(Fence(r)) {
      MarkUntouched(r, op, InputAwait(q));
      LiveUnfenced(r);
    }
    hide Fence;
  }

  lemma {:induction false} LiveUnfenced(r: Run)
    requires Live(Fence(r))
    ensures Fence(r) == r
  {
  }

  lemma {:induction false} RestartReports(c: Ctx, r: Run, op: OpId, q: InputRequest, repeated: bool)
    ensures AtReport(Restart(c, r, op, q, repeated).run)
  {
    hide WriteTranscript, Current;
  }

  lemma {:induction false} CancelTurnsUntouched(c: Ctx, r: Run, op: OpId, raised: bool)
    requires !AtReport(r)
    ensures !Live(r) ==> Untouched(r, CancelAwaited(c, r, op).run)
    ensures Untouched(r, CancelReported(c, r, op, raised).run)
    ensures Untouched(r, CancelCompleted(r, raised).run)
  {
    hide WriteTranscript, Strip, Current, EmitCompletion;
    if r.done {} else {}
  }

  lemma {:induction false} InputAwaitedUntouched(c: Ctx, r: Run, op: OpId, q: InputRequest)
    requires !AtReport(r) && !AtReport(InputAwaited(c, r, op, q).run)
    ensures Untouched(r, InputAwaited(c, r, op, q).run)
  {
    RestartReports(c, r, op, q, false);
    hide Current, Restart;
  }

  lemma {:induction false} ReportUntouched(c: Ctx, r: Run, raised: bool)
    requires AtReport(r) && !Live(r)
    ensures Untouched(r, InputReported(c, r, raised).run)
  {
    hide Current;
    if raised {} else if Current(c, r) {} else {}
  }

  lemma {:induction false} HolderUntouched(c: Ctx, r: Run, raised: bool)
    requires r.control.Held? && !Restarts(r, HolderTurn(c, r, raised).run)
    requires r.control.at.CancelAwait? || r.control.at.InputReport? ==> !Live(r)
    ensures Untouched(r, HolderTurn(c, r, raised).run)
  {
    hide Untouched, CancelAwaited, CancelReported, CancelCompleted, InputAwaited, InputReported, Live;
    match r.control.at
    case CancelAwait => CancelTurnsUntouched(c, r, r.control.op, raised);
    case CancelReport => CancelTurnsUntouched(c, r, r.control.op, raised);
    case CancelComplete(failed) => CancelTurnsUntouched(c, r, r.control.op, failed);
    case InputAwait(q) => InputAwaitedUntouched(c, r, r.control.op, q);
    case InputReport => ReportUntouched(c, r, raised);
  }

  // ----- segments of the task -----

  /** One segment of the newest task of a current run under way. */
  ghost predicate TaskShows(r: Run, r': Run, choice: TaskChoice) {
    Underway(r') ==>
      Underway(r)
      && forall text, error, i | Shows(r, text, error) ::
           Shows(r', TextAfter(text, TaskRuns(i, 0, choice), i), ErrorAfter(error, TaskRuns(i, 0, choice), i))
  }

  lemma {:induction false} QueuedShows(c: Ctx, r: Run, k: nat)
    requires k == |r.tasks| - 1 && !AtReport(r)
    requires r.tasks[k].pc.NotStarted? || r.tasks[k].pc.WaitingStart? || r.tasks[k].pc.WaitingSlot?
    ensures TaskShows(r, AdvanceQueued(c, r, k).run, Advance)
  {
    hide Current, WriteTranscript, Strip;
    if r.tasks[k].pc.NotStarted? {
      if r.tasks[k].cancelRequested {} else {}
    } else if r.tasks[k].cancelRequested {
      if r.done {} else {}
    } else if r.tasks[k].pc.WaitingStart? {
      if r.cancelled || r.done {} else {}
    } else {
    }
  }

  lemma {:induction false} AdvanceShows(c: Ctx, r: Run, k: nat)
    requires k == |r.tasks| - 1 && !AtReport(r) && CanTake(r, k, Advance)
    ensures TaskShows(r, AdvanceTask(c, r, k).run, Advance)
  {
    if r.tasks[k].pc.NotStarted? || r.tasks[k].pc.WaitingStart? || r.tasks[k].pc.WaitingSlot? {
      QueuedShows(c, r, k);
      hide AdvanceQueued, TaskShows;
    } else {
      ReportMoves(c, r, k);
      PastTheEnd(r, k, Releasing);
      PastTheEnd(r, k, ReportingError);
      PastTheEnd(r, k, Completing);
      PastTheEnd(r, k, FinalCompleting);
      PastTheEnd(r, k, Finished);
      hide AdvanceReport, AdvanceQueued, Shows, EmitCompletion, MoveTo, SetPc, Underway, AtReport;
      match r.tasks[k].pc
      case FinalReport =>
      case Completing =>
      case FinalCompleting =>
      case _ =>
    }
  }

  lemma {:induction false} PastTheEnd(r: Run, k: nat, pc: TaskPc)
    requires k == |r.tasks| - 1 && !AtReport(r) && !BeforeEnd(pc)
    ensures !Underway(MoveTo(r, k, pc)) && !Underway(MoveTo(r, k, pc).(done := true)) && !Underway(SetPc(r, k, pc))
  {
  }

  lemma {:induction false} YieldShows(c: Ctx, r: Run, k: nat, choice: TaskChoice)
    requires k == |r.tasks| - 1 && !AtReport(r) && CanTake(r, k, choice) && Current(c, r)
    requires choice.Text? || choice.Retry? || choice.Report? || choice.OtherEvent?
    ensures TaskShows(r, TaskSegment(c, r, k, choice).run, choice)
  {
    hide Current, DropChunks;
    match choice
    case Text(text) =>
    case Retry(discarded) => if discarded < |r.finalText| {} else {}
    case Report(error) =>
    case OtherEvent =>
  }

  lemma {:induction false} BodyShows(c: Ctx, r: Run, k: nat, choice: TaskChoice)
    requires k == |r.tasks| - 1 && !AtReport(r) && CanTake(r, k, choice)
    requires choice.Prepare? || choice.Extend? || choice.Swallow?
    ensures TaskShows(r, TaskSegment(c, r, k, choice).run, choice)
  {
    match choice
    case Prepare =>
    case Extend(more) =>
    case Swallow =>
  }

  lemma {:induction false} EndsUnderway(c: Ctx, r: Run, k: nat, choice: TaskChoice)
    requires k == |r.tasks| - 1 && !AtReport(r) && CanTake(r, k, choice)
             && (choice.End? || choice.Fail? || choice.Stop?)
    ensures !Underway(TaskSegment(c, r, k, choice).run)
  {
    hide Current, WriteTranscript, Strip, CapturePartial, FreshFor;
    match choice
    case End =>
    case Fail(error, newId) =>
    case Stop(newId) =>
  }

  lemma {:induction false} SegmentShows(c: Ctx, r: Run, k: nat, choice: TaskChoice)
    requires k == |r.tasks| - 1 && !AtReport(r) && CanTake(r, k, choice) && Current(c, r)
    ensures TaskShows(r, TaskSegment(c, r, k, choice).run, choice)
  {
    hide Current, CanTake;
    match choice
    case Advance => AdvanceShows(c, r, k); hide TaskShows, AdvanceTask;
    case Text(_) => YieldShows(c, r, k, choice); hide TaskShows, TaskSegment;
    case Retry(_) => YieldShows(c, r, k, choice); hide TaskShows, TaskSegment;
    case Report(_) => YieldShows(c, r, k, choice); hide TaskShows, TaskSegment;
    case OtherEvent => YieldShows(c, r, k, choice); hide TaskShows, TaskSegment;
    case Prepare => BodyShows(c, r, k, choice); hide TaskShows, TaskSegment;
    case Extend(_) => BodyShows(c, r, k, choice); hide TaskShows, TaskSegment;
    case Swallow => BodyShows(c, r, k, choice); hide TaskShows, TaskSegment;
    case End => EndsUnderway(c, r, k, choice); hide TaskSegment, Underway;
    case Fail(_, _) => EndsUnderway(c, r, k, choice); hide TaskSegment, Underway;
    case Stop(_) => EndsUnderway(c, r, k, choice); hide TaskSegment, Underway;
  }

  // ----- one event -----

  /** One event, seen from a run under way that stays current and is not launched anew. */
  ghost predicate Carries(r: Run, r': Run, e: Event, i: nat) {
    Underway(r') ==>
      Underway(r)
      && forall text, error | Shows(r, text, error) :: Shows(r', TextAfter(text, e, i), ErrorAfter(error, e, i))
  }

  lemma {:induction false} UntouchedCarries(r: Run, r': Run, e: Event, i: nat)
    requires Untouched(r, r') && !(e.TaskRuns? && e.run == i)
    ensures Carries(r, r', e, i)
  {
    hide Underway, InBody;
  }

  lemma {:induction false} SegmentCarries(r: Run, r': Run, i: nat, k: nat, choice: TaskChoice)
    requires TaskShows(r, r', choice)
    ensures Carries(r, r', TaskRuns(i, k, choice), i)
  {
    hide Underway, Shows;
    forall text, error | Underway(r') && Shows(r, text, error)
      ensures Shows(r', TextAfter(text, TaskRuns(i, k, choice), i), ErrorAfter(error, TaskRuns(i, k, choice), i))
    {
      assert TextAfter(text, TaskRuns(i, k, choice), i) == TextAfter(text, TaskRuns(i, 0, choice), i);
      assert ErrorAfter(error, TaskRuns(i, k, choice), i) == ErrorAfter(error, TaskRuns(i, 0, choice), i);
    }
  }

  lemma {:induction false} TaskCarries(s: State, i: nat, k: nat, choice: TaskChoice)
    requires Inv(s) && Enabled(s, TaskRuns(i, k, choice)) && IsCurrent(s, i)
    ensures Carries(s.runs[i], Next(s, TaskRuns(i, k, choice)).runs[i], TaskRuns(i, k, choice), i)
  {
    var c, r := CtxOf(s, i), s.runs[i];
    LiveTaskIsLast(c, r, k, choice) by { assert RunInv(c, r); }
    NotReporting(c, r, k, choice) by { assert RunInv(c, r); }
    hide Inv, TaskSegment, CanTake, TaskShows, Carries, Current, AtReport, Enters, Leaves;
    SegmentShows(c, r, k, choice);
    SegmentCarries(r, TaskSegment(c, r, k, choice).run, i, k, choice);
  }

  lemma {:induction false} NotReporting(c: Ctx, r: Run, k: nat, choice: TaskChoice)
    requires RunInv(c, r) && CanTake(r, k, choice) && k == |r.tasks| - 1
    ensures !AtReport(r)
  {
    hide SettledInv, OwnershipInv, HistoryInv, FreshFor;
  }

  lemma {:induction false} SpawnCarries(s: State, i: nat, raised: bool, j: nat)
    requires Enabled(s, SpawnReport(i, raised)) && j < |s.runs|
    ensures Untouched(s.runs[j], Next(s, SpawnReport(i, raised)).runs[j])
  {
    SameTouches(s.runs[j], s.runs[j]);
    hide SpawnReported, Untouched;
    SpawnUntouched(CtxOf(s, i), s.runs[i], raised);
  }

  lemma {:induction false} AcquireCarries(s: State, op: OpId, i: nat)
    requires Enabled(s, Acquire(op)) && i < |s.runs| && !Restarts(s.runs[i], Next(s, Acquire(op)).runs[i])
    ensures Untouched(s.runs[i], Next(s, Acquire(op)).runs[i])
  {
    SameTouches(s.runs[i], s.runs[i]);
    hide CancelAcquired, InputAcquired, Untouched, InputFresh;
    var w := s.waiting[op];
    if w.run == i {
      match w.request
      case CancelRequest => CancelUntouched(CtxOf(s, i), s.runs[i], op);
      case Input(q) => InputUntouched(CtxOf(s, i), s.runs[i], op, q);
    }
  }

  lemma {:induction false} ResumeCarries(s: State, i: nat, raised: bool, j: nat)
    requires Inv(s) && Enabled(s, Resume(i, raised)) && j < |s.runs|
    requires !Restarts(s.runs[j], Next(s, Resume(i, raised)).runs[j])
    ensures Untouched(s.runs[j], Next(s, Resume(i, raised)).runs[j])
  {
    SameTouches(s.runs[j], s.runs[j]);
    if s.runs[i].control.at.InputReport? {
      ReportIsIdle(CtxOf(s, i), s.runs[i]) by { assert RunInv(CtxOf(s, i), s.runs[i]); }
    }
    hide Inv, HolderTurn, Untouched, Live;
    if i == j {
      HolderUntouched(CtxOf(s, i), s.runs[i], raised);
    }
  }

  lemma {:induction false} WaitCarries(s: State, agentId: string, i: nat)
    requires i < |s.runs|
    ensures Untouched(s.runs[i], Next(s, WaitCall(agentId)).runs[i])
  {
    SameTouches(s.runs[i], s.runs[i]);
    FenceUntouched(s.runs[i]);
    hide Untouched, Fence;
  }

  lemma {:induction false} AbandonCarries(s: State, reason: string, i: nat)
    requires i < |s.runs| && IsCurrent(Next(s, Abandon(reason)), i)
    ensures Untouched(s.runs[i], Next(s, Abandon(reason)).runs[i])
  {
    SameTouches(s.runs[i], s.runs[i]);
    AbandonedDetaches(CtxOf(s, i), s.runs[i], reason);
    hide Untouched, Abandoned;
  }

  lemma {:induction false} AbandonedDetaches(c: Ctx, r: Run, reason: string)
    ensures Abandoned(c, r, reason) == r || Abandoned(c, r, reason).detached
  {
    if r.done {} else if Live(r) {} else {}
  }

  lemma {:induction false} RestoreIsNotCurrent(s: State, items: seq<Item>, i: nat)
    requires Enabled(s, Restore(items)) && i < |s.runs|
    ensures i < |Next(s, Restore(items)).runs| && !IsCurrent(Next(s, Restore(items)), i)
  {
    hide Replaced, Adopted, Index;
    if s.phase == Open {
      NotAdopted(s, items, i);
    }
  }

  lemma {:induction false} NotAdopted(s: State, items: seq<Item>, i: nat)
    requires i < |s.runs|
    ensures !IsCurrent(RestoreAll(s, items), i)
  {
    hide Replaced, Adopted, Index;
  }

  /** Bookkeeping of other runs, callers, callbacks and clocks. */
  lemma {:induction false} QuietCarries(s: State, e: Event, i: nat)
    requires Enabled(s, e) && i < |s.runs|
    requires e.SpawnCall? || e.SpawnReap? || e.Call? || e.UpdateSession? || e.CloseCall? || e.MarkInjected?
             || e.MarkDelivered? || e.Tick?
    ensures Untouched(s.runs[i], Next(s, e).runs[i])
  {
    hide ActiveRuns, Blank, SwitchesContext, CtxOf, Live, HasTask;
    SameMarks(s.runs[i], Next(s, e).runs[i]);
  }

  lemma {:induction false} SameMarks(r: Run, r': Run)
    requires r'.finalText == r.finalText && r'.control == r.control && r'.tasks == r.tasks
    requires r'.snapshot.error == r.snapshot.error && r'.snapshot.status == r.snapshot.status
    ensures Untouched(r, r')
  {
  }

  lemma {:induction false} CloseIsNotCurrent(s: State, e: Event, i: nat)
    requires Enabled(s, e) && (e.CloseMark? || e.CloseFinish?) && i < |s.runs|
    ensures i < |Next(s, e).runs| && !IsCurrent(Next(s, e), i)
  {
    hide CloseMarked, CloseFinished;
  }

  lemma {:induction false} UnderwayStep(s: State, e: Event, i: nat)
    requires Inv(s) && Enabled(s, e) && i < |s.runs| && i < |Next(s, e).runs| && IsCurrent(s, i)
    requires IsCurrent(Next(s, e), i) && !Restarts(s.runs[i], Next(s, e).runs[i])
    ensures Carries(s.runs[i], Next(s, e).runs[i], e, i)
  {
    hide Inv, Enabled, Next, IsCurrent, Restarts, Untouched, Carries;
    if e.TaskRuns? && e.run == i {
      TaskCarries(s, i, e.task, e.choice);
    } else {
      StepUntouched(s, e, i);
      UntouchedCarries(s.runs[i], Next(s, e).runs[i], e, i);
    }
  }

  lemma {:induction false} StepUntouched(s: State, e: Event, i: nat)
    requires Inv(s) && Enabled(s, e) && i < |s.runs| && i < |Next(s, e).runs| && !(e.TaskRuns? && e.run == i)
    requires IsCurrent(Next(s, e), i) && !Restarts(s.runs[i], Next(s, e).runs[i])
    ensures Untouched(s.runs[i], Next(s, e).runs[i])
  {
    hide Inv, Enabled, Next, IsCurrent, Restarts, Untouched;
    match e
    case TaskRuns(j, k, choice) => OtherTask(s, j, k, choice, i);
    case SpawnReport(j, raised) => SpawnCarries(s, j, raised, i);
    case Acquire(op) => AcquireCarries(s, op, i);
    case Resume(j, raised) => ResumeCarries(s, j, raised, i);
    case WaitCall(agentId) => WaitCarries(s, agentId, i);
    case Abandon(reason) => AbandonCarries(s, reason, i);
    case Restore(items) => RestoreIsNotCurrent(s, items, i);
    case CloseMark | CloseFinish => CloseIsNotCurrent(s, e, i);
    case _ => QuietCarries(s, e, i);
  }

  lemma {:induction false} OtherTask(s: State, i: nat, k: nat, choice: TaskChoice, j: nat)
    requires Enabled(s, TaskRuns(i, k, choice)) && j < |s.runs| && i != j
    ensures Untouched(s.runs[j], Next(s, TaskRuns(i, k, choice)).runs[j])
  {
    SameTouches(s.runs[j], s.runs[j]);
    hide TaskSegment, CanTake, Untouched;
  }

  // ----- a launch over an execution -----

  /** Event m begins a launch of run i: its spawn, or an input that launches it again. */
  ghost predicate LaunchedBy(events: seq<Event>, states: seq<State>, m: nat, i: nat)
    requires |states| == |events| + 1 && m < |events|
  {
    (events[m].SpawnCall? && |states[m].runs| <= i < |states[m + 1].runs|) || RestartedAt(states, m, i)
  }

  /** In state n the launch begun by event m is still the last one of run i. */
  ghost predicate LastLaunch(events: seq<Event>, states: seq<State>, m: nat, n: nat, i: nat)
    requires |states| == |events| + 1 && n < |states|
  {
    m < n && LaunchedBy(events, states, m, i) && NoRestart(states, m + 1, n, i)
  }

  lemma {:induction false} SpawnShows(s: State, e: Event, i: nat)
    requires Enabled(s, e) && e.SpawnCall? && |s.runs| <= i < |Next(s, e).runs|
    ensures Shows(Next(s, e).runs[i], "", "")
  {
    hide ActiveRuns;
  }

  lemma {:induction false} RestartShows(c: Ctx, r: Run, op: OpId, q: InputRequest, repeated: bool)
    requires !Live(r)
    ensures Shows(Restart(c, r, op, q, repeated).run, "", "")
  {
    hide WriteTranscript, Current;
    if r.snapshot.callbackEnabled && !repeated {} else {}
  }

  lemma {:induction false} AcquiredShows(c: Ctx, r: Run, op: OpId, request: Request)
    requires r.control.Free? && AtReport(AcquireTurn(c, r, op, request).run)
    ensures Shows(AcquireTurn(c, r, op, request).run, "", "")
  {
    if request.Input? {
      if !Live(Fence(r)) {
        RestartShows(c, Fence(r), op, request.input, Repeats(Fence(r), request.input));
      }
      hide Restart, Fence, Repeats, RefusesInput, Answered, Current, Live, Shows;
    } else {
      hide Current, Fence, Shows;
    }
  }

  lemma {:induction false} ResumedShows(c: Ctx, r: Run, raised: bool)
    requires r.control.Held? && Restarts(r, HolderTurn(c, r, raised).run)
    requires r.control.at.InputAwait? ==> !Live(r)
    ensures Shows(HolderTurn(c, r, raised).run, "", "")
  {
    HolderDone(c, r, raised);
    if r.control.at.InputAwait? {
      RestartShows(c, r, r.control.op, r.control.at.request, false);
    }
    hide Restart, Current, Shows, CancelAwaited, CancelReported, CancelCompleted, InputReported, Live, HolderSettles;
  }

  lemma {:induction false} LaunchShows(s: State, e: Event, i: nat)
    requires Inv(s) && Enabled(s, e) && i < |s.runs| && i < |Next(s, e).runs|
    requires Restarts(s.runs[i], Next(s, e).runs[i])
    ensures Shows(Next(s, e).runs[i], "", "")
  {
    if e.Acquire? || e.Resume? {
      hide Inv, InputFresh, AcquireTurn, HolderTurn, Shows, Live;
      if e.Acquire? && s.waiting[e.op].run == i {
        AcquiredShows(CtxOf(s, i), s.runs[i], e.op, s.waiting[e.op].request);
      } else if e.Resume? && e.run == i {
        ResumedShows(CtxOf(s, i), s.runs[i], e.raised);
      }
    } else {
      NoOtherLaunch(s, e, i);
      hide *;
    }
  }

  lemma {:induction false} NoOtherLaunch(s: State, e: Event, i: nat)
    requires Enabled(s, e) && i < |s.runs| && i < |Next(s, e).runs| && !e.Acquire? && !e.Resume?
    ensures !Restarts(s.runs[i], Next(s, e).runs[i])
  {
    hide Enabled, Next;
    ControlKept(s, e, i);
  }

  /** While the last launch of a current run is under way the run shows what the query loop yielded since
      it began, and whether its task is in the body. */
  lemma {:induction false} UnderwayShows(s: State, events: seq<Event>, states: seq<State>, m: nat, n: nat, i: nat)
    requires Inv(s) && Execution(s, events, states) && n < |states| && LastLaunch(events, states, m, n, i)
    requires i < |states[n].runs| && IsCurrent(states[n], i) && Underway(states[n].runs[i])
    ensures Shows(states[n].runs[i], StreamedText(events, i, m + 1, n), LastError(events, i, m + 1, n))
    decreases n
  {
    hide Inv, Enabled, Next, IsCurrent, Shows, Underway, Linked, Restarts, LaunchedBy;
    if n == m + 1 {
      LaunchedShows(s, events, states, m, i);
    } else {
      Earlier(s, events, states, m, n, i);
      CarriesAt(s, events, states, n - 1, i);
      UnderwayShows(s, events, states, m, n - 1, i);
    }
  }

  lemma {:induction false} LaunchedShows(s: State, events: seq<Event>, states: seq<State>, m: nat, i: nat)
    requires Inv(s) && Execution(s, events, states) && m < |events| && LaunchedBy(events, states, m, i)
    ensures i < |states[m + 1].runs| && Shows(states[m + 1].runs[i], "", "")
  {
    ExecutionInv(s, events, states, m);
    assert Linked(events, states, m);
    hide Inv, Enabled, Next, Shows, Restarts;
    if i < |states[m].runs| {
      LaunchShows(states[m], events[m], i);
    } else {
      SpawnShows(states[m], events[m], i);
    }
  }

  /** The run was there, and current, one state earlier. */
  lemma {:induction false} Earlier(s: State, events: seq<Event>, states: seq<State>, m: nat, n: nat, i: nat)
    requires Inv(s) && Execution(s, events, states) && m + 1 < n < |states| && LaunchedBy(events, states, m, i)
    requires i < |states[n].runs| && IsCurrent(states[n], i)
    ensures i < |states[n - 1].runs| && IsCurrent(states[n - 1], i)
  {
    hide Inv, Enabled, Next, IsCurrent, Linked, Restarts, Evolves;
    LaunchedThere(events, states, m, i);
    RunEvolves(s, events, states, m + 1, n - 1, i);
    NeverCurrentAgain(s, events, states, n - 1, n, i);
  }

  lemma {:induction false} LaunchedThere(events: seq<Event>, states: seq<State>, m: nat, i: nat)
    requires |states| == |events| + 1 && m < |events| && LaunchedBy(events, states, m, i)
    ensures i < |states[m + 1].runs|
  {
    hide Restarts;
  }

  lemma {:induction false} CarriesAt(s: State, events: seq<Event>, states: seq<State>, n: nat, i: nat)
    requires Inv(s) && Execution(s, events, states) && n < |events| && i < |states[n].runs| && i < |states[n + 1].runs|
    requires IsCurrent(states[n], i) && IsCurrent(states[n + 1], i) && !RestartedAt(states, n, i)
    ensures Carries(states[n].runs[i], states[n + 1].runs[i], events[n], i)
  {
    hide Inv, Enabled, Next, IsCurrent, Carries, Restarts;
    ExecutionInv(s, events, states, n);
    assert Linked(events, states, n);
    UnderwayStep(states[n], events[n], i);
  }

  // ----- the end of a task -----

  /** Run i reports for good: its status, error and result, with its transcript and a state event. */
  ghost predicate Closes(s: State, s': State, i: nat, status: Status, error: string, text: string)
    requires i < |s.runs|
  {
    i < |s'.runs|
    && var before, after := s.runs[i].snapshot, s'.runs[i].snapshot;
       && after.status == status && after.error == error && Trims(text, after.finalResult)
       && after.updatedAt == s.clock && after.finishedAt == Some(s.clock)
       && after.callbackEnabled == before.callbackEnabled && after.callbackState == before.callbackState
       && after.callbackEpoch == before.callbackEpoch && after.callbackMessageId == before.callbackMessageId
       && s'.log == s.log + [Entry(i, Transcript(s'.runs[i].messages)), Entry(i, StateEvent(status))]
  }

  /** The same, of one run. */
  ghost predicate ClosesRun(c: Ctx, r: Run, e: Effect, status: Status, error: string, text: string) {
    var before, after := r.snapshot, e.run.snapshot;
    && after.status == status && after.error == error && Trims(text, after.finalResult)
    && after.updatedAt == c.now && after.finishedAt == Some(c.now)
    && after.callbackEnabled == before.callbackEnabled && after.callbackState == before.callbackState
    && after.callbackEpoch == before.callbackEpoch && after.callbackMessageId == before.callbackMessageId
    && e.out == [Transcript(e.run.messages), StateEvent(status)]
  }

  lemma {:induction false} EndCloses(c: Ctx, r: Run, k: nat)
    requires k < |r.tasks| && r.tasks[k].projection.Some? && Current(c, r)
    ensures ClosesRun(c, r, EndBody(c, r, k), if r.snapshot.error != "" then Failed else Completed, r.snapshot.error,
                      r.finalText)
    ensures EndBody(c, r, k).run.messages == r.tasks[k].projection.value
  {
    StripTrims(r.finalText);
    hide Trims;
    hide Strip;
    if r.snapshot.error != "" {} else {}
  }

  lemma {:induction false} FailCloses(c: Ctx, r: Run, k: nat, error: string, newId: string)
    requires k < |r.tasks| && Current(c, r)
    ensures ClosesRun(c, r, FailBody(c, r, k, error, newId), Failed, error, r.finalText)
    ensures FailBody(c, r, k, error, newId).run.messages == Captured(r, k, r.finalText, newId)
  {
    StripTrims(r.finalText);
    hide Trims;
    hide Strip, CapturePartial;
  }

  lemma {:induction false} StopCloses(c: Ctx, r: Run, k: nat, newId: string)
    requires k < |r.tasks| && Current(c, r)
    ensures ClosesRun(c, r, StopBody(c, r, k, newId), Stopped, "stopped", r.finalText)
    ensures StopBody(c, r, k, newId).run.messages == Captured(r, k, r.finalText, newId)
  {
    StripTrims(r.finalText);
    hide Trims;
    hide Strip, CapturePartial;
  }

  lemma {:induction false} UnbegunCloses(c: Ctx, r: Run, k: nat)
    requires k < |r.tasks| && Current(c, r) && !r.done
    requires r.tasks[k].cancelRequested && (r.tasks[k].pc.WaitingStart? || r.tasks[k].pc.WaitingSlot?)
    ensures ClosesRun(c, r, AdvanceTask(c, r, k), Stopped, "stopped", r.finalText)
    ensures AdvanceTask(c, r, k).run.messages == r.messages
  {
    StripTrims(r.finalText);
    hide Trims;
    hide Strip;
  }

  /** The history the query loop has built, completed by what it had streamed when it was interrupted. */
  function Captured(r: Run, k: nat, text: string, newId: string): seq<Message>
    requires k < |r.tasks|
  {
    CapturePartial(match r.tasks[k].projection case Some(built) => built case None => r.messages, r.tasks[k].baseline,
                   text,
                   newId)
  }

  lemma {:induction false} PutCloses(s: State, s': State, i: nat, e: Effect, status: Status, error: string,
                                     text: string)
    requires i < |s.runs| && ClosesRun(CtxOf(s, i), s.runs[i], e, status, error, text)
    requires s'.runs == s.runs[i := e.run] && s'.log == s.log + Tag(i, e.out)
    ensures Closes(s, s', i, status, error, text)
  {
    hide Trims, Mapped;
  }

  lemma {:induction false} TaskPuts(s: State, i: nat, k: nat, choice: TaskChoice)
    requires Enabled(s, TaskRuns(i, k, choice))
    ensures CanTake(s.runs[i], k, choice)
    ensures Next(s, TaskRuns(i, k, choice)).runs == s.runs[i := TaskSegment(CtxOf(s, i), s.runs[i], k, choice).run]
    ensures Next(s, TaskRuns(i, k, choice)).log == s.log + Tag(i, TaskSegment(CtxOf(s, i), s.runs[i], k, choice).out)
  {
    hide TaskSegment, CanTake;
  }

  /** What the last step of a task in its body, or of one cancelled before it, reports of a current run. */
  ghost predicate ClosesSo(s: State, s': State, e: Event, i: nat)
    requires e.TaskRuns? && i < |s.runs| && i < |s'.runs| && e.task < |s.runs[i].tasks|
  {
    var r, r' := s.runs[i], s'.runs[i];
    match e.choice
    case End =>
      Closes(s, s', i, if r.snapshot.error == "" then Completed else Failed, r.snapshot.error, r.finalText)
      && r.tasks[e.task].projection == Some(r'.messages)
    case Fail(error, newId) =>
      Closes(s, s', i, Failed, error, r.finalText) && r'.messages == Captured(r, e.task, r.finalText, newId)
    case Stop(newId) =>
      Closes(s, s', i, Stopped, "stopped", r.finalText) && r'.messages == Captured(r, e.task, r.finalText, newId)
    case Advance =>
      CancelledEarly(r, e.task) ==> Closes(s, s', i, Stopped, "stopped", r.finalText) && r'.messages == r.messages
    case _ => true
  }

  lemma {:induction false} StepCloses(s: State, e: Event, i: nat)
    requires Enabled(s, e) && e.TaskRuns? && e.run == i && i < |s.runs| && IsCurrent(s, i) && e.task < |s.runs[i].tasks|
    ensures i < |Next(s, e).runs|
    ensures ClosesSo(s, Next(s, e), e, i)
  {
    TaskPuts(s, i, e.task, e.choice);
    var c, r, k := CtxOf(s, i), s.runs[i], e.task;
    hide Enabled, Next, Closes, ClosesRun, Captured, Current, AdvanceTask, EndBody, FailBody, StopBody, FreshFor, Strip;
    var effect := TaskSegment(c, r, k, e.choice);
    match e.choice
    case End =>
      EndCloses(c, r, k);
      PutCloses(s, Next(s, e), i, effect, if r.snapshot.error != "" then Failed
                else Completed, r.snapshot.error, r.finalText);
    case Fail(error, newId) =>
      FailCloses(c, r, k, error, newId);
      PutCloses(s, Next(s, e), i, effect, Failed, error, r.finalText);
    case Stop(newId) =>
      StopCloses(c, r, k, newId);
      PutCloses(s, Next(s, e), i, effect, Stopped, "stopped", r.finalText);
    case Advance =>
      if CancelledEarly(r, k) {
        UnbegunCloses(c, r, k);
        PutCloses(s, Next(s, e), i, effect, Stopped, "stopped", r.finalText);
      }
    case _ =>
  }

  /** The task was cancelled before its body, and nobody has settled the run meanwhile. */
  predicate CancelledEarly(r: Run, k: nat)
    requires k < |r.tasks|
  {
    r.tasks[k].cancelRequested && (r.tasks[k].pc.WaitingStart? || r.tasks[k].pc.WaitingSlot?) && !r.done
  }

  /** The task of the run is about to take this segment, and the run is current. */
  ghost predicate Takes(events: seq<Event>, states: seq<State>, n: nat, i: nat)
    requires |states| == |events| + 1 && n < |events|
  {
    events[n].TaskRuns? && events[n].run == i && i < |states[n].runs| && IsCurrent(states[n], i)
    && events[n].task < |states[n].runs[i].tasks|
  }

  lemma {:induction false} TakenShows(s: State, events: seq<Event>, states: seq<State>, m: nat, n: nat, i: nat)
    requires Inv(s) && Execution(s, events, states) && n < |events| && LastLaunch(events, states, m, n, i)
    requires Takes(events, states, n, i) && BeforeEnd(states[n].runs[i].tasks[events[n].task].pc)
    ensures Enabled(states[n], events[n]) && states[n + 1] == Next(states[n], events[n])
    ensures states[n].runs[i].finalText == StreamedText(events, i, m + 1, n)
    ensures states[n].runs[i].snapshot.error == LastError(events, i, m + 1, n)
  {
    hide Inv, Enabled, Next, IsCurrent, StreamedText, LastError, LastLaunch;
    ExecutionInv(s, events, states, n);
    assert Linked(events, states, n);
    NewestIsTaken(states[n], events[n]);
    UnderwayShows(s, events, states, m, n, i);
  }

  lemma {:induction false} NewestIsTaken(s: State, e: Event)
    requires Inv(s) && Enabled(s, e) && e.TaskRuns? && e.task < |s.runs[e.run].tasks|
    ensures e.run < |s.runs| && (BeforeEnd(s.runs[e.run].tasks[e.task].pc) ==> Underway(s.runs[e.run]))
  {
    var c, r := CtxOf(s, e.run), s.runs[e.run];
    assert RunInv(c, r);
    hide Inv, CanTake, Enters, Leaves, RunInv, Underway;
    NewestOfRun(c, r, e.task, e.choice);
  }

  lemma {:induction false} NewestOfRun(c: Ctx, r: Run, k: nat, choice: TaskChoice)
    requires RunInv(c, r) && CanTake(r, k, choice) && k < |r.tasks|
    ensures BeforeEnd(r.tasks[k].pc) ==> Underway(r)
  {
    hide RunInv, CanTake, AtReport;
    LiveTaskIsLast(c, r, k, choice);
  }

  /** The query loop of a current run comes to its end: the run has failed exactly if the last error the
      loop reported since the launch says something, and is completed otherwise; its result is what was
      streamed since the launch, less what retries took back, and its history is the loop's. */
  lemma {:induction false} EndReports(s: State, events: seq<Event>, states: seq<State>, m: nat, n: nat, i: nat)
    requires Inv(s) && Execution(s, events, states) && n < |events| && LastLaunch(events, states, m, n, i)
    requires Takes(events, states, n, i) && events[n].choice == End
    ensures Closes(states[n], states[n + 1], i, if LastError(events, i, m + 1, n) == "" then Completed else Failed,
                   LastError(events, i, m + 1, n), StreamedText(events, i, m + 1, n))
    ensures states[n].runs[i].tasks[events[n].task].projection == Some(states[n + 1].runs[i].messages)
  {
    assert Linked(events, states, n);
    BodyTaken(states[n], events[n]);
    hide Inv, Enabled, Next, IsCurrent, StreamedText, LastError, LastLaunch, Closes, Linked;
    TakenShows(s, events, states, m, n, i);
    StepCloses(states[n], events[n], i);
  }

  lemma {:induction false} BodyTaken(s: State, e: Event)
    requires Enabled(s, e) && e.TaskRuns? && (e.choice.End? || e.choice.Fail?)
    ensures e.run < |s.runs| && e.task < |s.runs[e.run].tasks| && s.runs[e.run].tasks[e.task].pc == Body
  {
    hide FreshFor;
  }

  /** The query loop of a current run raises: the run has failed with that error; its result is what was
      streamed, and what of it the loop had not put in its history is kept there. */
  lemma {:induction false} FailureReports(s: State, events: seq<Event>, states: seq<State>, m: nat, n: nat, i: nat)
    requires Inv(s) && Execution(s, events, states) && n < |events| && LastLaunch(events, states, m, n, i)
    requires Takes(events, states, n, i) && events[n].choice.Fail?
    ensures Closes(states[n], states[n + 1], i, Failed, events[n].choice.error, StreamedText(events, i, m + 1, n))
    ensures states[n + 1].runs[i].messages
            == Captured(states[n].runs[i], events[n].task, StreamedText(events, i, m + 1, n), events[n].choice.newId)
  {
    assert Linked(events, states, n);
    BodyTaken(states[n], events[n]);
    hide Inv, Enabled, Next, IsCurrent, StreamedText, LastError, LastLaunch, Closes, Linked, Captured;
    TakenShows(s, events, states, m, n, i);
    StepCloses(states[n], events[n], i);
  }

  /** A cancellation surfaces in the body of a current run, or before it: the run is stopped, its result
      is what was streamed by then. */
  lemma {:induction false} StopReports(s: State, events: seq<Event>, states: seq<State>, m: nat, n: nat, i: nat)
    requires Inv(s) && Execution(s, events, states) && n < |events| && LastLaunch(events, states, m, n, i)
    requires Takes(events, states, n, i)
    requires (events[n].choice.Stop? && states[n].runs[i].tasks[events[n].task].pc.Body?)
             || (events[n].choice.Advance? && CancelledEarly(states[n].runs[i], events[n].task))
    ensures Closes(states[n], states[n + 1], i, Stopped, "stopped", StreamedText(events, i, m + 1, n))
    ensures states[n + 1].runs[i].messages
            == match events[n].choice
               case Stop(newId) =>
                 Captured(states[n].runs[i], events[n].task, StreamedText(events, i, m + 1, n), newId)
               case _ => states[n].runs[i].messages
  {
    hide Inv, Enabled, Next, IsCurrent, StreamedText, LastError, LastLaunch, Closes, Linked, Captured;
    TakenShows(s, events, states, m, n, i);
    StepCloses(states[n], events[n], i);
  }
}
