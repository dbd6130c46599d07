/** What a wait's fence does to a cancel or a launch that is under way, over every execution:
    which of them it decides, and when. */
module AgentFences {
  import opened Common
  import opened StreamText
  import opened AgentModel
  import opened AgentInvariant
  import opened AgentEvolution
  import opened AgentRestore
  import opened AgentRuntime
  import opened AgentExecution
  import opened AgentTheorems
  import opened AgentSafety
  import opened AgentDone
  import opened AgentSettlement

  // ----- what settles a run that stays current -----

  lemma {:induction false} AbandonDetaches(s: State, reason: string, i: nat)
    requires i < |s.runs| && Mapped(s, i) && !s.runs[i].done
    ensures !IsCurrent(Next(s, Abandon(reason)), i)
  {
    assert Abandoned(CtxOf(s, i), s.runs[i], reason).detached;
    hide Abandoned;
  }

  lemma {:induction false} GiveUpDetaches(s: State, i: nat, raised: bool)
    requires Enabled(s, SpawnReport(i, raised)) && (raised || !SpawnValid(CtxOf(s, i), s.runs[i]))
    ensures !IsCurrent(Next(s, SpawnReport(i, raised)), i)
  {
    assert SpawnReported(CtxOf(s, i), s.runs[i], raised).detached;
    hide SpawnReported, SpawnValid;
  }

  lemma {:induction false} BulkDetaches(s: State, e: Event, i: nat)
    requires Inv(s) && Enabled(s, e) && i < |s.runs|
    requires (e.Restore? && s.phase == Open) || e.CloseMark? || e.CloseFinish?
    ensures i < |Next(s, e).runs| && !IsCurrent(Next(s, e), i)
  {
    hide RunInv, CloseMarked, CloseFinished;
    if e.Restore? {
      ReplacedAt(s, e.items, i);
      assert !Mapped(RestoreAll(s, e.items), i) by { hide Replaced, Adopted; }
    }
  }

  /** A run that is still current afterwards was settled, if at all, by a wait that found its
      task finished, by its own task, or by the holder of its control lock. */
  lemma {:induction false} CurrentSettles(s: State, e: Event, i: nat)
    requires Inv(s) && Enabled(s, e) && i < |s.runs| && i < |Next(s, e).runs| && IsCurrent(Next(s, e), i)
    requires !s.runs[i].done && Settles(s, e, i)
    ensures (e == WaitCall(s.runs[i].snapshot.agentId) && HasTask(s.runs[i]) && !Live(s.runs[i]))
            || (e.TaskRuns? && e.run == i && SettlesItself(s.runs[i], e.task, e.choice))
            || (e.Resume? && e.run == i)
  {
    hide RunInv, IsCurrent, Enabled, Next, SpawnValid, HolderSettles, SettlesItself, SlotHolders;
    match e
    case Abandon(reason) => AbandonDetaches(s, reason, i);
    case SpawnReport(_, raised) => GiveUpDetaches(s, i, raised);
    case Restore(_) | CloseMark | CloseFinish => BulkDetaches(s, e, i);
    case _ =>
  }

  // ----- a launch and the waits during its queued event -----

  lemma {:induction false} IdleAtReport(c: Ctx, r: Run)
    requires RunInv(c, r) && AtReport(r)
    ensures !Live(r) && forall k | 0 <= k < |r.tasks| :: r.tasks[k].pc == Finished
  {
  }

  lemma {:induction false} ReportIsLeft(c: Ctx, r: Run, raised: bool)
    requires AtReport(r)
    ensures HolderTurn(c, r, raised).run.control == Free
  {
    hide Current;
  }

  /** While the queued event is being handed over, only a wait can settle a run that stays
      current, and it does if there was an earlier task. */
  lemma {:induction false} ReportStep(s: State, e: Event, i: nat)
    requires Inv(s) && Enabled(s, e) && i < |s.runs| && AtReport(s.runs[i]) && IsCurrent(s, i)
    requires i < |Next(s, e).runs| && AtReport(Next(s, e).runs[i]) && IsCurrent(Next(s, e), i)
    requires !s.runs[i].done
    ensures Settles(s, e, i) <==> e == WaitCall(s.runs[i].snapshot.agentId) && HasTask(s.runs[i])
  {
    IdleAtReport(CtxOf(s, i), s.runs[i]) by { assert RunInv(CtxOf(s, i), s.runs[i]); }
    hide Inv, Enabled, Next, IsCurrent, Live, Fences, HolderSettles;
    if e.Resume? && e.run == i {
      ReportIsLeftAt(s, i, e.raised);
    }
    if e.WaitCall? && e.agentId == s.runs[i].snapshot.agentId && HasTask(s.runs[i]) {
      WaitFences(s, i);
    }
    if Settles(s, e, i) {
      CurrentSettles(s, e, i);
    }
  }

  lemma {:induction false} ReportIsLeftAt(s: State, i: nat, raised: bool)
    requires Enabled(s, Resume(i, raised)) && AtReport(s.runs[i])
    ensures !AtReport(Next(s, Resume(i, raised)).runs[i])
  {
    hide HolderTurn;
    ReportIsLeft(CtxOf(s, i), s.runs[i], raised);
  }

  predicate WaitedFor(events: seq<Event>, m: nat, n: nat, agentId: string)
    requires n <= |events|
  {
    exists j | m <= j < n :: events[j] == WaitCall(agentId)
  }

  /** The queued event of a launch is being handed over from state `m` to state `n`. */
  ghost predicate Reporting(states: seq<State>, m: nat, n: nat, i: nat)
    requires n < |states|
  {
    forall k | m <= k <= n :: i < |states[k].runs| && AtReport(states[k].runs[i])
  }

  lemma {:induction false} CurrentBefore(s: State, events: seq<Event>, states: seq<State>, n: nat, i: nat)
    requires Inv(s) && Execution(s, events, states) && n < |events| && i < |states[n].runs|
    ensures i < |states[n + 1].runs|
    ensures IsCurrent(states[n + 1], i) ==> IsCurrent(states[n], i)
    ensures states[n + 1].runs[i].snapshot.agentId == states[n].runs[i].snapshot.agentId
    ensures |states[n + 1].runs[i].tasks| != |states[n].runs[i].tasks| ==> states[n + 1].runs[i].control.Free?
  {
    hide Inv, Enabled, Next, IsCurrent, Evolves, Linked;
    NeverCurrentAgain(s, events, states, n, n + 1, i);
    RunAt(s, events, states, n, i);
    var out := StepAt(s, events, states, n);
    assert RunAdvances(states[n], states[n + 1], Touched(states[n], events[n]), out, i);
  }

  /** While a launch begun at event `n` hands over its queued event, the done event is set
      exactly if the run had an earlier task and somebody waited for it meanwhile. */
  lemma {:induction false} LaunchFindsDone(s: State, events: seq<Event>, states: seq<State>, n: nat, m: nat, i: nat)
    requires Inv(s) && Execution(s, events, states) && n < m < |states| && RestartedAt(states, n, i)
    requires Reporting(states, n + 1, m, i) && IsCurrent(states[m], i)
    ensures |states[m].runs[i].tasks| == |states[n].runs[i].tasks|
    ensures states[m].runs[i].done
            <==> HasTask(states[n].runs[i]) && WaitedFor(events, n + 1, m, states[m].runs[i].snapshot.agentId)
    decreases m
  {
    hide Inv, Enabled, Next, IsCurrent, Settles, Linked;
    CurrentBefore(s, events, states, m - 1, i);
    DoneAt(s, events, states, m - 1, i);
    if m > n + 1 {
      LaunchFindsDone(s, events, states, n, m - 1, i);
      ExecutionInv(s, events, states, m - 1);
      assert Linked(events, states, m - 1);
      if !states[m - 1].runs[i].done {
        ReportStepAt(events, states, m - 1, i);
      }
    }
  }

  lemma {:induction false} ReportStepAt(events: seq<Event>, states: seq<State>, n: nat, i: nat)
    requires |states| == |events| + 1 && n < |events| && Linked(events, states, n) && Inv(states[n])
    requires i < |states[n].runs| && i < |states[n + 1].runs|
    requires AtReport(states[n].runs[i]) && AtReport(states[n + 1].runs[i])
    requires IsCurrent(states[n], i) && IsCurrent(states[n + 1], i) && !states[n].runs[i].done
    ensures SettledAt(events, states, n, i)
            <==> events[n] == WaitCall(states[n].runs[i].snapshot.agentId) && HasTask(states[n].runs[i])
  {
    hide Inv, Enabled, Next, IsCurrent, Settles;
    ReportStep(states[n], events[n], i);
  }

  // ----- the task of that launch -----

  /** Tasks keep their place and their suspension point, except perhaps one. */
  ghost predicate SamePcs(r: Run, r': Run, except: Option<nat>) {
    |r.tasks| <= |r'.tasks|
    && forall k: nat | k < |r.tasks| && except != Some(k) :: r'.tasks[k].pc == r.tasks[k].pc
  }

  lemma {:induction false} SpawnPcs(c: Ctx, r: Run, raised: bool)
    ensures SamePcs(r, SpawnReported(c, r, raised), None)
  {
    hide SpawnValid;
  }

  lemma {:induction false} InputPcs(c: Ctx, r: Run, op: OpId, q: InputRequest)
    ensures SamePcs(r, InputAcquired(c, r, op, q).run, None)
  {
    hide RefusesInput, Answered, Repeats, Current, WriteTranscript;
  }

  lemma {:induction false} AcquirePcs(c: Ctx, r: Run, op: OpId, request: Request)
    ensures SamePcs(r, AcquireTurn(c, r, op, request).run, None)
  {
    if request.Input? {
      InputPcs(c, r, op, request.input);
    }
    hide InputAcquired, Current;
  }

  lemma {:induction false} HolderPcs(c: Ctx, r: Run, raised: bool)
    requires r.control.Held?
    ensures SamePcs(r, HolderTurn(c, r, raised).run, None)
  {
    hide Current, WriteTranscript, Strip;
  }

  lemma {:induction false} AdvancePcs(c: Ctx, r: Run, k: nat)
    requires CanTake(r, k, Advance)
    ensures SamePcs(r, AdvanceTask(c, r, k).run, Some(k))
  {
    if r.tasks[k].pc.NotStarted? || r.tasks[k].pc.WaitingStart? || r.tasks[k].pc.WaitingSlot? {
      QueuedPcs(c, r, k);
    } else {
      ReportMoves(c, r, k);
    }
    hide Current, EmitCompletion, AdvanceQueued, AdvanceReport;
  }

  lemma {:induction false} QueuedPcs(c: Ctx, r: Run, k: nat)
    requires k < |r.tasks| && (r.tasks[k].pc.NotStarted? || r.tasks[k].pc.WaitingStart? || r.tasks[k].pc.WaitingSlot?)
    ensures SamePcs(r, AdvanceQueued(c, r, k).run, Some(k))
  {
    hide Current, WriteTranscript, Strip;
  }

  lemma {:induction false} TaskPcs(c: Ctx, r: Run, k: nat, choice: TaskChoice)
    requires CanTake(r, k, choice)
    ensures SamePcs(r, TaskSegment(c, r, k, choice).run, Some(k))
  {
    if choice.Advance? {
      AdvancePcs(c, r, k);
    }
    hide AdvanceTask, Current, WriteTranscript, Strip, CapturePartial, DropChunks, Keep, FreshFor;
  }

  lemma {:induction false} SwitchPcs(c: Ctx, r: Run, reason: string)
    ensures SamePcs(r, Abandoned(c, r, reason), None) && SamePcs(r, Fence(r), None)
  {
  }

  lemma {:induction false} ReplacedPcs(r: Run)
    ensures SamePcs(r, Replaced(r), None)
  {
  }

  lemma {:induction false} ClosePcs(c: Ctx, r: Run)
    ensures SamePcs(r, CloseMarked(c.mapped, r), None) && SamePcs(r, CloseFinished(c, r), None)
  {
    hide Current, WriteTranscript, Strip;
  }

  lemma {:induction false} BulkPcs(s: State, e: Event, i: nat)
    requires Enabled(s, e) && i < |s.runs| && (e.Abandon? || e.Restore? || e.CloseMark? || e.CloseFinish?)
    ensures i < |Next(s, e).runs| && SamePcs(s.runs[i], Next(s, e).runs[i], None)
  {
    var c, r := CtxOf(s, i), s.runs[i];
    hide Abandoned, Replaced, CloseMarked, CloseFinished, Adopted, Index, Shift, Live;
    match e
    case Abandon(reason) => SwitchPcs(c, r, reason);
    case Restore(_) => ReplacedPcs(r);
    case CloseMark | CloseFinish => ClosePcs(c, r);
  }

  lemma {:induction false} CallerStepPcs(s: State, e: Event, i: nat)
    requires Enabled(s, e) && i < |s.runs| && (e.SpawnReport? || e.Acquire? || e.Resume? || e.WaitCall?)
    ensures i < |Next(s, e).runs| && SamePcs(s.runs[i], Next(s, e).runs[i], None)
  {
    var c, r := CtxOf(s, i), s.runs[i];
    SamePlaces(r);
    hide AcquireTurn, HolderTurn, SpawnReported, Fence, InputFresh, Live, SamePcs;
    if Touched(s, e) == i {
      match e
      case SpawnReport(_, raised) => SpawnPcs(c, r, raised);
      case Acquire(op) => AcquirePcs(c, r, op, s.waiting[op].request);
      case Resume(_, raised) => HolderPcs(c, r, raised);
      case WaitCall(_) => SwitchPcs(c, r, "");
    }
  }

  lemma {:induction false} SamePlaces(r: Run)
    ensures SamePcs(r, r, None)
  {
  }

  lemma {:induction false} TaskStepPcs(s: State, i: nat, k: nat, choice: TaskChoice, j: nat)
    requires Enabled(s, TaskRuns(i, k, choice)) && j < |s.runs|
    ensures j < |Next(s, TaskRuns(i, k, choice)).runs|
    ensures SamePcs(s.runs[j], Next(s, TaskRuns(i, k, choice)).runs[j], if i == j then Some(k) else None)
  {
    hide TaskSegment, CanTake, Enters, Leaves;
    TaskPcs(CtxOf(s, i), s.runs[i], k, choice);
  }

  lemma {:induction false} QuietPcs(s: State, e: Event, i: nat)
    requires Enabled(s, e) && i < |s.runs|
    requires e.SpawnCall? || e.SpawnReap? || e.Call? || e.UpdateSession? || e.CloseCall? || e.MarkInjected?
             || e.MarkDelivered? || e.Tick?
    ensures i < |Next(s, e).runs| && SamePcs(s.runs[i], Next(s, e).runs[i], None)
  {
    hide Current;
  }

  /** Only a task's own segments move it. */
  lemma {:induction false} PcStep(s: State, e: Event, i: nat)
    requires Enabled(s, e) && i < |s.runs|
    ensures i < |Next(s, e).runs|
    ensures SamePcs(s.runs[i], Next(s, e).runs[i], if e.TaskRuns? && e.run == i then Some(e.task) else None)
  {
    hide Enabled, Next, SamePcs;
    match e
    case SpawnReport(_, _) | Acquire(_) | Resume(_, _) | WaitCall(_) => CallerStepPcs(s, e, i);
    case TaskRuns(j, k, choice) => TaskStepPcs(s, j, k, choice, i);
    case Abandon(_) | Restore(_) | CloseMark | CloseFinish => BulkPcs(s, e, i);
    case _ => QuietPcs(s, e, i);
  }

  /** The launch's task, before it has looked at the run's flags. */
  predicate Waits(r: Run, k: nat) {
    k < |r.tasks| && Unstarted(r.tasks[k].pc)
  }

  lemma {:induction false} WaitingIsNewest(c: Ctx, r: Run, k: nat)
    requires RunInv(c, r) && Waits(r, k)
    ensures Live(r) && k == |r.tasks| - 1
    ensures r.cancelled ==> Last(r).cancelRequested
  {
  }

  /** A task's first two segments. */
  lemma {:induction false} FirstTurn(c: Ctx, r: Run, k: nat, choice: TaskChoice)
    requires RunInv(c, r) && CanTake(r, k, choice) && Waits(r, k)
    ensures choice.Advance? && var e := TaskSegment(c, r, k, choice);
            e.run.tasks[k].pc == (if r.tasks[k].pc.NotStarted?
                                  then (if r.tasks[k].cancelRequested then Finished else WaitingStart)
                                  else if r.done then Finished
                                  else if r.tasks[k].cancelRequested then FinalReport else WaitingSlot)
            && (r.tasks[k].pc.NotStarted? || r.done || !r.tasks[k].cancelRequested ==> e.out == [])
  {
    WaitingIsNewest(c, r, k);
    hide RunInv, Current, WriteTranscript, Strip;
  }

  lemma {:induction false} NoWayBack(c: Ctx, r: Run, k: nat, choice: TaskChoice)
    requires CanTake(r, k, choice) && !Waits(r, k)
    ensures !Waits(TaskSegment(c, r, k, choice).run, k)
  {
    if choice.Advance? {
      NoWayBackAdvancing(c, r, k);
    }
    hide AdvanceTask, Current, WriteTranscript, Strip, CapturePartial, DropChunks, Keep, FreshFor;
  }

  lemma {:induction false} NoWayBackAdvancing(c: Ctx, r: Run, k: nat)
    requires CanTake(r, k, Advance) && !Waits(r, k)
    ensures !Waits(AdvanceTask(c, r, k).run, k)
  {
    hide AdvanceQueued, AdvanceReport, EmitCompletion;
    match r.tasks[k].pc
    case WaitingSlot => SlotIsNoWayBack(c, r, k);
    case ReportingEnd | ReportingStop | ReportingFail | ReportingError | Releasing => ReportIsNoWayBack(c, r, k);
    case _ =>
  }

  lemma {:induction false} ReportIsNoWayBack(c: Ctx, r: Run, k: nat)
    requires k < |r.tasks|
    ensures !Waits(AdvanceReport(c, r, k).run, k)
  {
    ReportMoves(c, r, k);
    hide AdvanceReport;
  }

  lemma {:induction false} SlotIsNoWayBack(c: Ctx, r: Run, k: nat)
    requires k < |r.tasks| && r.tasks[k].pc == WaitingSlot
    ensures !Waits(AdvanceQueued(c, r, k).run, k)
  {
    hide Current, WriteTranscript, Strip;
  }

  lemma {:induction false} WaitedStep(s: State, e: Event, i: nat, k: nat)
    requires Enabled(s, e) && i < |s.runs| && i < |Next(s, e).runs| && k < |s.runs[i].tasks|
    requires Waits(Next(s, e).runs[i], k)
    ensures Waits(s.runs[i], k)
  {
    PcStep(s, e, i);
    if e.TaskRuns? && e.run == i && e.task == k && !Waits(s.runs[i], k) {
      NoWayBack(CtxOf(s, i), s.runs[i], k, e.choice);
      hide TaskSegment, CanTake;
    } else {
      hide Next, Enabled;
    }
  }

  /** A waiting task does not settle its run, and no wait or operation does while the run stays
      current. */
  lemma {:induction false} WaitingIsNotSettled(s: State, e: Event, i: nat, k: nat)
    requires Inv(s) && Enabled(s, e) && i < |s.runs| && Waits(s.runs[i], k)
    requires i < |Next(s, e).runs| && IsCurrent(Next(s, e), i)
    ensures Next(s, e).runs[i].done == s.runs[i].done
  {
    WaitingAlone(s, i, k);
    DoneStep(s, e, i);
    hide Next, Enabled, Inv, IsCurrent, Live, SettlesItself, HolderSettles, Settles;
    if !s.runs[i].done && Settles(s, e, i) {
      CurrentSettles(s, e, i);
      OwnSettles(s, e, i);
    }
  }

  lemma {:induction false} WaitingAlone(s: State, i: nat, k: nat)
    requires Inv(s) && i < |s.runs| && Waits(s.runs[i], k)
    ensures Live(s.runs[i]) && forall raised :: !HolderSettles(CtxOf(s, i), s.runs[i], raised)
    ensures forall l, choice :: !SettlesItself(s.runs[i], l, choice)
  {
    assert RunInv(CtxOf(s, i), s.runs[i]);
    WaitingIsNewest(CtxOf(s, i), s.runs[i], k);
    HolderWaits(CtxOf(s, i), s.runs[i]);
    hide Inv, RunInv, Live, HolderSettles, CtxOf;
  }

  lemma {:induction false} OwnSettles(s: State, e: Event, i: nat)
    requires i < |s.runs| && Settles(s, e, i) && (e.TaskRuns? || e.Resume?)
    ensures e.TaskRuns? ==> SettlesItself(s.runs[i], e.task, e.choice)
    ensures e.Resume? ==> HolderSettles(CtxOf(s, i), s.runs[i], e.raised)
  {
  }

  lemma {:induction false} HolderWaits(c: Ctx, r: Run)
    requires RunInv(c, r) && Live(r)
    ensures forall raised :: !HolderSettles(c, r, raised)
    ensures forall k, choice | SettlesItself(r, k, choice) :: k == |r.tasks| - 1
  {
    hide Current;
  }

  /** The segment that launches the task. */
  lemma {:induction false} LaunchAt(events: seq<Event>, states: seq<State>, m: nat, i: nat)
    requires |states| == |events| + 1 && m < |events| && Linked(events, states, m) && events[m] == Resume(i, false)
    requires i < |states[m].runs| && AtReport(states[m].runs[i]) && IsCurrent(states[m], i)
    ensures i < |states[m + 1].runs|
    ensures var r := states[m].runs[i];
            states[m + 1].runs[i] == r.(tasks := r.tasks + [NewTask()], started := true, control := Free)
            && r.control.op in states[m + 1].replies && states[m + 1].replies[r.control.op] == Returned(true)
  {
    hide Current;
  }

  /** A task that waits at `p` has waited since its launch, with the done event as it was. */
  lemma {:induction false} WaitingSince(s: State, events: seq<Event>, states: seq<State>, m: nat, p: nat, i: nat,
                                        k: nat)
    requires Inv(s) && Execution(s, events, states) && m <= p < |states|
    requires i < |states[m].runs| && k < |states[m].runs[i].tasks|
    requires i < |states[p].runs| && Waits(states[p].runs[i], k) && IsCurrent(states[p], i)
    ensures states[m].runs[i].done == states[p].runs[i].done
  {
    hide Inv, Enabled, Next, IsCurrent, Linked, Waits, Evolves;
    if m < p {
      RunEvolves(s, events, states, m, p - 1, i);
      TasksStay(states[m].runs[i], states[p - 1].runs[i]);
      CurrentBefore(s, events, states, p - 1, i);
      ExecutionInv(s, events, states, p - 1);
      assert Linked(events, states, p - 1);
      WaitingAt(events, states, p - 1, i, k);
      WaitingSince(s, events, states, m, p - 1, i, k);
    }
  }

  lemma {:induction false} TasksStay(r: Run, r': Run)
    requires Evolves(r, r')
    ensures |r.tasks| <= |r'.tasks|
    ensures forall k | 0 <= k < |r.tasks| && r.tasks[k].pc == Finished :: r'.tasks[k].pc == Finished
  {
  }

  lemma {:induction false} WaitingAt(events: seq<Event>, states: seq<State>, n: nat, i: nat, k: nat)
    requires |states| == |events| + 1 && n < |events| && Linked(events, states, n) && Inv(states[n])
    requires i < |states[n].runs| && k < |states[n].runs[i].tasks| && i < |states[n + 1].runs|
    requires Waits(states[n + 1].runs[i], k) && IsCurrent(states[n + 1], i)
    ensures Waits(states[n].runs[i], k) && states[n + 1].runs[i].done == states[n].runs[i].done
  {
    hide Inv, Enabled, Next, IsCurrent, Waits;
    WaitedStep(states[n], events[n], i, k);
    WaitingIsNotSettled(states[n], events[n], i, k);
  }

  /** What becomes of a launch that send_input began at event `n` and answered with true at
      event `m`: when its task, not cancelled, takes its turn at event `p`, it goes on to the
      semaphore, unless the run had an earlier task and somebody waited for the run while the
      queued event was handed over. In that case the task ends there. */
  lemma {:induction false} LaunchIsLostIff(s: State, events: seq<Event>, states: seq<State>, n: nat, m: nat, p: nat,
      i: nat, k: nat)
    requires Inv(s) && Execution(s, events, states) && n < m < p < |events| && RestartedAt(states, n, i)
    requires Reporting(states, n + 1, m, i) && events[m] == Resume(i, false) && k == |states[m].runs[i].tasks|
    requires i < |states[p].runs| && k < |states[p].runs[i].tasks| && states[p].runs[i].tasks[k].pc == WaitingStart
    requires events[p] == TaskRuns(i, k, Advance) && !states[p].runs[i].tasks[k].cancelRequested
             && IsCurrent(states[p], i)
    ensures var op := states[m].runs[i].control.op;
            op in states[m + 1].replies && states[m + 1].replies[op] == Returned(true)
    ensures i < |states[p + 1].runs| && k < |states[p + 1].runs[i].tasks| && states[p + 1].log == states[p].log
    ensures states[p + 1].runs[i].tasks[k].pc
            == (if HasTask(states[n].runs[i]) && WaitedFor(events, n + 1, m, states[m].runs[i].snapshot.agentId)
                then Finished else WaitingSlot)
  {
    hide Inv, Enabled, Next, IsCurrent, Linked;
    NeverCurrentAgain(s, events, states, m, p, i);
    LaunchFindsDone(s, events, states, n, m, i);
    assert Linked(events, states, m) && Linked(events, states, p);
    LaunchAt(events, states, m, i);
    WaitingSince(s, events, states, m + 1, p, i, k);
    ExecutionInv(s, events, states, p);
    TurnAt(events, states, p, i, k);
  }

  lemma {:induction false} TurnAt(events: seq<Event>, states: seq<State>, p: nat, i: nat, k: nat)
    requires |states| == |events| + 1 && p < |events| && Linked(events, states, p) && Inv(states[p])
    requires i < |states[p].runs| && Waits(states[p].runs[i], k) && events[p].TaskRuns?
    requires events[p].run == i && events[p].task == k
    ensures i < |states[p + 1].runs| && k < |states[p + 1].runs[i].tasks|
    ensures var r, r' := states[p].runs[i], states[p + 1].runs[i];
            r'.tasks[k].pc == (if r.tasks[k].pc.NotStarted?
                               then (if r.tasks[k].cancelRequested then Finished else WaitingStart)
                               else if r.done then Finished
                               else if r.tasks[k].cancelRequested then FinalReport else WaitingSlot)
            && (r.done || !r.tasks[k].cancelRequested ==> states[p + 1].log == states[p].log)
  {
    assert RunInv(CtxOf(states[p], i), states[p].runs[i]);
    FirstTurn(CtxOf(states[p], i), states[p].runs[i], k, events[p].choice);
    PcStep(states[p], events[p], i);
    hide TaskSegment, Inv, RunInv, CanTake;
  }

  /** The task of a lost launch never does anything: it waits or has finished, and none of its
      segments hands anything over. */
  lemma {:induction false} LostLaunchIsSilent(s: State, events: seq<Event>, states: seq<State>, m: nat, q: nat, i: nat,
      k: nat)
    requires Inv(s) && Execution(s, events, states) && m < q < |states| && events[m] == Resume(i, false)
    requires i < |states[m].runs| && AtReport(states[m].runs[i]) && IsCurrent(states[m], i) && states[m].runs[i].done
    requires k == |states[m].runs[i].tasks|
    ensures i < |states[q].runs| && k < |states[q].runs[i].tasks|
    ensures states[q].runs[i].tasks[k].pc == Finished || (Waits(states[q].runs[i], k) && states[q].runs[i].done)
    ensures q < |events| && events[q].TaskRuns? && events[q].run == i && events[q].task == k ==>
              states[q + 1].log == states[q].log
    decreases q
  {
    hide Inv, Enabled, Next, IsCurrent, Linked, Evolves;
    if q == m + 1 {
      assert Linked(events, states, m);
      LaunchAt(events, states, m, i);
    } else {
      LostLaunchIsSilent(s, events, states, m, q - 1, i, k);
      RunEvolves(s, events, states, q - 1, q, i);
      TasksStay(states[q - 1].runs[i], states[q].runs[i]);
      ExecutionInv(s, events, states, q - 1);
      assert Linked(events, states, q - 1);
      if Waits(states[q - 1].runs[i], k) {
        SilentAt(events, states, q - 1, i, k);
      }
    }
    if q < |events| {
      ExecutionInv(s, events, states, q);
      assert Linked(events, states, q);
      if events[q].TaskRuns? && events[q].run == i && events[q].task == k {
        FinishedTakesNoTurn(events, states, q, i, k);
        TurnAt(events, states, q, i, k);
      }
    }
  }

  lemma {:induction false} FinishedTakesNoTurn(events: seq<Event>, states: seq<State>, p: nat, i: nat, k: nat)
    requires |states| == |events| + 1 && p < |events| && Linked(events, states, p) && events[p].TaskRuns?
    requires i < |states[p].runs| && k < |states[p].runs[i].tasks| && events[p].run == i && events[p].task == k
    ensures states[p].runs[i].tasks[k].pc != Finished
  {
    hide Next;
  }

  lemma {:induction false} SilentAt(events: seq<Event>, states: seq<State>, p: nat, i: nat, k: nat)
    requires |states| == |events| + 1 && p < |events| && Linked(events, states, p) && Inv(states[p])
    requires i < |states[p].runs| && i < |states[p + 1].runs| && Waits(states[p].runs[i], k) && states[p].runs[i].done
    ensures k < |states[p + 1].runs[i].tasks|
    ensures states[p + 1].runs[i].tasks[k].pc == Finished
            || (Waits(states[p + 1].runs[i], k) && states[p + 1].runs[i].done)
  {
    WaitingAlone(states[p], i, k);
    hide Inv, Enabled, Next, Live, HolderSettles, SettlesItself, IsCurrent, Settles;
    PcStep(states[p], events[p], i);
    DoneStep(states[p], events[p], i);
    if events[p].TaskRuns? && events[p].run == i && events[p].task == k {
      TurnAt(events, states, p, i, k);
    }
  }

  // ----- a cancel and the waits before it resumes -----

  predicate AtCancelAwait(r: Run) {
    r.control.Held? && r.control.at.CancelAwait?
  }

  /** The run's finished task is fenced by a wait, or its task sets the done event itself. */
  predicate FencedOrOwn(s: State, e: Event, i: nat)
    requires i < |s.runs|
  {
    (e == WaitCall(s.runs[i].snapshot.agentId) && HasTask(s.runs[i]) && !Live(s.runs[i]))
    || (e.TaskRuns? && e.run == i && SettlesItself(s.runs[i], e.task, e.choice))
  }

  lemma {:induction false} AwaitIsLeft(c: Ctx, r: Run, raised: bool)
    requires AtCancelAwait(r)
    ensures !AtCancelAwait(HolderTurn(c, r, raised).run)
  {
    hide Current, WriteTranscript, Strip;
  }

  lemma {:induction false} AwaitStep(s: State, e: Event, i: nat)
    requires Inv(s) && Enabled(s, e) && i < |s.runs| && AtCancelAwait(s.runs[i]) && IsCurrent(s, i)
    requires i < |Next(s, e).runs| && AtCancelAwait(Next(s, e).runs[i]) && IsCurrent(Next(s, e), i)
    requires !s.runs[i].done
    ensures Settles(s, e, i) <==> FencedOrOwn(s, e, i)
  {
    hide Inv, Enabled, Next, IsCurrent, Live, Fences, HolderSettles, SettlesItself;
    if e.Resume? && e.run == i {
      AwaitIsLeftAt(s, i, e.raised);
    }
    if e.WaitCall? && FencedOrOwn(s, e, i) {
      WaitFences(s, i);
    }
    if Settles(s, e, i) {
      CurrentSettles(s, e, i);
    }
  }

  lemma {:induction false} WaitFences(s: State, i: nat)
    requires i < |s.runs| && IsCurrent(s, i) && HasTask(s.runs[i]) && !Live(s.runs[i])
    ensures Fences(s, s.runs[i].snapshot.agentId, i)
  {
  }

  lemma {:induction false} AwaitIsLeftAt(s: State, i: nat, raised: bool)
    requires Enabled(s, Resume(i, raised)) && AtCancelAwait(s.runs[i])
    ensures !AtCancelAwait(Next(s, Resume(i, raised)).runs[i])
  {
    hide HolderTurn;
    AwaitIsLeft(CtxOf(s, i), s.runs[i], raised);
  }

  lemma {:induction false} AwaitStepAt(events: seq<Event>, states: seq<State>, n: nat, i: nat)
    requires |states| == |events| + 1 && n < |events| && Linked(events, states, n) && Inv(states[n])
    requires i < |states[n].runs| && i < |states[n + 1].runs|
    requires AtCancelAwait(states[n].runs[i]) && AtCancelAwait(states[n + 1].runs[i])
    requires IsCurrent(states[n], i) && IsCurrent(states[n + 1], i) && !states[n].runs[i].done
    ensures SettledAt(events, states, n, i) <==> FencedOrOwn(states[n], events[n], i)
  {
    hide Inv, Enabled, Next, IsCurrent, Settles, FencedOrOwn;
    AwaitStep(states[n], events[n], i);
  }

  ghost predicate ClosedAt(events: seq<Event>, states: seq<State>, n: nat, i: nat)
    requires |states| == |events| + 1 && n < |events|
  {
    i < |states[n].runs| && FencedOrOwn(states[n], events[n], i)
  }

  /** A cancel awaits the task from state `m` to state `n`. */
  ghost predicate Cancelling(states: seq<State>, m: nat, n: nat, i: nat)
    requires n < |states|
  {
    forall k | m <= k <= n :: i < |states[k].runs| && AtCancelAwait(states[k].runs[i])
  }

  lemma {:induction false} CancelFindsDone(s: State, events: seq<Event>, states: seq<State>, n: nat, m: nat, i: nat)
    requires Inv(s) && Execution(s, events, states) && n <= m < |states|
    requires Cancelling(states, n, m, i) && IsCurrent(states[m], i)
    ensures states[m].runs[i].done
            <==> states[n].runs[i].done || exists j | n <= j < m :: ClosedAt(events, states, j, i)
    decreases m
  {
    hide Inv, Enabled, Next, IsCurrent, Settles, Linked, FencedOrOwn;
    if n < m {
      CurrentBefore(s, events, states, m - 1, i);
      DoneAt(s, events, states, m - 1, i);
      CancelFindsDone(s, events, states, n, m - 1, i);
      ExecutionInv(s, events, states, m - 1);
      assert Linked(events, states, m - 1);
      if !states[m - 1].runs[i].done {
        AwaitStepAt(events, states, m - 1, i);
      }
      if states[m - 1].runs[i].done {
        assert AtCancelAwait(states[m].runs[i]);
      } else {
        assert states[m].runs[i].done == ClosedAt(events, states, m - 1, i);
      }
    }
  }

  lemma {:induction false} CancelResumes(events: seq<Event>, states: seq<State>, m: nat, i: nat)
    requires |states| == |events| + 1 && m < |events| && Linked(events, states, m) && events[m].Resume?
    requires events[m].run == i < |states[m].runs| && AtCancelAwait(states[m].runs[i]) && IsCurrent(states[m], i)
    ensures i < |states[m + 1].runs| && states[m].runs[i].control.op in states[m + 1].replies
    ensures var r, r' := states[m].runs[i], states[m + 1].runs[i];
            if r.done then states[m + 1].replies[r.control.op] == Returned(true)
                           && r'.snapshot == r.snapshot && states[m + 1].log == states[m].log
            else states[m + 1].replies[r.control.op] == Suspended && r'.snapshot.status == Stopped
                 && Entry(i, StateEvent(Stopped)) in states[m + 1].log
  {
    var c, r := CtxOf(states[m], i), states[m].runs[i];
    var t := CancelAwaited(c, r, r.control.op);
    if !r.done {
      assert Current(c, BeginFinalize(c, r).run);
      assert t.out[|t.out| - 1] == StateEvent(Stopped);
      assert Tag(i, t.out)[|t.out| - 1] == Entry(i, StateEvent(Stopped));
      assert states[m + 1].log[|states[m].log| + |t.out| - 1] == Entry(i, StateEvent(Stopped));
    }
    hide Current, Strip, WriteTranscript;
  }

  /** A cancel that awaited the task of a run still current reports it stopped and finalizes it,
      unless the done event is set by then: it was when the cancel began, the task set it, or a
      wait fenced the finished task before the cancel resumed. In that case the cancel answers
      true at once, and status, result and completion stay as they were. */
  lemma {:induction false} CancelIsForestalledIff(s: State, events: seq<Event>, states: seq<State>, n: nat, m: nat,
      i: nat)
    requires Inv(s) && Execution(s, events, states) && n <= m < |events| && events[m].Resume? && events[m].run == i
    requires Cancelling(states, n, m, i) && IsCurrent(states[m], i)
    ensures i < |states[m + 1].runs| && states[m].runs[i].control.op in states[m + 1].replies
    ensures var r, r' := states[m].runs[i], states[m + 1].runs[i];
            if states[n].runs[i].done || exists j | n <= j < m :: ClosedAt(events, states, j, i)
            then states[m + 1].replies[r.control.op] == Returned(true)
                 && r'.snapshot == r.snapshot && states[m + 1].log == states[m].log
            else states[m + 1].replies[r.control.op] == Suspended && r'.snapshot.status == Stopped
                 && Entry(i, StateEvent(Stopped)) in states[m + 1].log
  {
    hide Inv, Enabled, Next, IsCurrent, Linked, FencedOrOwn;
    CancelFindsDone(s, events, states, n, m, i);
    assert Linked(events, states, m);
    CancelResumes(events, states, m, i);
  }
}
