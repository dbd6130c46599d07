/** What a task, a spawn, a switch of sessions, a restore, a close and a callback report do to the runs,
    in every state of every execution: told from the event and from the runs as they were. */
module AgentSteps {
  import opened Common
  import opened StreamText
  import opened AgentModel
  import opened AgentInvariant
  import opened AgentRestore
  import opened AgentRuntime
  import opened AgentExecution
  import opened AgentAnswers

  // ----- a task -----

  /** Task k goes on from another point; a cancellation it has answered is used up. */
  function MovedTo(r: Run, k: nat, pc: TaskPc, answered: bool): Run
    requires k < |r.tasks|
  {
    var t := r.tasks[k];
    r.(tasks := r.tasks[k := t.(pc := pc, cancelRequested := t.cancelRequested && !answered)])
  }

  /** One step of a task between two events of its query loop: on its way to the body, in it, or from its
      last report to its end. */
  ghost predicate WentAhead(c: Ctx, r: Run, k: nat, e: Effect)
    requires k < |r.tasks|
  {
    var t := r.tasks[k];
    match t.pc
    case NotStarted => e == Effect(MovedTo(r, k, if t.cancelRequested then Finished else WaitingStart, false), [])
    case WaitingStart =>
      if t.cancelRequested then GivesUp(c, r, k, e)
      else e == Effect(MovedTo(r, k, if r.cancelled || r.done then Finished else WaitingSlot, false), [])
    case WaitingSlot => if t.cancelRequested then GivesUp(c, r, k, e) else Begins(c, r, k, e)
    case ReportingEnd | ReportingStop | ReportingError => e == Effect(MovedTo(r, k, Releasing, true), [])
    case ReportingFail =>
      if t.cancelRequested || r.detached
          || r.snapshot.sessionId != c.session then e == Effect(MovedTo(r, k, Releasing, true), [])
      else e == Effect(MovedTo(r, k, ReportingError, true), if Current(c, r) then [ErrorEvent(r.snapshot.error)]
                       else [])
    case Releasing => e == Effect(MovedTo(r, k, Completing, true).(done := true), Completes(c, r))
    case FinalReport => e == Effect(MovedTo(r, k, FinalCompleting, true).(done := true), Completes(c, r))
    case Completing | FinalCompleting => e == Effect(MovedTo(r, k, Finished, false), [])
    case Body | Finished => true
  }

  /** The completion handed over when a run is settled, if one is due. */
  function Completes(c: Ctx, r: Run): seq<Output> {
    if CompletionDue(c, r) then [Completion(r.snapshot.callbackEpoch)] else []
  }

  /** A task cancelled before its body stops its run, unless somebody has settled it. */
  ghost predicate GivesUp(c: Ctx, r: Run, k: nat, e: Effect)
    requires k < |r.tasks|
  {
    if r.done then e == Effect(MovedTo(r, k, Finished, true), [])
    else e.run == MovedTo(r, k, FinalReport, true).(snapshot := e.run.snapshot) && Stops(c, r, e)
  }

  /** The run is stopped; what is handed over depends on whether it still belongs to the session. */
  ghost predicate Stops(c: Ctx, r: Run, e: Effect) {
    var s, s' := r.snapshot, e.run.snapshot;
    && Trims(r.finalText, s'.finalResult)
    && s' == s.(status := Stopped, error := if r.detached then s.error else "stopped", finalResult := s'.finalResult,
                updatedAt := c.now, finishedAt := Some(c.now))
    && e.out == (if r.detached || s.sessionId != c.session || r.generation != c.generation then []
                 else [Transcript(r.messages)])
                + (if Current(c, r) then [StateEvent(Stopped)] else [])
  }

  /** The task enters its body with the history as it is. */
  ghost predicate Begins(c: Ctx, r: Run, k: nat, e: Effect)
    requires k < |r.tasks|
  {
    && e.run == r.(tasks := e.run.tasks, snapshot := r.snapshot.(status := Running, updatedAt := c.now))
    && e.run.tasks == r.tasks[k := r.tasks[k].(pc := Body, baseline := set m | m in r.messages :: m.uuid)]
    && e.out == if Current(c, r) then [StateEvent(Running)] else []
  }

  lemma {:induction false} FinalizeStops(c: Ctx, r: Run)
    ensures Stops(c, r, BeginFinalize(c, r))
    ensures BeginFinalize(c, r).run == r.(snapshot := BeginFinalize(c, r).run.snapshot)
  {
    StripTrims(r.finalText);
    hide Strip, Trims;
    if r.detached {} else if Current(c, r) {} else {}
  }

  lemma {:induction false} GivesUpIs(c: Ctx, r: Run, k: nat)
    requires k < |r.tasks|
    ensures GivesUp(c, r, k, FinalizeTask(c, r, k))
  {
    FinalizeStops(c, MoveTo(r, k, FinalReport));
    hide Strip, Trims;
    if r.done {} else {}
  }

  lemma {:induction false} QueuedIs(c: Ctx, r: Run, k: nat)
    requires k < |r.tasks| && (r.tasks[k].pc.NotStarted? || r.tasks[k].pc.WaitingStart? || r.tasks[k].pc.WaitingSlot?)
    ensures WentAhead(c, r, k, AdvanceQueued(c, r, k))
  {
    GivesUpIs(c, r, k);
    hide FinalizeTask, GivesUp, Current;
    match r.tasks[k].pc
    case NotStarted => if r.tasks[k].cancelRequested {} else {}
    case WaitingStart => if r.tasks[k].cancelRequested {} else if r.cancelled || r.done {} else {}
    case WaitingSlot => if r.tasks[k].cancelRequested {} else {}
  }

  lemma {:induction false} SettlesWith(c: Ctx, r: Run, moved: Run)
    requires moved == r.(tasks := moved.tasks)
    ensures Settle(c, moved) == Effect(moved.(done := true), Completes(c, r))
  {
    if CompletionDue(c, r) {} else {}
  }

  lemma {:induction false} ReportIs(c: Ctx, r: Run, k: nat)
    requires k < |r.tasks| && (Reporting(r.tasks[k].pc) || r.tasks[k].pc.Releasing?)
    ensures WentAhead(c, r, k, AdvanceReport(c, r, k))
  {
    SettlesWith(c, r, MoveTo(r, k, Completing));
    hide Current, Settle;
    match r.tasks[k].pc
    case Releasing =>
    case ReportingFail => if r.tasks[k].cancelRequested {} else if r.detached {} else {}
    case _ =>
  }

  lemma {:induction false} AdvanceIs(c: Ctx, r: Run, k: nat)
    requires CanTake(r, k, Advance)
    ensures WentAhead(c, r, k, AdvanceTask(c, r, k))
  {
    SettlesWith(c, r, MoveTo(r, k, FinalCompleting));
    hide AdvanceQueued, AdvanceReport, Begins, GivesUp, Current, Settle;
    match r.tasks[k].pc
    case NotStarted => QueuedIs(c, r, k); hide WentAhead;
    case WaitingStart => QueuedIs(c, r, k); hide WentAhead;
    case WaitingSlot => QueuedIs(c, r, k); hide WentAhead;
    case ReportingEnd => ReportIs(c, r, k); hide WentAhead;
    case ReportingStop => ReportIs(c, r, k); hide WentAhead;
    case ReportingFail => ReportIs(c, r, k); hide WentAhead;
    case ReportingError => ReportIs(c, r, k); hide WentAhead;
    case Releasing => ReportIs(c, r, k); hide WentAhead;
    case FinalReport =>
    case Completing =>
    case FinalCompleting =>
  }

  // ----- inside the body -----

  /** What a task does with what its query loop yields: only a current run takes anything in or hands
      anything over. */
  ghost predicate TookIn(c: Ctx, r: Run, k: nat, choice: TaskChoice, e: Effect)
    requires k < |r.tasks|
  {
    var t := r.tasks[k];
    match choice
    case Text(text) =>
      e == if Current(c, r) then Effect(r.(chunks := r.chunks + [text], finalText := r.finalText + text), [StreamEvent])
           else Effect(r, [])
    case Retry(discarded) =>
      if Current(c, r) then
        e.out == [StreamEvent] && e.run == r.(chunks := e.run.chunks, finalText := e.run.finalText)
        && e.run.finalText == r.finalText[..if discarded <= |r.finalText| then |r.finalText| - discarded else 0]
      else e == Effect(r, [])
    case Report(error) =>
      e == if Current(c, r) then Effect(r.(snapshot := r.snapshot.(error := error)), [StreamEvent]) else Effect(r, [])
    case OtherEvent => e == Effect(r, if Current(c, r) then [StreamEvent] else [])
    case Prepare => e == Effect(r.(tasks := r.tasks[k := t.(projection := Some(r.messages))]), [])
    case Extend(more) =>
      t.projection.Some?
      && e == Effect(r.(tasks := r.tasks[k := t.(projection := Some(t.projection.value + more))]), [])
    case Swallow => e == Effect(MovedTo(r, k, t.pc, true), [])
    case Advance | End | Fail(_, _) | Stop(_) => true
  }

  lemma {:induction false} YieldIs(c: Ctx, r: Run, k: nat, choice: TaskChoice)
    requires CanTake(r, k, choice)
    ensures TookIn(c, r, k, choice, TaskSegment(c, r, k, choice))
  {
    hide Current, DropChunks, FreshFor, AdvanceTask, EndBody, FailBody, StopBody;
    match choice
    case Text(_) => if Current(c, r) {} else {}
    case Retry(discarded) => if Current(c, r) {} else {}
    case Report(_) => if Current(c, r) {} else {}
    case OtherEvent =>
    case Prepare =>
    case Extend(_) =>
    case Swallow =>
    case Advance =>
    case End =>
    case Fail(_, _) =>
    case Stop(_) =>
  }

  /** One step of a task changes its own run, hands over what belongs to it, and takes a slot exactly when
      it enters its body and gives it back exactly when it leaves. */
  ghost predicate Stepped(s: State, s': State, i: nat, e: Effect, slots: int)
    requires i < |s.runs|
  {
    && s'.runs == s.runs[i := e.run] && s'.log == s.log + Tag(i, e.out)
    && s'.slots == s.slots + slots && s'.owned == s.owned && s'.waiting == s.waiting && s'.replies == s.replies
  }

  predicate TakesSlot(t: Task, choice: TaskChoice) {
    choice.Advance? && t.pc.WaitingSlot? && !t.cancelRequested
  }

  predicate GivesSlot(t: Task, choice: TaskChoice) {
    choice.Advance? && t.pc.Completing?
  }

  /** Every step of a task, whatever happened to its run meanwhile. */
  lemma {:induction false} TaskSteps(s: State, events: seq<Event>, states: seq<State>, n: nat)
    requires Execution(s, events, states) && n < |events| && events[n].TaskRuns?
    ensures var before, i, k, choice := states[n], events[n].run, events[n].task, events[n].choice;
            && i < |before.runs| && k < |before.runs[i].tasks|
            && SteppedSo(before, states[n + 1], i, k, choice)
  {
    assert Linked(events, states, n);
    hide Next, SteppedSo;
    StepsSo(states[n], events[n].run, events[n].task, events[n].choice);
  }

  /** The step a task has taken: what it did to its run, what it handed over, and its slot. */
  ghost predicate SteppedSo(s: State, s': State, i: nat, k: nat, choice: TaskChoice)
    requires i < |s.runs| && k < |s.runs[i].tasks|
  {
    var c, r, t := CtxOf(s, i), s.runs[i], s.runs[i].tasks[k];
    exists e: Effect ::
      && Stepped(s, s', i, e, if TakesSlot(t, choice) then -1 else if GivesSlot(t, choice) then 1 else 0)
      && TookIn(c, r, k, choice, e) && (choice.Advance? ==> WentAhead(c, r, k, e))
  }

  lemma {:induction false} StepsSo(s: State, i: nat, k: nat, choice: TaskChoice)
    requires Enabled(s, TaskRuns(i, k, choice))
    ensures i < |s.runs| && k < |s.runs[i].tasks|
    ensures SteppedSo(s, Next(s, TaskRuns(i, k, choice)), i, k, choice)
  {
    TaskStep(s, i, k, choice);
    hide Enabled, Next, CanTake, TookIn, WentAhead, TaskSegment, Stepped;
    YieldIs(CtxOf(s, i), s.runs[i], k, choice);
    if choice.Advance? {
      StepAhead(CtxOf(s, i), s.runs[i], k);
    }
  }

  lemma {:induction false} StepAhead(c: Ctx, r: Run, k: nat)
    requires CanTake(r, k, Advance)
    ensures WentAhead(c, r, k, TaskSegment(c, r, k, Advance))
  {
    AdvanceIs(c, r, k);
    hide WentAhead, AdvanceTask;
  }

  lemma {:induction false} TaskStep(s: State, i: nat, k: nat, choice: TaskChoice)
    requires Enabled(s, TaskRuns(i, k, choice))
    ensures i < |s.runs| && CanTake(s.runs[i], k, choice) && k < |s.runs[i].tasks|
    ensures var t := s.runs[i].tasks[k];
            Stepped(s, Next(s, TaskRuns(i, k, choice)), i, TaskSegment(CtxOf(s, i), s.runs[i], k, choice),
                    if TakesSlot(t, choice) then -1 else if GivesSlot(t, choice) then 1 else 0)
  {
    hide TaskSegment, FreshFor;
  }

  // ----- spawning -----

  /** The new run of an admitted spawn. */
  function Reserved(s: State, agentId: string, prompt: Message, callback: bool): Run {
    Run(Snapshot(agentId, s.session, Queued, s.clock, s.clock, None, "", "", callback,
                 if callback then Pending else CallbackDisabled, None, 0),
        s.generation, [prompt], [], "", false, false, false, false, [Task(NotStarted, false, false, false, {}, None)],
            Free,
        SpawnReporting)
  }

  /** A spawn is admitted if the manager is open in a session, neither the depth nor the number of active
      agents is at its limit, and the profile is known; only then anything happens. */
  lemma {:induction false} SpawnSteps(s: State, events: seq<Event>, states: seq<State>, n: nat)
    requires Execution(s, events, states) && n < |events| && events[n].SpawnCall?
    ensures var t, e := states[n], events[n];
            states[n + 1]
            == if t.phase == Open && t.session != "" && e.depth <= t.limits.maxDepth
                  && |set a | a in t.owned && t.owned[a] < |t.runs| && !t.runs[t.owned[a]].done| < t.limits.maxActive
                  && e.profileKnown
               then t.(runs := t.runs + [Reserved(t, e.agentId, e.prompt, e.callback)],
                       owned := t.owned[e.agentId := |t.runs|],
                       log := t.log + [Entry(|t.runs|, StateEvent(Queued))])
               else t
  {
    assert Linked(events, states, n);
    var t, e := states[n], events[n];
    assert ActiveIds(t) == set a | a in t.owned && t.owned[a] < |t.runs| && !t.runs[t.owned[a]].done;
    hide ActiveIds;
    if SpawnRefusal(t, e.depth, e.profileKnown).None? {
      NewRunIs(t, e.agentId, e.prompt, e.callback);
    }
    hide Spawn;
  }

  lemma {:induction false} NewRunIs(s: State, agentId: string, prompt: Message, callback: bool)
    requires s.phase == Open && s.session != ""
    ensures Spawn(s, agentId, prompt, callback)
            == s.(runs := s.runs + [Reserved(s, agentId, prompt, callback)], owned := s.owned[agentId := |s.runs|],
                  log := s.log + [Entry(|s.runs|, StateEvent(Queued))])
  {
    if callback {} else {}
  }

  /** The run still belongs to its own spawn: in the map, undetached, of the session and generation. */
  predicate StillOwn(s: State, i: nat)
    requires i < |s.runs|
  {
    var r := s.runs[i];
    && r.snapshot.agentId in s.owned && s.owned[r.snapshot.agentId] == i
    && !r.detached && s.phase == Open && r.snapshot.sessionId == s.session && r.generation == s.generation
  }

  /** The unfinished task is asked to stop. */
  function Asked(tasks: seq<Task>): seq<Task> {
    if tasks != [] && !tasks[|tasks| - 1].pc.Finished?
    then tasks[|tasks| - 1 := tasks[|tasks| - 1].(cancelRequested := true)] else tasks
  }

  /** A spawn whose queued event was handed over lets its task go, if the run is still its own; if not, or
      if handing over raised, it leaves it settled and detached, out of the map, with its task asked to stop. */
  lemma {:induction false} SpawnGoesOn(s: State, events: seq<Event>, states: seq<State>, n: nat)
    requires Execution(s, events, states) && n < |events| && events[n].SpawnReport?
    ensures var t, t', i := states[n], states[n + 1], events[n].run;
            && i < |t.runs| && t.runs[i].tasks != []
            && var r := t.runs[i];
               if !events[n].raised && StillOwn(t, i)
               then t' == t.(runs := t.runs[i := r.(started := true, spawn := SpawnOver)])
               else
                 && t'.runs == t.runs[i := r.(cancelled := true, detached := true, started := true, done := true,
                                              tasks := Asked(r.tasks), spawn := SpawnReaping(|r.tasks| - 1))]
                 && t'.owned == (if r.snapshot.agentId in t.owned && t.owned[r.snapshot.agentId] == i
                                 then t.owned - {r.snapshot.agentId} else t.owned)
                 && t'.log == t.log && t'.replies == t.replies && t'.slots == t.slots
  {
    assert Linked(events, states, n);
    var t, i := states[n], events[n].run;
    ReportedIs(CtxOf(t, i), t.runs[i], events[n].raised);
    hide SpawnReported;
  }

  lemma {:induction false} ReportedIs(c: Ctx, r: Run, raised: bool)
    requires r.tasks != []
    ensures SpawnReported(c, r, raised)
            == if !raised && c.mapped && !r.detached && c.phase == Open && r.snapshot.sessionId == c.session
                  && r.generation == c.generation
               then r.(started := true, spawn := SpawnOver)
               else r.(cancelled := true, detached := true, started := true, done := true, tasks := Asked(r.tasks),
                       spawn := SpawnReaping(|r.tasks| - 1))
  {
    if !raised && SpawnValid(c, r) {} else if Live(r) {} else {}
  }

  // ----- waits and reports -----

  /** A wait that finds its agent settles the run if its task has finished, and does nothing else. */
  lemma {:induction false} WaitSteps(s: State, events: seq<Event>, states: seq<State>, n: nat)
    requires Execution(s, events, states) && n < |events| && events[n].WaitCall?
    ensures var t, a := states[n], events[n].agentId;
            states[n + 1]
            == if a in t.owned && t.owned[a] < |t.runs|
                  && (t.session == "" || t.runs[t.owned[a]].snapshot.sessionId == t.session)
                  && t.runs[t.owned[a]].tasks != [] && !HasUnfinished(t.runs[t.owned[a]])
               then t.(runs := t.runs[t.owned[a] := t.runs[t.owned[a]].(done := true)]) else t
  {
    assert Linked(events, states, n);
    var t, a := states[n], events[n].agentId;
    if Visible(t, a) {
      if t.runs[t.owned[a]].tasks == [] {
        assert t.runs[t.owned[a] := t.runs[t.owned[a]]] == t.runs;
      } else if HasUnfinished(t.runs[t.owned[a]]) {
        assert t.runs[t.owned[a] := t.runs[t.owned[a]]] == t.runs;
      } else {
      }
    }
  }

  /** A report that a callback was injected or delivered is taken if it is about the run in the map, its
      session, its epoch and the step before; else nothing happens. */
  lemma {:induction false} CallbackSteps(s: State, events: seq<Event>, states: seq<State>, n: nat)
    requires Execution(s, events, states) && n < |events| && (events[n].MarkInjected? || events[n].MarkDelivered?)
    ensures var t, e := states[n], events[n];
            states[n + 1]
            == if e.agentId in t.owned && t.owned[e.agentId] < |t.runs|
                  && var q := t.runs[t.owned[e.agentId]].snapshot;
                     q.callbackState == (if e.MarkInjected? then Pending else Injected)
                     && q.sessionId == e.session && q.callbackEpoch == e.epoch
               then
                 var i := t.owned[e.agentId];
                 var q := t.runs[i].snapshot;
                 var q' := if e.MarkInjected?
                           then q.(callbackState := Injected, callbackMessageId := Some(e.messageId),
                                   updatedAt := t.clock)
                           else q.(callbackState := Delivered, updatedAt := t.clock);
                 t.(runs := t.runs[i := t.runs[i].(snapshot := q')],
                    log := t.log + [Entry(i, if e.MarkInjected? then CallbackInjected(e.epoch)
                                          else CallbackDelivered(e.epoch))])
               else t
  {
    assert Linked(events, states, n);
    if events[n].MarkInjected? {} else {}
  }

  // ----- all runs at once -----

  /** A run abandoned while it was unsettled: detached, settled, stopped for the given reason unless it had
      ended by itself, its unfinished task tracked and asked to stop. */
  function GivenUp(r: Run, reason: string, now: int): Run {
    if r.done then r
    else
      var ended := r.snapshot.status.Completed? || r.snapshot.status.Failed? || r.snapshot.status.Stopped?
                   || r.snapshot.status.Cancelled?;
      r.(cancelled := true, detached := true, started := true, done := true, tasks := Asked(Kept(r.tasks)),
         snapshot := if ended then r.snapshot
                     else r.snapshot.(status := Stopped, error := reason, updatedAt := now, finishedAt := Some(now)))
  }

  /** The unfinished task is tracked. */
  function Kept(tasks: seq<Task>): seq<Task> {
    if tasks != [] && !tasks[|tasks| - 1].pc.Finished?
    then tasks[|tasks| - 1 := tasks[|tasks| - 1].(tracked := true)] else tasks
  }

  /** In the agent map. */
  predicate InMap(s: State, i: nat)
    requires i < |s.runs|
  {
    s.runs[i].snapshot.agentId in s.owned && s.owned[s.runs[i].snapshot.agentId] == i
  }

  lemma {:induction false} GivenUpIs(c: Ctx, r: Run, reason: string)
    ensures Abandoned(c, r, reason) == GivenUp(r, reason, c.now)
  {
    if r.done {} else if Live(r) {} else {}
  }

  lemma {:induction false} AbandonSteps(s: State, events: seq<Event>, states: seq<State>, n: nat)
    requires Execution(s, events, states) && n < |events| && events[n].Abandon?
    ensures var t, t' := states[n], states[n + 1];
            && t' == t.(runs := t'.runs) && |t'.runs| == |t.runs|
            && forall i | 0 <= i < |t.runs| ::
                 t'.runs[i] == if InMap(t, i) then GivenUp(t.runs[i], events[n].reason, t.clock) else t.runs[i]
  {
    assert Linked(events, states, n);
    var t, t' := states[n], states[n + 1];
    hide Abandoned, GivenUp;
    forall i | 0 <= i < |t.runs|
      ensures t'.runs[i] == if InMap(t, i) then GivenUp(t.runs[i], events[n].reason, t.clock) else t.runs[i]
    {
      GivenUpIs(CtxOf(t, i), t.runs[i], events[n].reason);
    }
  }

  /** A run that a restore puts out of the map: settled; an unfinished task is detached without a callback,
      tracked and asked to stop. */
  function PutOut(r: Run): Run {
    if HasUnfinished(r)
    then r.(cancelled := true, detached := true, started := true, done := true, tasks := Asked(Kept(r.tasks)),
            snapshot := r.snapshot.(callbackEnabled := false, callbackState := CallbackDisabled))
    else r.(done := true)
  }

  lemma {:induction false} PutOutIs(r: Run)
    ensures Replaced(r) == PutOut(r)
  {
    if HasUnfinished(r) {} else {}
  }

  /** A restore puts every run out of the map and takes over those of the projection behind them. */
  lemma {:induction false} RestoreSteps(s: State, events: seq<Event>, states: seq<State>, n: nat)
    requires Execution(s, events, states) && n < |events| && events[n].Restore? && states[n].phase == Open
    ensures var t, t' := states[n], states[n + 1];
            && |t.runs| <= |t'.runs| && t' == t.(runs := t'.runs, owned := t'.owned)
            && (forall i | 0 <= i < |t.runs| :: t'.runs[i] == if InMap(t, i) then PutOut(t.runs[i]) else t.runs[i])
            && t'.runs[|t.runs|..] == RestoredRuns(t.session, t.generation, t.clock, events[n].items)
            && forall a :: a in t'.owned <==> exists i :: |t.runs| <= i < |t'.runs| && t'.runs[i].snapshot.agentId == a
  {
    assert Linked(events, states, n);
    var t := states[n];
    RestoredList(t, events[n].items);
    hide Next, RestoreAll, PutOut;
    forall i | 0 <= i < |t.runs| ensures states[n + 1].runs[i] == if InMap(t, i) then PutOut(t.runs[i]) else t.runs[i] {
      PutOutIs(t.runs[i]);
    }
    assert states[n + 1] == RestoreAll(t, events[n].items) by { RestoresAll(t, events[n].items); }
  }

  lemma {:induction false} RestoresAll(s: State, items: seq<Item>)
    requires Enabled(s, Restore(items)) && s.phase == Open
    ensures Next(s, Restore(items)) == RestoreAll(s, items)
  {
    hide RestoreAll;
  }

  lemma {:induction false} RestoredList(s: State, items: seq<Item>)
    ensures var s' := RestoreAll(s, items);
            && |s.runs| <= |s'.runs| && s' == s.(runs := s'.runs, owned := s'.owned)
            && (forall i | 0 <= i < |s.runs| :: s'.runs[i] == if Mapped(s, i) then Replaced(s.runs[i]) else s.runs[i])
            && s'.runs[|s.runs|..] == RestoredRuns(s.session, s.generation, s.clock, items)
            && forall a :: a in s'.owned <==> exists i :: |s.runs| <= i < |s'.runs| && s'.runs[i].snapshot.agentId == a
  {
    hide Replaced, RestoredRuns;
    var s', adopted := RestoreAll(s, items), Adopted(s, items);
    IndexCovers(adopted);
    hide Index;
    forall a ensures a in s'.owned <==> exists i :: |s.runs| <= i < |s'.runs| && s'.runs[i].snapshot.agentId == a {
      if exists j :: 0 <= j < |adopted| && adopted[j].snapshot.agentId == a {
        var j :| 0 <= j < |adopted| && adopted[j].snapshot.agentId == a;
        assert s'.runs[|s.runs| + j] == adopted[j];
      }
    }
  }

  lemma {:induction false} IndexCovers(runs: seq<Run>)
    ensures forall a :: a in Index(runs) <==> exists j :: 0 <= j < |runs| && runs[j].snapshot.agentId == a
  {
    if runs != [] {
      var n := |runs| - 1;
      IndexCovers(runs[..n]);
      assert forall j | 0 <= j < n :: runs[..n][j] == runs[j];
    }
  }

  /** A run at the mark of close: an unsettled one in the map is detached, or settled if its task has
      finished; a task that is tracked by then is asked to stop and joined. */
  function MarkedForClose(r: Run, inMap: bool): Run {
    var n := |r.tasks| - 1;
    if !HasUnfinished(r) then (if inMap && !r.done then r.(done := true) else r)
    else if inMap && !r.done then
      r.(cancelled := true, detached := true, started := true,
         tasks := r.tasks[n := r.tasks[n].(tracked := true, cancelRequested := true, joined := true)])
    else if r.tasks[n].tracked then r.(tasks := r.tasks[n := r.tasks[n].(cancelRequested := true, joined := true)])
    else r
  }

  lemma {:induction false} MarkedIs(mapped: bool, r: Run)
    ensures CloseMarked(mapped, r) == MarkedForClose(r, mapped)
  {
    if !HasUnfinished(r) {} else if mapped && !r.done {} else if r.tasks[|r.tasks| - 1].tracked {} else {}
  }

  /** A run at the end of close: settled, and stopped if nobody had settled it. */
  ghost predicate FinishedByClose(c: Ctx, r: Run, r': Run) {
    if r.done then r' == r
    else
      && Trims(r.finalText, r'.snapshot.finalResult)
      && r' == r.(done := true,
                  snapshot := r.snapshot.(status := Stopped, error := if r.detached then r.snapshot.error
                                          else "stopped",
                                          finalResult := r'.snapshot.finalResult, updatedAt := c.now,
                                          finishedAt := Some(c.now)))
  }

  lemma {:induction false} FinishedIs(c: Ctx, r: Run)
    ensures FinishedByClose(c, r, CloseFinished(c, r))
  {
    FinalizeStops(c, r);
    hide BeginFinalize, Trims, Current;
    if r.done {} else {}
  }

  /** Closing starts with a call and marks the runs in one stretch, and when the joined tasks have finished
      whatever is unsettled is stopped. */
  lemma {:induction false} CloseSteps(s: State, events: seq<Event>, states: seq<State>, n: nat)
    requires Execution(s, events, states) && n < |events|
    requires events[n].CloseCall? || events[n].CloseMark? || events[n].CloseFinish?
    ensures var t, t' := states[n], states[n + 1];
            && |t'.runs| == |t.runs| && t' == t.(runs := t'.runs, phase := t'.phase)
            && (events[n].CloseCall? ==>
                  t'.runs == t.runs && t'.phase == if t.phase == Open then Closing else t.phase)
            && (events[n].CloseMark? ==>
                  t'.phase == Marked && forall i | 0 <= i < |t.runs| ::
                        t'.runs[i] == MarkedForClose(t.runs[i], InMap(t, i)))
            && (events[n].CloseFinish? ==>
                  t'.phase == Closed && forall i | 0 <= i < |t.runs| ::
                        FinishedByClose(CtxOf(t, i), t.runs[i], t'.runs[i]))
  {
    assert Linked(events, states, n);
    var t := states[n];
    match events[n]
    case CloseCall =>
    case CloseMark => MarkSteps(t); hide MarkAll, MarkedForClose;
    case CloseFinish => FinishSteps(t); hide FinishAll, FinishedByClose;
  }

  lemma {:induction false} MarkSteps(s: State)
    ensures var s' := MarkAll(s);
            |s'.runs| == |s.runs| && s' == s.(runs := s'.runs, phase := Marked)
            && forall i | 0 <= i < |s.runs| :: s'.runs[i] == MarkedForClose(s.runs[i], InMap(s, i))
  {
    hide CloseMarked, MarkedForClose;
    forall i | 0 <= i < |s.runs| ensures CloseMarked(Mapped(s, i), s.runs[i])
        == MarkedForClose(s.runs[i], InMap(s, i)) {
      MarkedIs(Mapped(s, i), s.runs[i]);
    }
  }

  lemma {:induction false} FinishSteps(s: State)
    ensures var s' := FinishAll(s);
            |s'.runs| == |s.runs| && s' == s.(runs := s'.runs, phase := Closed)
            && forall i | 0 <= i < |s.runs| :: FinishedByClose(CtxOf(s, i), s.runs[i], s'.runs[i])
  {
    hide CloseFinished, FinishedByClose;
    forall i | 0 <= i < |s.runs| ensures FinishedByClose(CtxOf(s, i), s.runs[i],
                                                         CloseFinished(CtxOf(s, i), s.runs[i])) {
      FinishedIs(CtxOf(s, i), s.runs[i]);
    }
  }

  /** A switch of sessions begins a new generation exactly if it is forced or changes the session, the
      environment or the directory; it touches no run. */
  lemma {:induction false} SwitchSteps(s: State, events: seq<Event>, states: seq<State>, n: nat)
    requires Execution(s, events, states) && n < |events| && events[n].UpdateSession?
    ensures var t, t', e := states[n], states[n + 1], events[n];
            && t' == t.(session := e.session, env := e.env, cwd := match e.cwd case Some(cwd) => cwd case None => t.cwd,
                        generation := t'.generation)
            && t'.generation == if e.force || e.session != t.session || e.env != t.env || t'.cwd != t.cwd
                                then t.generation + 1 else t.generation
  {
    assert Linked(events, states, n);
    match events[n].cwd
    case Some(_) =>
    case None =>
  }
}
