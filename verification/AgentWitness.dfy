/** Executions from the initial state that reach the corners: a run left unsettled by a session
    switch, a cancel and a launch forestalled by a wait, more active agents than the limit, a
    task that outlives close, a new epoch over an undelivered callback. */
module AgentWitness {
  import opened Common
  import opened StreamText
  import opened AgentModel
  import opened AgentInvariant
  import opened AgentRuntime
  import opened AgentExecution
  import opened AgentSettlement
  import opened AgentEdges

  const LIMITS := Limits(4, 1, 2)
  const PROMPT := UserMessage("u0", "go")
  const MORE := InputRequest("more", false, None, "u1")
  const SNAPSHOT := FirstSnapshot(false)

  function FirstSnapshot(callback: bool): Snapshot {
    Snapshot("a", "s", Queued, 0, 0, None, "", "", callback, if callback then Pending else CallbackDisabled, None, 0)
  }

  function Start(): State {
    Init(LIMITS, "s", "e", "c", 0)
  }

  /** The one run, with its tasks, flags and lock holder. */
  function TheRun(snapshot: Snapshot, tasks: seq<Task>, done: bool, cancelled: bool, control: Control): Run {
    Run(snapshot, 0, [PROMPT], [], "", done, true, cancelled, false, tasks, control, SpawnOver)
  }

  function TaskAt(pc: TaskPc, cancelRequested: bool): Task {
    NewTask().(pc := pc, cancelRequested := cancelRequested)
  }

  /** A state with one run, apart from its log. */
  ghost predicate Looks(s: State, r: Run, waiting: map<OpId, Waiter>, replies: map<OpId, Reply>, session: string,
      generation: nat, phase: Phase)
  {
    s.(log := []) == State(LIMITS, 0, [r], map["a" := 0], waiting, replies, session, "e", "c", generation, phase, 2, [])
  }

  lemma {:induction false} Extend(events: seq<Event>, states: seq<State>, e: Event)
    requires Execution(Start(), events, states) && Enabled(states[|events|], e)
    ensures Execution(Start(), events + [e], states + [Next(states[|events|], e)])
  {
    hide Enabled, Next;
    var events', states' := events + [e], states + [Next(states[|events|], e)];
    forall n | 0 <= n < |events'| ensures Linked(events', states', n) {
      if n < |events| {
        assert Linked(events, states, n);
      }
    }
  }

  lemma {:induction false} Step(events: seq<Event>, states: seq<State>, e: Event)
    returns (events': seq<Event>, states': seq<State>)
    requires Execution(Start(), events, states) && Enabled(states[|events|], e)
    ensures events' == events + [e] && states' == states + [Next(states[|events|], e)]
    ensures Execution(Start(), events', states')
    ensures states'[|events'|] == Next(states[|events|], e)
  {
    hide Enabled, Next, Linked;
    events', states' := events + [e], states + [Next(states[|events|], e)];
    Extend(events, states, e);
  }

  lemma {:induction false} Replace<T>(x: T, y: T)
    ensures [x][0 := y] == [y]
  {
  }

  /** The run while its queued event is handed over. */
  function Reported(callback: bool): Run {
    TheRun(FirstSnapshot(callback), [NewTask()], false, false, Free).(started := false, spawn := SpawnReporting)
  }

  lemma {:induction false} Spawning(s: State, callback: bool)
    requires s == Start()
    ensures Enabled(s, SpawnCall("a", PROMPT, 0, callback, true))
    ensures Looks(Next(s, SpawnCall("a", PROMPT, 0, callback, true)), Reported(callback), map[], map[], "s", 0, Open)
  {
    assert ActiveIds(s) == {};
  }

  lemma {:induction false} SpawnDone(s: State, callback: bool)
    requires Looks(s, Reported(callback), map[], map[], "s", 0, Open)
    ensures Enabled(s, SpawnReport(0, false))
    ensures Looks(Next(s, SpawnReport(0, false)), TheRun(FirstSnapshot(callback), [NewTask()], false, false, Free),
                  map[], map[], "s", 0, Open)
  {
  }

  /** A run whose task is about to take its first turn. */
  lemma {:induction false} Launched(callback: bool) returns (events: seq<Event>, states: seq<State>)
    ensures Execution(Start(), events, states)
    ensures Looks(states[|events|], TheRun(FirstSnapshot(callback), [NewTask()], false, false, Free), map[], map[],
                  "s", 0, Open)
  {
    hide Enabled, Next, Looks, Linked, TheRun, Reported, FirstSnapshot;
    events, states := [], [Start()];
    Spawning(Start(), callback);
    events, states := Step(events, states, SpawnCall("a", PROMPT, 0, callback, true));
    SpawnDone(states[|events|], callback);
    events, states := Step(events, states, SpawnReport(0, false));
  }

  // ----- a cancel -----

  lemma {:induction false} CancelCalled(s: State, t: Task)
    requires Looks(s, TheRun(SNAPSHOT, [t], false, false, Free), map[], map[], "s", 0, Open)
    ensures Enabled(s, Call(0, "a", CancelRequest))
    ensures Looks(Next(s, Call(0, "a", CancelRequest)), TheRun(SNAPSHOT, [t], false, false, Free),
                  map[0 := Waiter(0, CancelRequest)], map[0 := Suspended], "s", 0, Open)
  {
  }

  lemma {:induction false} CancelLocked(s: State, t: Task)
    requires t.pc != Finished
    requires Looks(s, TheRun(SNAPSHOT, [t], false, false, Free), map[0 := Waiter(0, CancelRequest)],
                   map[0 := Suspended], "s", 0, Open)
    ensures Enabled(s, Acquire(0))
    ensures Looks(Next(s, Acquire(0)),
                  TheRun(SNAPSHOT, [t.(cancelRequested := true)], false, true, Held(0, CancelAwait)),
                  map[], map[0 := Suspended], "s", 0, Open)
  {
    var r := TheRun(SNAPSHOT, [t], false, false, Free);
    var r' := TheRun(SNAPSHOT, [t.(cancelRequested := true)], false, true, Held(0, CancelAwait));
    Replace(t, t.(cancelRequested := true));
    assert CancelAcquired(CtxOf(s, 0), r, 0) == Turn(r', [], Suspended);
    Replace(r, r');
    assert map[0 := Waiter(0, CancelRequest)] - {0} == map[];
    hide CancelAcquired, InputAcquired;
  }

  lemma {:induction false} NeverStarted(s: State)
    requires Looks(s, TheRun(SNAPSHOT, [TaskAt(NotStarted, true)], false, true, Held(0, CancelAwait)), map[],
                   map[0 := Suspended], "s", 0, Open)
    ensures Enabled(s, TaskRuns(0, 0, Advance))
    ensures Looks(Next(s, TaskRuns(0, 0, Advance)),
                  TheRun(SNAPSHOT, [TaskAt(Finished, true)], false, true, Held(0, CancelAwait)), map[],
                  map[0 := Suspended], "s", 0, Open)
  {
    var r := TheRun(SNAPSHOT, [TaskAt(NotStarted, true)], false, true, Held(0, CancelAwait));
    var r' := TheRun(SNAPSHOT, [TaskAt(Finished, true)], false, true, Held(0, CancelAwait));
    Replace(TaskAt(NotStarted, true), TaskAt(Finished, true));
    assert TaskSegment(CtxOf(s, 0), r, 0, Advance) == Effect(r', []);
    Replace(r, r');
    hide TaskSegment;
  }

  /** The task has ended without a turn; the cancel has not resumed yet. */
  lemma {:induction false} CancelledBeforeStart() returns (events: seq<Event>, states: seq<State>)
    ensures Execution(Start(), events, states)
    ensures Looks(states[|events|], TheRun(SNAPSHOT, [TaskAt(Finished, true)], false, true, Held(0, CancelAwait)),
                  map[], map[0 := Suspended], "s", 0, Open)
  {
    assert NewTask().(cancelRequested := true) == TaskAt(NotStarted, true);
    hide Enabled, Next, Looks, Linked, TheRun, TaskAt, NewTask;
    events, states := Launched(false);
    CancelCalled(states[|events|], NewTask());
    events, states := Step(events, states, Call(0, "a", CancelRequest));
    CancelLocked(states[|events|], NewTask());
    events, states := Step(events, states, Acquire(0));
    NeverStarted(states[|events|]);
    events, states := Step(events, states, TaskRuns(0, 0, Advance));
  }

  // ----- a session switch meanwhile -----

  lemma {:induction false} Switched(s: State, r: Run)
    requires Looks(s, r, map[], map[0 := Suspended], "s", 0, Open)
    ensures Looks(Next(s, UpdateSession("e", "t", None, false)), r, map[], map[0 := Suspended], "t", 1, Open)
  {
  }

  lemma {:induction false} CancelGivesUp(s: State, t: Task)
    requires t.pc == Finished
    requires Looks(s, TheRun(SNAPSHOT, [t], false, true, Held(0, CancelAwait)), map[], map[0 := Suspended], "t", 1,
                   Open)
    ensures Enabled(s, Resume(0, false))
    ensures Looks(Next(s, Resume(0, false)), TheRun(SNAPSHOT, [t], false, true, Free), map[], map[0 := Returned(false)],
                  "t", 1, Open)
  {
    var r, r' := TheRun(SNAPSHOT, [t], false, true, Held(0, CancelAwait)), TheRun(SNAPSHOT, [t], false, true, Free);
    assert HolderTurn(CtxOf(s, 0), r, false) == Turn(r', [], Returned(false));
    Replace(r, r');
    hide HolderTurn;
  }

  /** A session switch without abandon does leave a run behind: its task has finished, nobody is
      inside an operation on it, and its done event is not set. */
  lemma {:induction false} StrandingExecution() returns (events: seq<Event>, states: seq<State>)
    ensures Execution(Start(), events, states) && |states[|events|].runs| == 1
    ensures Quiet(states[|events|], 0) && HasTask(states[|events|].runs[0]) && !Live(states[|events|].runs[0])
    ensures !states[|events|].runs[0].done
  {
    var prior, before := CancelledBeforeStart();
    events, states := Strand(prior, before);
    assert Looks(states[|events|], TheRun(SNAPSHOT, [TaskAt(Finished, true)], false, true, Free), map[],
                 map[0 := Returned(false)], "t", 1, Open);
    hide Execution;
  }

  lemma {:induction false} Strand(prior: seq<Event>, before: seq<State>)
    returns (events: seq<Event>, states: seq<State>)
    requires Execution(Start(), prior, before)
    requires Looks(before[|prior|], TheRun(SNAPSHOT, [TaskAt(Finished, true)], false, true, Held(0, CancelAwait)),
                   map[], map[0 := Suspended], "s", 0, Open)
    ensures Execution(Start(), events, states)
    ensures Looks(states[|events|], TheRun(SNAPSHOT, [TaskAt(Finished, true)], false, true, Free), map[],
                  map[0 := Returned(false)], "t", 1, Open)
  {
    assert TaskAt(Finished, true).pc == Finished;
    assert Enabled(before[|prior|], UpdateSession("e", "t", None, false));
    hide Enabled, Next, Looks, Linked, TheRun, TaskAt;
    Switched(before[|prior|], TheRun(SNAPSHOT, [TaskAt(Finished, true)], false, true, Held(0, CancelAwait)));
    events, states := Step(prior, before, UpdateSession("e", "t", None, false));
    CancelGivesUp(states[|events|], TaskAt(Finished, true));
    events, states := Step(events, states, Resume(0, false));
  }

  // ----- a wait meanwhile -----

  lemma {:induction false} Fenced(s: State, r: Run, replies: map<OpId, Reply>)
    requires Looks(s, r, map[], replies, "s", 0, Open) && r.snapshot.agentId == "a" && r.snapshot.sessionId == "s"
    requires HasTask(r) && !Live(r)
    ensures Looks(Next(s, WaitCall("a")), r.(done := true), map[], replies, "s", 0, Open)
  {
    Replace(r, r.(done := true));
  }

  lemma {:induction false} CancelForestalled(s: State, t: Task)
    requires Looks(s, TheRun(SNAPSHOT, [t], true, true, Held(0, CancelAwait)), map[], map[0 := Suspended], "s", 0, Open)
    requires t.pc == Finished
    ensures Enabled(s, Resume(0, false))
    ensures Looks(Next(s, Resume(0, false)), TheRun(SNAPSHOT, [t], true, true, Free), map[], map[0 := Returned(true)],
                  "s", 0, Open)
  {
    var r, r' := TheRun(SNAPSHOT, [t], true, true, Held(0, CancelAwait)), TheRun(SNAPSHOT, [t], true, true, Free);
    assert HolderTurn(CtxOf(s, 0), r, false) == Turn(r', [], Returned(true));
    Replace(r, r');
    hide HolderTurn;
  }

  /** A cancel can answer true and leave its run queued: a wait fenced the finished task before
      the cancel resumed. */
  lemma {:induction false} ForestalledCancel() returns (events: seq<Event>, states: seq<State>)
    ensures Execution(Start(), events, states)
    ensures Looks(states[|events|], TheRun(SNAPSHOT, [TaskAt(Finished, true)], true, true, Free), map[],
                  map[0 := Returned(true)], "s", 0, Open)
    ensures states[|events|].replies == map[0 := Returned(true)] && |states[|events|].runs| == 1
    ensures states[|events|].runs[0].snapshot.status == Queued && !Live(states[|events|].runs[0])
  {
    var r := TheRun(SNAPSHOT, [TaskAt(Finished, true)], false, true, Held(0, CancelAwait));
    assert TaskAt(Finished, true).pc == Finished && HasTask(r) && !Live(r);
    assert r.snapshot == SNAPSHOT;
    assert r.(done := true) == TheRun(SNAPSHOT, [TaskAt(Finished, true)], true, true, Held(0, CancelAwait));
    events, states := CancelledBeforeStart();
    assert Enabled(states[|events|], WaitCall("a"));
    assert forall s | Looks(s, TheRun(SNAPSHOT, [TaskAt(Finished, true)], true, true, Free), map[],
                            map[0 := Returned(true)], "s", 0, Open) ::
             s.replies == map[0 := Returned(true)] && |s.runs| == 1
             && s.runs[0].snapshot.status == Queued && !Live(s.runs[0]);
    hide Enabled, Next, Looks, Linked, TheRun, TaskAt, Live, HasTask;
    Fenced(states[|events|], r, map[0 := Suspended]);
    events, states := Step(events, states, WaitCall("a"));
    CancelForestalled(states[|events|], TaskAt(Finished, true));
    events, states := Step(events, states, Resume(0, false));
  }

  // ----- an input whose launch is lost -----

  const NEXT := Input(MORE)

  /** The run after it accepted the second message. */
  function SecondRun(tasks: seq<Task>, done: bool, started: bool, control: Control): Run {
    TheRun(SNAPSHOT, tasks, done, false, control).(messages := [PROMPT, UserMessage("u1", "more")], started := started)
  }

  lemma {:induction false} InputCalled(s: State, r: Run)
    requires Looks(s, r, map[], map[0 := Returned(true)], "s", 0, Open) && r.snapshot == SNAPSHOT
    ensures Enabled(s, Call(1, "a", NEXT))
    ensures Looks(Next(s, Call(1, "a", NEXT)), r, map[1 := Waiter(0, NEXT)], map[0 := Returned(true), 1 := Suspended],
                  "s", 0, Open)
  {
    assert !IsSpace("more"[0]);
  }

  lemma {:induction false} InputRestarts(c: Ctx, t: Task)
    requires c == Ctx(Open, "s", 0, true, 0) && t.pc == Finished
    ensures var r := TheRun(SNAPSHOT, [t], true, true, Free);
            AcquireTurn(c, r, 1, NEXT).run == SecondRun([t], false, false, Held(1, InputReport))
            && AcquireTurn(c, r, 1, NEXT).reply == Suspended
  {
  }

  lemma {:induction false} InputLocked(s: State, t: Task)
    requires t.pc == Finished
    requires Looks(s, TheRun(SNAPSHOT, [t], true, true, Free), map[1 := Waiter(0, NEXT)],
                   map[0 := Returned(true), 1 := Suspended], "s", 0, Open)
    ensures Enabled(s, Acquire(1))
    ensures Looks(Next(s, Acquire(1)), SecondRun([t], false, false, Held(1, InputReport)), map[],
                  map[0 := Returned(true), 1 := Suspended], "s", 0, Open)
  {
    var r := TheRun(SNAPSHOT, [t], true, true, Free);
    InputRestarts(CtxOf(s, 0), t);
    Replace(r, SecondRun([t], false, false, Held(1, InputReport)));
    assert map[1 := Waiter(0, NEXT)] - {1} == map[];
    hide AcquireTurn, SecondRun;
  }

  lemma {:induction false} LaunchAnswered(s: State, t: Task)
    requires Looks(s, SecondRun([t], true, false, Held(1, InputReport)), map[],
                   map[0 := Returned(true), 1 := Suspended], "s", 0, Open)
    ensures Enabled(s, Resume(0, false))
    ensures Looks(Next(s, Resume(0, false)), SecondRun([t, NewTask()], true, true, Free), map[],
                  map[0 := Returned(true), 1 := Returned(true)], "s", 0, Open)
  {
    var r, r' := SecondRun([t], true, false, Held(1, InputReport)), SecondRun([t, NewTask()], true, true, Free);
    assert [t] + [NewTask()] == [t, NewTask()];
    assert HolderTurn(CtxOf(s, 0), r, false) == Turn(r', [], Returned(true));
    Replace(r, r');
    hide HolderTurn;
  }

  lemma {:induction false} SecondTurn(s: State, t: Task, from: TaskPc, to: TaskPc)
    requires t.pc == Finished && ((from == NotStarted && to == WaitingStart)
                                  || (from == WaitingStart && to == Finished))
    requires Looks(s, SecondRun([t, TaskAt(from, false)], true, true, Free), map[],
                   map[0 := Returned(true), 1 := Returned(true)], "s", 0, Open)
    ensures Enabled(s, TaskRuns(0, 1, Advance))
    ensures Looks(Next(s, TaskRuns(0, 1, Advance)), SecondRun([t, TaskAt(to, false)], true, true, Free), map[],
                  map[0 := Returned(true), 1 := Returned(true)], "s", 0, Open)
  {
    var r := SecondRun([t, TaskAt(from, false)], true, true, Free);
    var r' := SecondRun([t, TaskAt(to, false)], true, true, Free);
    assert [t, TaskAt(from, false)][1 := TaskAt(to, false)] == [t, TaskAt(to, false)];
    assert TaskSegment(CtxOf(s, 0), r, 1, Advance) == Effect(r', []);
    Replace(r, r');
    hide TaskSegment;
  }

  lemma {:induction false} LostTask(events: seq<Event>, states: seq<State>, t: Task)
    returns (events': seq<Event>, states': seq<State>)
    requires t.pc == Finished && Execution(Start(), events, states)
    requires Looks(states[|events|], SecondRun([t], true, false, Held(1, InputReport)), map[],
                   map[0 := Returned(true), 1 := Suspended], "s", 0, Open)
    ensures Execution(Start(), events', states')
    ensures Looks(states'[|events'|], SecondRun([t, TaskAt(Finished, false)], true, true, Free), map[],
                  map[0 := Returned(true), 1 := Returned(true)], "s", 0, Open)
  {
    assert NewTask() == TaskAt(NotStarted, false);
    hide Enabled, Next, Looks, Linked, SecondRun, TaskAt;
    LaunchAnswered(states[|events|], t);
    events', states' := Step(events, states, Resume(0, false));
    SecondTurn(states'[|events'|], t, NotStarted, WaitingStart);
    events', states' := Step(events', states', TaskRuns(0, 1, Advance));
    SecondTurn(states'[|events'|], t, WaitingStart, Finished);
    events', states' := Step(events', states', TaskRuns(0, 1, Advance));
  }

  /** send_input can answer true, keep the message and run nothing: a wait came while the queued
      event was handed over. */
  lemma {:induction false} LostLaunch() returns (events: seq<Event>, states: seq<State>)
    ensures Execution(Start(), events, states)
    ensures states[|events|].replies == map[0 := Returned(true), 1 := Returned(true)]
    ensures states[|events|].runs == [SecondRun([TaskAt(Finished, true), TaskAt(Finished, false)], true, true, Free)]
  {
    var t := TaskAt(Finished, true);
    var r := SecondRun([t], false, false, Held(1, InputReport));
    assert t.pc == Finished && HasTask(r) && !Live(r) && r.snapshot == SNAPSHOT;
    assert TheRun(SNAPSHOT, [t], true, true, Free).snapshot == SNAPSHOT;
    assert r.(done := true) == SecondRun([t], true, false, Held(1, InputReport));
    events, states := ForestalledCancel();
    assert forall s: State :: Enabled(s, WaitCall("a"));
    assert forall s | Looks(s, SecondRun([t, TaskAt(Finished, false)], true, true, Free), map[],
                            map[0 := Returned(true), 1 := Returned(true)], "s", 0, Open) ::
             s.replies == map[0 := Returned(true), 1 := Returned(true)]
             && s.runs == [SecondRun([t, TaskAt(Finished, false)], true, true, Free)];
    hide Enabled, Next, Looks, Linked, TheRun, SecondRun, TaskAt, Live, HasTask;
    InputCalled(states[|events|], TheRun(SNAPSHOT, [t], true, true, Free));
    events, states := Step(events, states, Call(1, "a", NEXT));
    InputLocked(states[|events|], t);
    events, states := Step(events, states, Acquire(1));
    Fenced(states[|events|], r, map[0 := Returned(true), 1 := Suspended]);
    events, states := Step(events, states, WaitCall("a"));
    events, states := LostTask(events, states, t);
  }

  // ----- close -----

  const STOPPED := StoppedSnapshot(false)

  function StoppedSnapshot(callback: bool): Snapshot {
    FirstSnapshot(callback).(status := Stopped, error := "stopped", finishedAt := Some(0))
  }

  /** The task takes its first turn, on the way to the start event. */
  lemma {:induction false} FirstTurnTaken(s: State, callback: bool)
    requires Looks(s, TheRun(FirstSnapshot(callback), [TaskAt(NotStarted, false)], false, false, Free), map[], map[],
                   "s", 0, Open)
    ensures Enabled(s, TaskRuns(0, 0, Advance))
    ensures Looks(Next(s, TaskRuns(0, 0, Advance)),
                  TheRun(FirstSnapshot(callback), [TaskAt(WaitingStart, false)], false, false, Free), map[], map[],
                  "s", 0, Open)
  {
    hide FirstSnapshot;
    var r := TheRun(FirstSnapshot(callback), [TaskAt(NotStarted, false)], false, false, Free);
    var r' := TheRun(FirstSnapshot(callback), [TaskAt(WaitingStart, false)], false, false, Free);
    Replace(TaskAt(NotStarted, false), TaskAt(WaitingStart, false));
    assert TaskSegment(CtxOf(s, 0), r, 0, Advance) == Effect(r', []);
    Replace(r, r');
    hide TaskSegment;
  }

  /** The task, cancelled by the holder of the control lock, finalizes its run. */
  lemma {:induction false} Finalized(s: State, callback: bool, at: ControlPc)
    requires Looks(s, TheRun(FirstSnapshot(callback), [TaskAt(WaitingStart, true)], false, true, Held(0, at)), map[],
                   map[0 := Suspended], "s", 0, Open)
    ensures Enabled(s, TaskRuns(0, 0, Advance))
    ensures Looks(Next(s, TaskRuns(0, 0, Advance)),
                  TheRun(StoppedSnapshot(callback), [TaskAt(FinalReport, false)], false, true, Held(0, at)), map[],
                  map[0 := Suspended], "s", 0, Open)
  {
    var r := TheRun(FirstSnapshot(callback), [TaskAt(WaitingStart, true)], false, true, Held(0, at));
    var r' := TheRun(StoppedSnapshot(callback), [TaskAt(FinalReport, false)], false, true, Held(0, at));
    Replace(TaskAt(WaitingStart, true), TaskAt(FinalReport, false));
    assert TaskSegment(CtxOf(s, 0), r, 0, Advance).run == r' by { assert Strip("") == ""; }
    Replace(r, r');
    hide TaskSegment;
  }

  lemma {:induction false} SettledItself(s: State, callback: bool, at: ControlPc)
    requires Looks(s, TheRun(StoppedSnapshot(callback), [TaskAt(FinalReport, false)], false, true, Held(0, at)), map[],
                   map[0 := Suspended], "s", 0, Open)
    ensures Enabled(s, TaskRuns(0, 0, Advance))
    ensures Looks(Next(s, TaskRuns(0, 0, Advance)),
                  TheRun(StoppedSnapshot(callback), [TaskAt(FinalCompleting, false)], true, true, Held(0, at)), map[],
                  map[0 := Suspended], "s", 0, Open)
  {
    hide StoppedSnapshot;
    var r := TheRun(StoppedSnapshot(callback), [TaskAt(FinalReport, false)], false, true, Held(0, at));
    var r' := TheRun(StoppedSnapshot(callback), [TaskAt(FinalCompleting, false)], true, true, Held(0, at));
    Replace(TaskAt(FinalReport, false), TaskAt(FinalCompleting, false));
    assert TaskSegment(CtxOf(s, 0), r, 0, Advance).run == r';
    Replace(r, r');
    hide TaskSegment;
  }

  /** Two turns of a cancelled task: up to the hand-over of its completion. */
  lemma {:induction false} TaskSettles(prior: seq<Event>, before: seq<State>, callback: bool, at: ControlPc)
    returns (events: seq<Event>, states: seq<State>)
    requires Execution(Start(), prior, before)
    requires Looks(before[|prior|],
                   TheRun(FirstSnapshot(callback), [TaskAt(WaitingStart, true)], false, true, Held(0, at)),
                   map[], map[0 := Suspended], "s", 0, Open)
    ensures Execution(Start(), events, states)
    ensures Looks(states[|events|],
                  TheRun(StoppedSnapshot(callback), [TaskAt(FinalCompleting, false)], true, true, Held(0, at)), map[],
                  map[0 := Suspended], "s", 0, Open)
  {
    hide Enabled, Next, Looks, Linked, TheRun, TaskAt, FirstSnapshot, StoppedSnapshot;
    Finalized(before[|prior|], callback, at);
    events, states := Step(prior, before, TaskRuns(0, 0, Advance));
    SettledItself(states[|events|], callback, at);
    events, states := Step(events, states, TaskRuns(0, 0, Advance));
  }

  lemma {:induction false} ClosesOver(s: State, r: Run, from: Phase)
    requires Looks(s, r, map[], map[0 := Suspended], "s", 0, from) && r.snapshot.agentId == "a"
    requires r.done && |r.tasks| == 1 && !r.tasks[0].tracked && !r.tasks[0].joined
    ensures from == Open ==> Looks(Next(s, CloseCall), r, map[], map[0 := Suspended], "s", 0, Closing)
    ensures from == Closing ==> Enabled(s, CloseMark)
                                && Looks(Next(s, CloseMark), r, map[], map[0 := Suspended], "s", 0, Marked)
    ensures from == Marked ==> Enabled(s, CloseFinish)
                               && Looks(Next(s, CloseFinish), r, map[], map[0 := Suspended], "s", 0, Closed)
  {
    assert CloseMarked(true, r) == r && CloseFinished(CtxOf(s, 0), r) == r;
    hide CloseMarked, CloseFinished;
    if from == Closing {
      assert Next(s, CloseMark).runs == [r];
    } else if from == Marked {
      assert Next(s, CloseFinish).runs == [r];
    }
  }

  /** A cancelled task that is handing over its completion. */
  lemma {:induction false} HandingOver() returns (events: seq<Event>, states: seq<State>)
    ensures Execution(Start(), events, states)
    ensures Looks(states[|events|], TheRun(STOPPED, [TaskAt(FinalCompleting, false)], true, true, Held(0, CancelAwait)),
                  map[], map[0 := Suspended], "s", 0, Open)
  {
    var t := TaskAt(WaitingStart, false);
    assert NewTask() == TaskAt(NotStarted, false) && t.pc != Finished;
    assert t.(cancelRequested := true) == TaskAt(WaitingStart, true);
    hide Enabled, Next, Looks, Linked, TheRun, TaskAt, FirstSnapshot, StoppedSnapshot;
    events, states := Launched(false);
    FirstTurnTaken(states[|events|], false);
    events, states := Step(events, states, TaskRuns(0, 0, Advance));
    CancelCalled(states[|events|], t);
    events, states := Step(events, states, Call(0, "a", CancelRequest));
    CancelLocked(states[|events|], t);
    events, states := Step(events, states, Acquire(0));
    events, states := TaskSettles(events, states, false, CancelAwait);
  }

  /** Close can end while a task that has set its done event is still unfinished. */
  lemma {:induction false} TaskOutlivesClose() returns (events: seq<Event>, states: seq<State>)
    ensures Execution(Start(), events, states) && states[|events|].phase == Closed
    ensures |states[|events|].runs| == 1 && Live(states[|events|].runs[0])
  {
    var r := TheRun(STOPPED, [TaskAt(FinalCompleting, false)], true, true, Held(0, CancelAwait));
    assert r.snapshot.agentId == "a" && r.done && |r.tasks| == 1 && !r.tasks[0].tracked && !r.tasks[0].joined;
    assert forall s | Looks(s, r, map[], map[0 := Suspended], "s", 0, Closed) ::
             s.phase == Closed && |s.runs| == 1 && Live(s.runs[0]);
    assert forall s: State :: Enabled(s, CloseCall);
    events, states := HandingOver();
    hide Enabled, Next, Looks, Linked, TheRun, TaskAt, Live;
    ClosesOver(states[|events|], r, Open);
    events, states := Step(events, states, CloseCall);
    ClosesOver(states[|events|], r, Closing);
    events, states := Step(events, states, CloseMark);
    ClosesOver(states[|events|], r, Marked);
    events, states := Step(events, states, CloseFinish);
  }

  // ----- an input that interrupts a task -----

  const BREAK := InputRequest("more", true, None, "u1")

  lemma {:induction false} InterruptCalled(s: State, t: Task)
    requires Looks(s, TheRun(FirstSnapshot(true), [t], false, false, Free), map[], map[], "s", 0, Open)
    ensures Enabled(s, Call(0, "a", Input(BREAK)))
    ensures Looks(Next(s, Call(0, "a", Input(BREAK))), TheRun(FirstSnapshot(true), [t], false, false, Free),
                  map[0 := Waiter(0, Input(BREAK))], map[0 := Suspended], "s", 0, Open)
  {
    assert !IsSpace("more"[0]);
  }

  lemma {:induction false} InterruptTurn(c: Ctx, t: Task)
    requires c == Ctx(Open, "s", 0, true, 0) && t.pc != Finished && t.projection.None?
    ensures var r := TheRun(FirstSnapshot(true), [t], false, false, Free);
            InputFresh(r, BREAK)
            && InputAcquired(c, r, 0, BREAK)
               == Turn(TheRun(FirstSnapshot(true), [t.(cancelRequested := true)], false, true,
                              Held(0, InputAwait(BREAK))), [], Suspended)
  {
    Replace(t, t.(cancelRequested := true));
  }

  lemma {:induction false} InterruptLocked(s: State, t: Task)
    requires t.pc != Finished && t.projection.None?
    requires Looks(s, TheRun(FirstSnapshot(true), [t], false, false, Free), map[0 := Waiter(0, Input(BREAK))],
                   map[0 := Suspended], "s", 0, Open)
    ensures Enabled(s, Acquire(0))
    ensures Looks(Next(s, Acquire(0)),
                  TheRun(FirstSnapshot(true), [t.(cancelRequested := true)], false, true, Held(0, InputAwait(BREAK))),
                  map[], map[0 := Suspended], "s", 0, Open)
  {
    var r := TheRun(FirstSnapshot(true), [t], false, false, Free);
    var r' := TheRun(FirstSnapshot(true), [t.(cancelRequested := true)], false, true, Held(0, InputAwait(BREAK)));
    InterruptTurn(CtxOf(s, 0), t);
    Replace(r, r');
    assert map[0 := Waiter(0, Input(BREAK))] - {0} == map[];
    hide CancelAcquired, InputAcquired, InputFresh;
  }

  /** The cancelled task has handed over its completion. */
  lemma {:induction false} HandedOver(s: State)
    requires Looks(s, TheRun(StoppedSnapshot(true), [TaskAt(FinalCompleting, false)], true, true,
                             Held(0, InputAwait(BREAK))), map[], map[0 := Suspended], "s", 0, Open)
    ensures Enabled(s, TaskRuns(0, 0, Advance))
    ensures Looks(Next(s, TaskRuns(0, 0, Advance)),
                  TheRun(StoppedSnapshot(true), [TaskAt(Finished, false)], true, true, Held(0, InputAwait(BREAK))),
                  map[], map[0 := Suspended], "s", 0, Open)
  {
    hide StoppedSnapshot;
    var r := TheRun(StoppedSnapshot(true), [TaskAt(FinalCompleting, false)], true, true, Held(0, InputAwait(BREAK)));
    var r' := TheRun(StoppedSnapshot(true), [TaskAt(Finished, false)], true, true, Held(0, InputAwait(BREAK)));
    Replace(TaskAt(FinalCompleting, false), TaskAt(Finished, false));
    assert TaskSegment(CtxOf(s, 0), r, 0, Advance).run == r';
    Replace(r, r');
    hide TaskSegment;
  }

  lemma {:induction false} Interrupted() returns (events: seq<Event>, states: seq<State>)
    ensures Execution(Start(), events, states)
    ensures Looks(states[|events|], TheRun(FirstSnapshot(true), [TaskAt(WaitingStart, true)], false, true,
                                           Held(0, InputAwait(BREAK))), map[], map[0 := Suspended], "s", 0, Open)
  {
    var t := TaskAt(WaitingStart, false);
    assert NewTask() == TaskAt(NotStarted, false) && t.pc != Finished && t.projection.None?;
    assert t.(cancelRequested := true) == TaskAt(WaitingStart, true);
    hide Enabled, Next, Looks, Linked, TheRun, TaskAt, FirstSnapshot;
    events, states := Launched(true);
    FirstTurnTaken(states[|events|], true);
    events, states := Step(events, states, TaskRuns(0, 0, Advance));
    InterruptCalled(states[|events|], t);
    events, states := Step(events, states, Call(0, "a", Input(BREAK)));
    InterruptLocked(states[|events|], t);
    events, states := Step(events, states, Acquire(0));
  }

  lemma {:induction false} GoesOnNow(s: State)
    requires Looks(s, TheRun(StoppedSnapshot(true), [TaskAt(Finished, false)], true, true, Held(0, InputAwait(BREAK))),
                   map[], map[0 := Suspended], "s", 0, Open)
    ensures Enabled(s, Resume(0, false)) && |s.runs| == 1 && Undelivered(s.runs[0]) && GoesOn(s, Resume(0, false), 0)
    ensures s.runs[0].snapshot.callbackState == Pending && s.runs[0].snapshot.callbackEpoch == 0
  {
  }

  /** A new epoch can begin while the callback of the one before is still undelivered: the input
      that interrupted the task goes on after the task has ended stopped. */
  lemma {:induction false} EpochOverUndelivered() returns (events: seq<Event>, states: seq<State>)
    ensures |events| > 0 && Execution(Start(), events, states)
    ensures var n := |events| - 1;
            |states[n].runs| == 1 == |states[n + 1].runs| && Undelivered(states[n].runs[0])
            && states[n].runs[0].snapshot.callbackState == Pending
            && states[n].runs[0].snapshot.callbackEpoch == 0 && states[n + 1].runs[0].snapshot.callbackEpoch == 1
  {
    hide Enabled, Next, Looks, Linked, TheRun, TaskAt, FirstSnapshot, StoppedSnapshot, Undelivered, GoesOn;
    events, states := Interrupted();
    events, states := TaskSettles(events, states, true, InputAwait(BREAK));
    HandedOver(states[|events|]);
    events, states := Step(events, states, TaskRuns(0, 0, Advance));
    GoesOnNow(states[|events|]);
    var s := states[|events|];
    events, states := Step(events, states, Resume(0, false));
    StartInv();
    NewEpochIff(Start(), events, states, |events| - 1, 0);
    SameCount(s);
  }

  lemma {:induction false} SameCount(s: State)
    requires Enabled(s, Resume(0, false))
    ensures |Next(s, Resume(0, false)).runs| == |s.runs|
  {
    hide HolderTurn, Live;
  }

  lemma {:induction false} StartInv()
    ensures Inv(Start())
  {
    hide Inv;
    InitInv(LIMITS, "s", "e", "c", 0);
  }

  // ----- the limit of active agents -----

  /** The run of "a" beside that of "b", apart from the log and the run of "b". */
  ghost predicate Beside(s: State, r: Run, waiting: map<OpId, Waiter>, replies: map<OpId, Reply>) {
    |s.runs| == 2 && s.runs[0] == r && s.owned == map["a" := 0, "b" := 1] && s.limits == LIMITS
    && s.waiting == waiting && s.replies == replies && s.phase == Open && s.session == "s" && s.generation == 0
    && s.clock == 0
  }

  /** A settled run leaves room for another agent. */
  lemma {:induction false} SpawnedBeside(s: State, r: Run)
    requires Looks(s, r, map[], map[0 := Returned(true)], "s", 0, Open) && r.done && r.snapshot.agentId == "a"
    ensures Enabled(s, SpawnCall("b", PROMPT, 0, false, true))
    ensures var s' := Next(s, SpawnCall("b", PROMPT, 0, false, true));
            Beside(s', r, map[], map[0 := Returned(true)]) && ActiveRuns(s') == 1
  {
    assert ActiveIds(s) == {};
    assert ActiveRuns(s) == 0;
    SpawnRespectsLimit(s, "b", PROMPT, 0, false, true);
    hide ActiveIds, ActiveRuns;
  }

  lemma {:induction false} CalledBeside(s: State, r: Run)
    requires Beside(s, r, map[], map[0 := Returned(true)]) && r.snapshot == SNAPSHOT
    ensures Enabled(s, Call(1, "a", NEXT))
    ensures var s' := Next(s, Call(1, "a", NEXT));
            Beside(s', r, map[1 := Waiter(0, NEXT)], map[0 := Returned(true), 1 := Suspended])
            && ActiveRuns(s') == ActiveRuns(s)
  {
    assert !IsSpace("more"[0]);
    assert ActiveIds(Next(s, Call(1, "a", NEXT))) == ActiveIds(s);
    hide ActiveIds;
  }

  lemma {:induction false} ReopensNow(s: State, t: Task)
    requires t.pc == Finished
    requires Beside(s, TheRun(SNAPSHOT, [t], true, true, Free), map[1 := Waiter(0, NEXT)],
                    map[0 := Returned(true), 1 := Suspended])
    ensures Enabled(s, Acquire(1)) && Reopens(s, Acquire(1), 0)
  {
    InputRestarts(CtxOf(s, 0), t);
    hide AcquireTurn;
  }

  /** An input to a settled run brings the active agents beyond the limit. */
  lemma {:induction false} LimitExceeded() returns (events: seq<Event>, states: seq<State>)
    ensures Execution(Start(), events, states)
    ensures ActiveRuns(states[|events|]) == 2 > LIMITS.maxActive
  {
    var t := TaskAt(Finished, true);
    var r := TheRun(SNAPSHOT, [t], true, true, Free);
    assert t.pc == Finished && r.done && r.snapshot == SNAPSHOT && r.snapshot.agentId == "a";
    hide Enabled, Next, Looks, Linked, TheRun, TaskAt, Beside, Reopens, ActiveRuns;
    events, states := ForestalledCancel();
    SpawnedBeside(states[|events|], r);
    events, states := Step(events, states, SpawnCall("b", PROMPT, 0, false, true));
    CalledBeside(states[|events|], r);
    events, states := Step(events, states, Call(1, "a", NEXT));
    ReopensNow(states[|events|], t);
    StartInv();
    ExecutionInv(Start(), events, states, |events|);
    RestartIgnoresLimit(states[|events|], Acquire(1), 0);
    events, states := Step(events, states, Acquire(1));
  }
}
