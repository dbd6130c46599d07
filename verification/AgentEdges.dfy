/** What is admitted and what is refused, over whole executions. */
module AgentEdges {
  import opened Common
  import opened StreamText
  import opened AgentModel
  import opened AgentInvariant
  import opened AgentEvolution
  import opened AgentRestore
  import opened AgentRuntime
  import opened AgentExecution
  import opened AgentTheorems
  import opened AgentSafety
  import opened AgentDone
  import opened AgentSettlement

  // ----- admission and refusals -----

  /** Appending an unsettled run under a new id makes exactly one more active agent. */
  lemma {:induction false} OneMoreActive(s: State, s': State, agentId: string, r: Run)
    requires MapOk(s) && agentId !in s.owned && !r.done
    requires s'.runs == s.runs + [r] && s'.owned == s.owned[agentId := |s.runs|]
    ensures ActiveRuns(s') == ActiveRuns(s) + 1
  {
    forall a ensures a in ActiveIds(s') <==> a in ActiveIds(s) || a == agentId {
      ActiveAfter(s, s', agentId, r, a);
    }
    assert agentId !in ActiveIds(s);
    hide ActiveIds, MapOk;
    assert ActiveIds(s') == ActiveIds(s) + {agentId};
  }

  lemma {:induction false} ActiveAfter(s: State, s': State, agentId: string, r: Run, a: string)
    requires MapOk(s) && agentId !in s.owned && !r.done
    requires s'.runs == s.runs + [r] && s'.owned == s.owned[agentId := |s.runs|]
    ensures a in ActiveIds(s') <==> a in ActiveIds(s) || a == agentId
  {
    if a in s.owned {
      assert s.owned[a] < |s.runs| && s'.runs[s.owned[a]] == s.runs[s.owned[a]];
    }
  }

  /** A spawn is admitted only below the limit, and afterwards the limit still holds. */
  lemma {:induction false} SpawnRespectsLimit(s: State, agentId: string, prompt: Message, depth: int, callback: bool,
      profileKnown: bool)
    requires MapOk(s) && agentId !in s.owned && SpawnRefusal(s, depth, profileKnown).None?
    ensures var s' := Next(s, SpawnCall(agentId, prompt, depth, callback, profileKnown));
            ActiveRuns(s') == ActiveRuns(s) + 1 <= s.limits.maxActive
  {
    var c := Ctx(s.phase, s.session, s.generation, true, s.clock);
    var r := Spawned(c, agentId, callback, prompt).run;
    OneMoreActive(s, Spawn(s, agentId, prompt, callback), agentId, r) by {
      hide ActiveIds, ActiveRuns, SpawnRefusal;
    }
    hide ActiveIds;
  }

  /** An event begins a new launch of a settled run. */
  ghost predicate Reopens(s: State, e: Event, i: nat)
    requires Enabled(s, e)
  {
    i < |s.runs| && i < |Next(s, e).runs| && Restarts(s.runs[i], Next(s, e).runs[i]) && s.runs[i].done
  }

  ghost predicate NoneReopened(s: State, e: Event)
    requires Enabled(s, e)
  {
    forall i :: !Reopens(s, e, i)
  }

  /** Without a spawn and without a launch of a settled run, nobody becomes active. */
  lemma {:induction false} NobodyActivated(s: State, e: Event, a: string)
    requires Inv(s) && Enabled(s, e) && Inv(Next(s, e)) && !e.SpawnCall? && NoneReopened(s, e)
    ensures a in ActiveIds(Next(s, e)) ==> a in ActiveIds(s)
  {
    var s' := Next(s, e);
    if a in ActiveIds(s') {
      var i := s'.owned[a];
      assert s'.runs[i].snapshot.agentId == a;
      if i < |s.runs| {
        DoneStep(s, e, i);
        assert !Reopens(s, e, i);
        StillMapped(s, e, i);
        hide Inv, Next, Enabled;
      } else {
        NewIsSettled(s, e, i);
      }
    }
  }

  lemma {:induction false} StillMapped(s: State, e: Event, i: nat)
    requires Inv(s) && Enabled(s, e) && i < |s.runs|
    ensures i < |Next(s, e).runs| && Next(s, e).runs[i].snapshot.agentId == s.runs[i].snapshot.agentId
    ensures Mapped(Next(s, e), i) ==> Mapped(s, i)
  {
    var out := NextAdvances(s, e);
    assert RunAdvances(s, Next(s, e), Touched(s, e), out, i);
    hide Inv, Next, Enabled, Touched, Mapped;
    if Mapped(Next(s, e), i) {
      MapShrinks(s, e, i);
    }
  }

  lemma {:induction false} NewIsSettled(s: State, e: Event, i: nat)
    requires Enabled(s, e) && !e.SpawnCall? && |s.runs| <= i < |Next(s, e).runs|
    ensures Next(s, e).runs[i].done
  {
    hide AcquireTurn, HolderTurn, TaskSegment, SpawnReported, Abandoned, Replaced, CloseMarked, CloseFinished,
         InputFresh;
    if e.Restore? && s.phase == Open {
      RestoredIsDone(s, e.items, i);
    }
  }

  lemma {:induction false} RestoredIsDone(s: State, items: seq<Item>, i: nat)
    requires |s.runs| <= i < |RestoreAll(s, items).runs|
    ensures RestoreAll(s, items).runs[i].done
  {
    RestoredRunSettled(s.session, s.generation, s.clock, items, i - |s.runs|);
  }

  lemma {:induction false} NoMoreActive(s: State, s': State)
    requires forall a | a in ActiveIds(s') :: a in ActiveIds(s)
    ensures ActiveRuns(s') <= ActiveRuns(s)
  {
    hide ActiveIds;
    assert ActiveIds(s') <= ActiveIds(s);
    Smaller(ActiveIds(s'), ActiveIds(s));
  }

  lemma {:induction false} Smaller(a: set<string>, b: set<string>)
    requires a <= b
    ensures |a| <= |b|
  {
    assert b == a + (b - a);
  }

  lemma {:induction false} ActiveStep(s: State, e: Event)
    requires Inv(s) && Enabled(s, e) && NoneReopened(s, e)
    ensures ActiveRuns(Next(s, e)) <= ActiveRuns(s) || ActiveRuns(Next(s, e)) <= s.limits.maxActive
    ensures Next(s, e).limits == s.limits
  {
    SameLimits(s, e);
    hide Inv, Enabled, Next, ActiveIds, ActiveRuns, NoneReopened;
    if e.SpawnCall? {
      SpawnStep(s, e);
    } else {
      NextKeeps(s, e);
      forall a | a in ActiveIds(Next(s, e)) ensures a in ActiveIds(s) {
        NobodyActivated(s, e, a);
      }
      NoMoreActive(s, Next(s, e));
    }
  }

  lemma {:induction false} SpawnStep(s: State, e: Event)
    requires Inv(s) && Enabled(s, e) && e.SpawnCall?
    ensures ActiveRuns(Next(s, e)) <= ActiveRuns(s) || ActiveRuns(Next(s, e)) <= s.limits.maxActive
  {
    hide ActiveRuns, RunInv, SlotHolders;
    if SpawnRefusal(s, e.depth, e.profileKnown).None? {
      SpawnRespectsLimit(s, e.agentId, e.prompt, e.depth, e.callback, e.profileKnown);
    }
    hide Spawn, SpawnRefusal;
  }

  lemma {:induction false} SameLimits(s: State, e: Event)
    requires Enabled(s, e)
    ensures Next(s, e).limits == s.limits
  {
    hide AcquireTurn, HolderTurn, TaskSegment, SpawnReported, Abandoned, Replaced, CloseMarked, CloseFinished,
         InputFresh;
    hide CanTake, Adopted, Index, Shift, CtxOf, Mapped;
  }

  /** Event `j` begins a new launch of the settled run `i`. */
  ghost predicate Relaunched(states: seq<State>, j: nat, i: nat)
    requires j + 1 < |states|
  {
    i < |states[j].runs| && states[j].runs[i].done && RestartedAt(states, j, i)
  }

  /** The most active agents that spawning alone can bring about. */
  function Cap(limits: Limits): nat {
    if limits.maxActive < 0 then 0 else limits.maxActive
  }

  /** A step goes beyond the limit exactly if it launches a settled run again while the active
      agents stand at the limit. */
  lemma {:induction false} CrossingStep(s: State, e: Event)
    requires Inv(s) && Enabled(s, e) && ActiveRuns(s) <= Cap(s.limits)
    ensures ActiveRuns(Next(s, e)) > Cap(s.limits) <==>
            ActiveRuns(s) == Cap(s.limits) && exists i :: Reopens(s, e, i)
  {
    if i :| Reopens(s, e, i) {
      hide Inv, Enabled, Next, ActiveRuns, Reopens;
      RestartIgnoresLimit(s, e, i);
    } else {
      assert NoneReopened(s, e);
      hide Inv, Enabled, Next, ActiveRuns, Reopens, NoneReopened;
      ActiveStep(s, e);
    }
  }

  /** Event `j` launches a settled run again while the active agents stand at the limit. */
  ghost predicate LaunchAtLimit(states: seq<State>, j: nat, cap: nat)
    requires j + 1 < |states|
  {
    ActiveRuns(states[j]) == cap && exists i :: Relaunched(states, j, i)
  }

  /** In every execution from the start: the step out of a state within the limit leads beyond it
      exactly if it is such a launch. */
  lemma {:induction false} CrossesLimitIff(limits: Limits, session: string, env: string, cwd: string, now: int,
      events: seq<Event>, states: seq<State>, n: nat)
    requires Execution(Init(limits, session, env, cwd, now), events, states) && n < |events|
    requires ActiveRuns(states[n]) <= Cap(limits)
    ensures ActiveRuns(states[n + 1]) > Cap(limits) <==> LaunchAtLimit(states, n, Cap(limits))
  {
    hide Inv, Enabled, Next, ActiveIds, ActiveRuns, Cap, Reopens, Relaunched;
    LimitsStay(Init(limits, session, env, cwd, now), events, states, n);
    InitInv(limits, session, env, cwd, now);
    ExecutionInv(Init(limits, session, env, cwd, now), events, states, n);
    assert Linked(events, states, n);
    CrossingStep(states[n], events[n]);
    forall i ensures Reopens(states[n], events[n], i) <==> Relaunched(states, n, i) {
      SameRelaunch(events, states, n, i);
    }
  }

  lemma {:induction false} LimitsStay(s: State, events: seq<Event>, states: seq<State>, n: nat)
    requires Execution(s, events, states) && n < |states|
    ensures states[n].limits == s.limits
  {
    hide Enabled, Next;
    if n > 0 {
      LimitsStay(s, events, states, n - 1);
      assert Linked(events, states, n - 1);
      SameLimits(states[n - 1], events[n - 1]);
    }
  }

  lemma {:induction false} SameRelaunch(events: seq<Event>, states: seq<State>, n: nat, i: nat)
    requires |states| == |events| + 1 && n < |events| && Linked(events, states, n)
    ensures Reopens(states[n], events[n], i) <==> Relaunched(states, n, i)
  {
    hide Enabled, Next, Restarts;
  }

  /** In every execution from the start: the limit has been exceeded at some time exactly if some
      settled run was launched again while the active agents stood at the limit. */
  lemma {:induction false} LimitExceededIff(limits: Limits, session: string, env: string, cwd: string, now: int,
      events: seq<Event>, states: seq<State>, n: nat)
    requires Execution(Init(limits, session, env, cwd, now), events, states) && n < |states|
    ensures (exists k: nat | k <= n :: ActiveRuns(states[k]) > Cap(limits))
            <==> exists j: nat | j < n :: LaunchAtLimit(states, j, Cap(limits))
  {
    hide Execution, ActiveRuns, Cap, LaunchAtLimit;
    var cap := Cap(limits);
    if n == 0 {
      assert ActiveRuns(states[0]) == 0 by { StartsIdle(limits, session, env, cwd, now, events, states); }
    } else {
      LimitExceededIff(limits, session, env, cwd, now, events, states, n - 1);
      if ActiveRuns(states[n - 1]) <= cap {
        assert n - 1 < |events| by { StatesCount(Init(limits, session, env, cwd, now), events, states); }
        CrossesLimitIff(limits, session, env, cwd, now, events, states, n - 1);
      }
    }
  }

  lemma {:induction false} StatesCount(s: State, events: seq<Event>, states: seq<State>)
    requires Execution(s, events, states)
    ensures |states| == |events| + 1
  {
    hide Linked;
  }

  lemma {:induction false} StartsIdle(limits: Limits, session: string, env: string, cwd: string, now: int,
      events: seq<Event>, states: seq<State>)
    requires Execution(Init(limits, session, env, cwd, now), events, states)
    ensures ActiveRuns(states[0]) == 0
  {
    hide Linked, ActiveRuns;
    NoneActive(states[0]);
  }

  lemma {:induction false} NoneActive(s: State)
    requires s.owned == map[]
    ensures ActiveRuns(s) == 0
  {
    assert ActiveIds(s) == {};
  }

  lemma {:induction false} ControlKept(s: State, e: Event, i: nat)
    requires Enabled(s, e) && i < |s.runs| && !e.Acquire? && !e.Resume?
    ensures i < |Next(s, e).runs| && Next(s, e).runs[i].control == s.runs[i].control
  {
    if e.Abandon? || e.Restore? || e.CloseMark? || e.CloseFinish? {
      ControlKeptByAll(s, e, i);
      hide *;
    } else if e.SpawnReport? || e.TaskRuns? || e.WaitCall? {
      ControlKeptByOne(s, e, i);
      hide *;
    }
  }

  lemma {:induction false} ControlKeptByOne(s: State, e: Event, i: nat)
    requires Enabled(s, e) && i < |s.runs| && (e.SpawnReport? || e.TaskRuns? || e.WaitCall?)
    ensures i < |Next(s, e).runs| && Next(s, e).runs[i].control == s.runs[i].control
  {
    hide TaskSegment, SpawnReported, Fence, CanTake, Live, Enters, Leaves;
    match e
    case SpawnReport(_, raised) => SpawnReportDone(CtxOf(s, i), s.runs[i], raised);
    case TaskRuns(j, k, choice) => if j == i { TaskDone(CtxOf(s, i), s.runs[i], k, choice); }
    case WaitCall(_) => SwitchDone(CtxOf(s, i), s.runs[i], "");
  }

  lemma {:induction false} ControlKeptByAll(s: State, e: Event, i: nat)
    requires Enabled(s, e) && i < |s.runs| && (e.Abandon? || e.Restore? || e.CloseMark? || e.CloseFinish?)
    ensures i < |Next(s, e).runs| && Next(s, e).runs[i].control == s.runs[i].control
  {
    hide Abandoned, Replaced, CloseMarked, CloseFinished, Adopted, Index, Shift, Live;
    match e
    case Restore(_) => SwitchDone(CtxOf(s, i), s.runs[i], "");
    case Abandon(reason) => SwitchDone(CtxOf(s, i), s.runs[i], reason);
    case CloseMark | CloseFinish => CloseDone(CtxOf(s, i), s.runs[i]);
  }

  lemma {:induction false} OneMoreUnsettled(s: State, s': State, i: nat, r: Run)
    requires MapOk(s) && i < |s.runs| && Mapped(s, i) && s.runs[i].done && !r.done
    requires s'.runs == s.runs[i := r] && s'.owned == s.owned
    ensures ActiveRuns(s') == ActiveRuns(s) + 1
  {
    var a := s.runs[i].snapshot.agentId;
    forall b ensures b in ActiveIds(s') <==> b in ActiveIds(s) || b == a {
      if b in s.owned && b != a {
        assert s.runs[s.owned[b]].snapshot.agentId == b;
      }
    }
    assert a !in ActiveIds(s);
    hide ActiveIds, MapOk;
    assert ActiveIds(s') == ActiveIds(s) + {a};
  }

  lemma {:induction false} TurnChangesOne(s: State, e: Event, i: nat)
    requires Enabled(s, e) && (e.Acquire? || e.Resume?) && i < |s.runs|
    ensures i < |Next(s, e).runs| && Next(s, e).owned == s.owned
    ensures Next(s, e).runs[i] != s.runs[i] ==> Next(s, e).runs == s.runs[i := Next(s, e).runs[i]]
  {
    hide AcquireTurn, HolderTurn, InputFresh, Live;
  }

  /** Such a launch adds one, whatever the limit. */
  lemma {:induction false} RestartIgnoresLimit(s: State, e: Event, i: nat)
    requires Inv(s) && Enabled(s, e) && Reopens(s, e, i)
    ensures ActiveRuns(Next(s, e)) == ActiveRuns(s) + 1
  {
    DoneStep(s, e, i);
    if e.Acquire? || e.Resume? {
      TurnChangesOne(s, e, i);
      hide ActiveRuns, Next, Enabled, RunInv, SlotHolders;
      OneMoreUnsettled(s, Next(s, e), i, Next(s, e).runs[i]);
    } else {
      ControlKept(s, e, i);
      hide *;
    }
  }

  // ----- new epochs while a callback is undelivered -----

  /** The run has ended and its callback waits to be delivered. */
  predicate Undelivered(r: Run) {
    Terminal(r.snapshot.status) && r.snapshot.callbackEnabled
    && (r.snapshot.callbackState.Pending? || r.snapshot.callbackState.Injected?)
  }

  lemma {:induction false} EpochOfAcquire(c: Ctx, r: Run, op: OpId, request: Request)
    requires Undelivered(r)
    ensures AcquireTurn(c, r, op, request).run.snapshot.callbackEpoch == r.snapshot.callbackEpoch
  {
    if request.Input? {
      EpochOfInput(c, r, op, request.input);
    }
    hide InputAcquired, Current;
  }

  lemma {:induction false} EpochOfInput(c: Ctx, r: Run, op: OpId, q: InputRequest)
    requires Undelivered(r)
    ensures InputAcquired(c, r, op, q).run.snapshot.callbackEpoch == r.snapshot.callbackEpoch
  {
    RestartAfterFence(c, r, op, q, Repeats(r, q));
    hide Answered, Repeats, Current, WriteTranscript;
  }

  lemma {:induction false} EpochOfHolder(c: Ctx, r: Run, raised: bool)
    requires r.control.Held? && !r.control.at.InputAwait?
    ensures HolderTurn(c, r, raised).run.snapshot.callbackEpoch == r.snapshot.callbackEpoch
  {
    hide CancelAwaited, CancelReported, CancelCompleted, InputAwaited, InputReported;
    match r.control.at
    case CancelAwait | CancelReport => EpochOfCancel(c, r, r.control.op, raised);
    case CancelComplete(failed) => EpochOfCancel(c, r, r.control.op, failed);
    case InputReport => EpochOfReport(c, r, raised);
  }

  lemma {:induction false} EpochOfCancel(c: Ctx, r: Run, op: OpId, raised: bool)
    ensures CancelAwaited(c, r, op).run.snapshot.callbackEpoch == r.snapshot.callbackEpoch
    ensures CancelReported(c, r, op, raised).run.snapshot.callbackEpoch == r.snapshot.callbackEpoch
    ensures CancelCompleted(r, raised).run.snapshot.callbackEpoch == r.snapshot.callbackEpoch
  {
    hide Current, WriteTranscript, Strip, EmitCompletion, HasTask;
  }

  lemma {:induction false} EpochOfReport(c: Ctx, r: Run, raised: bool)
    ensures InputReported(c, r, raised).run.snapshot.callbackEpoch == r.snapshot.callbackEpoch
  {
    hide Current;
  }

  lemma {:induction false} EpochOfTask(c: Ctx, r: Run, k: nat, choice: TaskChoice)
    requires CanTake(r, k, choice)
    ensures TaskSegment(c, r, k, choice).run.snapshot.callbackEpoch == r.snapshot.callbackEpoch
  {
    if choice.Advance? {
      EpochOfAdvance(c, r, k);
    }
    hide AdvanceTask, Current, WriteTranscript, Strip, CapturePartial, DropChunks, Keep, FreshFor;
  }

  lemma {:induction false} EpochOfAdvance(c: Ctx, r: Run, k: nat)
    requires CanTake(r, k, Advance)
    ensures AdvanceTask(c, r, k).run.snapshot.callbackEpoch == r.snapshot.callbackEpoch
  {
    if r.tasks[k].pc.NotStarted? || r.tasks[k].pc.WaitingStart? || r.tasks[k].pc.WaitingSlot? {
      EpochOfQueued(c, r, k);
    }
    hide AdvanceQueued, Current, EmitCompletion;
  }

  lemma {:induction false} EpochOfQueued(c: Ctx, r: Run, k: nat)
    requires k < |r.tasks| && (r.tasks[k].pc.NotStarted? || r.tasks[k].pc.WaitingStart? || r.tasks[k].pc.WaitingSlot?)
    ensures AdvanceQueued(c, r, k).run.snapshot.callbackEpoch == r.snapshot.callbackEpoch
  {
    hide Current, WriteTranscript, Strip;
  }

  lemma {:induction false} EpochOfSwitch(c: Ctx, r: Run, reason: string, raised: bool)
    ensures SpawnReported(c, r, raised).snapshot.callbackEpoch == r.snapshot.callbackEpoch
    ensures Abandoned(c, r, reason).snapshot.callbackEpoch == r.snapshot.callbackEpoch
    ensures Replaced(r).snapshot.callbackEpoch == r.snapshot.callbackEpoch
    ensures CloseMarked(c.mapped, r).snapshot.callbackEpoch == r.snapshot.callbackEpoch
    ensures CloseFinished(c, r).snapshot.callbackEpoch == r.snapshot.callbackEpoch
  {
    hide Current, WriteTranscript, Strip;
  }

  lemma {:induction false} EpochOfBulk(s: State, e: Event, i: nat)
    requires Enabled(s, e) && i < |s.runs|
    requires e.SpawnReport? || e.Abandon? || e.Restore? || e.CloseMark? || e.CloseFinish?
    ensures i < |Next(s, e).runs| && Next(s, e).runs[i].snapshot.callbackEpoch == s.runs[i].snapshot.callbackEpoch
  {
    if e.CloseMark? || e.CloseFinish? {
      EpochOfClose(s, e, i);
      hide *;
    } else if e.SpawnReport? {
      EpochOfSpawn(s, e, i);
      hide *;
    } else {
      EpochOfReplacement(s, e, i);
      hide *;
    }
  }

  lemma {:induction false} EpochOfClose(s: State, e: Event, i: nat)
    requires Enabled(s, e) && i < |s.runs| && (e.CloseMark? || e.CloseFinish?)
    ensures i < |Next(s, e).runs| && Next(s, e).runs[i].snapshot.callbackEpoch == s.runs[i].snapshot.callbackEpoch
  {
    hide CloseMarked, CloseFinished, Mapped;
    EpochOfSwitch(CtxOf(s, i), s.runs[i], "", false);
  }

  lemma {:induction false} EpochOfSpawn(s: State, e: Event, i: nat)
    requires Enabled(s, e) && i < |s.runs| && e.SpawnReport?
    ensures i < |Next(s, e).runs| && Next(s, e).runs[i].snapshot.callbackEpoch == s.runs[i].snapshot.callbackEpoch
  {
    hide SpawnReported, Mapped;
    EpochOfSwitch(CtxOf(s, i), s.runs[i], "", e.raised);
  }

  lemma {:induction false} EpochOfReplacement(s: State, e: Event, i: nat)
    requires Enabled(s, e) && i < |s.runs| && (e.Abandon? || e.Restore?)
    ensures i < |Next(s, e).runs| && Next(s, e).runs[i].snapshot.callbackEpoch == s.runs[i].snapshot.callbackEpoch
  {
    hide Abandoned, Replaced, Adopted, Index, Shift, Live, Mapped;
    EpochOfSwitch(CtxOf(s, i), s.runs[i], if e.Abandon? then e.reason else "", false);
  }

  lemma {:induction false} EpochOfQuiet(s: State, e: Event, i: nat)
    requires Enabled(s, e) && i < |s.runs|
    requires e.SpawnCall? || e.SpawnReap? || e.Call? || e.WaitCall? || e.UpdateSession? || e.CloseCall?
             || e.MarkInjected? || e.MarkDelivered? || e.Tick?
    ensures i < |Next(s, e).runs| && Next(s, e).runs[i].snapshot.callbackEpoch == s.runs[i].snapshot.callbackEpoch
  {
    hide Current, ActiveRuns, Blank, SwitchesContext, CtxOf, Live;
  }

  lemma {:induction false} EpochOfTurn(s: State, e: Event, i: nat)
    requires Enabled(s, e) && i < |s.runs| && Undelivered(s.runs[i]) && (e.Acquire? || e.Resume? || e.TaskRuns?)
    requires e.Resume? && e.run == i ==> s.runs[i].control.Held? && !s.runs[i].control.at.InputAwait?
    ensures i < |Next(s, e).runs| && Next(s, e).runs[i].snapshot.callbackEpoch == s.runs[i].snapshot.callbackEpoch
  {
    hide AcquireTurn, HolderTurn, TaskSegment, CanTake, InputFresh, Live, Enters, Leaves, Undelivered;
    if Touched(s, e) == i {
      match e
      case Acquire(op) => EpochOfAcquire(CtxOf(s, i), s.runs[i], op, s.waiting[op].request);
      case Resume(_, raised) => EpochOfHolder(CtxOf(s, i), s.runs[i], raised);
      case TaskRuns(_, k, choice) => EpochOfTask(CtxOf(s, i), s.runs[i], k, choice);
    }
  }

  /** An input that interrupted the run's task goes on after the task has finished, and the run is
      still the manager's own. */
  predicate GoesOn(s: State, e: Event, i: nat)
    requires i < |s.runs|
  {
    e.Resume? && e.run == i && s.runs[i].control.Held? && s.runs[i].control.at.InputAwait? && IsCurrent(s, i)
  }

  lemma {:induction false} EpochOfInterrupt(c: Ctx, r: Run, raised: bool)
    requires r.control.Held? && r.control.at.InputAwait? && r.snapshot.callbackEnabled
    ensures HolderTurn(c, r, raised).run.snapshot.callbackEpoch
            == r.snapshot.callbackEpoch + if Current(c, r) then 1 else 0
  {
    hide Current, WriteTranscript;
  }

  lemma {:induction false} EpochOfResume(s: State, i: nat, raised: bool)
    requires Enabled(s, Resume(i, raised)) && s.runs[i].control.at.InputAwait? && s.runs[i].snapshot.callbackEnabled
    ensures i < |Next(s, Resume(i, raised)).runs|
    ensures Next(s, Resume(i, raised)).runs[i].snapshot.callbackEpoch
            == s.runs[i].snapshot.callbackEpoch + if IsCurrent(s, i) then 1 else 0
  {
    hide Current, HolderTurn, CtxOf, Live;
    EpochOfInterrupt(CtxOf(s, i), s.runs[i], raised);
  }

  /** In every execution: a run that has ended with its callback undelivered starts a new epoch, by
      one, exactly when an input that had interrupted its task before it ended goes on and finds it
      current. No other step of any operation moves the epoch. */
  lemma {:induction false} NewEpochIff(s: State, events: seq<Event>, states: seq<State>, n: nat, i: nat)
    requires Inv(s) && Execution(s, events, states) && n < |events| && i < |states[n].runs|
    requires Undelivered(states[n].runs[i])
    ensures i < |states[n + 1].runs|
    ensures states[n + 1].runs[i].snapshot.callbackEpoch
            == states[n].runs[i].snapshot.callbackEpoch + if GoesOn(states[n], events[n], i) then 1 else 0
  {
    assert Linked(events, states, n);
    hide Inv, Next, Enabled, Undelivered, Evolves, GoesOn;
    RunEvolves(s, events, states, n, n + 1, i);
    EpochStep(states[n], events[n], i);
  }

  lemma {:induction false} EpochStep(s: State, e: Event, i: nat)
    requires Enabled(s, e) && i < |s.runs| && i < |Next(s, e).runs| && Undelivered(s.runs[i])
    ensures Next(s, e).runs[i].snapshot.callbackEpoch
            == s.runs[i].snapshot.callbackEpoch + if GoesOn(s, e, i) then 1 else 0
  {
    assert s.runs[i].snapshot.callbackEnabled;
    if e.Resume? {
      HolderIsHeld(s, e);
    }
    hide Enabled, Next, Undelivered, IsCurrent;
    match e
    case Acquire(_) | TaskRuns(_, _, _) => EpochOfTurn(s, e, i);
    case Resume(j, raised) =>
      if j == i && s.runs[i].control.at.InputAwait? {
        EpochOfResume(s, i, raised);
      } else {
        EpochOfTurn(s, e, i);
      }
    case SpawnReport(_, _) | Abandon(_) | Restore(_) | CloseMark | CloseFinish => EpochOfBulk(s, e, i);
    case _ => EpochOfQuiet(s, e, i);
  }

  lemma {:induction false} HolderIsHeld(s: State, e: Event)
    requires Enabled(s, e) && e.Resume?
    ensures e.run < |s.runs| && s.runs[e.run].control.Held?
  {
  }

  // ----- late reports -----

  /** Once a run has left an epoch, a report about that epoch never changes anything again. */
  lemma {:induction false} LateReportIsIgnored(s: State, events: seq<Event>, states: seq<State>, m: nat, n: nat, i: nat,
      agentId: string, session: string, messageId: string, epoch: nat)
    requires Inv(s) && Execution(s, events, states) && m <= n < |events| && i < |states[m].runs|
    requires epoch < states[m].runs[i].snapshot.callbackEpoch
    requires agentId in states[n].owned && states[n].owned[agentId] == i
    requires events[n] == MarkInjected(agentId, session, messageId, epoch)
             || events[n] == MarkDelivered(agentId, session, epoch)
    ensures states[n + 1] == states[n]
  {
    RunEvolves(s, events, states, m, n, i);
    assert Linked(events, states, n);
    hide Inv, TasksEvolve;
  }
}
