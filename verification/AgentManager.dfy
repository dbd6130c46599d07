/** The manager object: its fields, and one method per await-free segment of its operations.
    Each method is proved to move the state exactly as `Next` does. */
module AgentManager {
  import opened Common
  import opened StreamText
  import opened AgentModel
  import opened AgentInvariant
  import opened AgentRestore
  import opened AgentRuntime
  import opened AgentDone
  import opened AgentExecution
  import opened AgentLedger
  import opened AgentOutcome
  import opened AgentSteps
  import opened AgentSettlement
  import opened AgentEdges

  /** Every run in the map is settled, and those that were not are not current any more. */
  ghost predicate AllAbandoned(s: State, s': State) {
    && |s'.runs| == |s.runs|
    && (forall i | 0 <= i < |s'.runs| && Mapped(s', i) :: s'.runs[i].done)
    && (forall i | 0 <= i < |s'.runs| && !s.runs[i].done :: !IsCurrent(s', i))
  }

  /** Every earlier run is settled and out of the map; every new one is settled and has no task. */
  ghost predicate AllReplaced(s: State, s': State) {
    && |s.runs| <= |s'.runs|
    && (forall i | 0 <= i < |s.runs| :: s'.runs[i].done && !Mapped(s', i))
    && (forall i | |s.runs| <= i < |s'.runs| :: s'.runs[i].done && s'.runs[i].tasks == [])
  }

  ghost predicate NoneCurrent(s: State) {
    forall i | 0 <= i < |s.runs| :: !IsCurrent(s, i)
  }

  ghost predicate SameCurrent(s: State, s': State) {
    |s'.runs| == |s.runs| && forall i | 0 <= i < |s.runs| :: IsCurrent(s', i) == IsCurrent(s, i)
  }

  class Manager {
    const limits: Limits
    var clock: int
    var runs: seq<Run>
    var owned: map<string, nat>
    var waiting: map<OpId, Waiter>
    var replies: map<OpId, Reply>
    var session: string
    var env: string
    var cwd: string
    var generation: nat
    var phase: Phase
    var slots: nat
    var log: seq<Entry>

    function View(): State
      reads this
    {
      State(limits, clock, runs, owned, waiting, replies, session, env, cwd, generation, phase, slots, log)
    }

    /** The invariant of all executions: who is settled, who owns a task, what the lock holders
        rely on, the histories, the semaphore count and the log. */
    ghost predicate Valid()
      reads this
    {
      Inv(View()) && LogInv(View())
    }

    constructor (limits: Limits, session: string, env: string, cwd: string, now: int)
      ensures Valid() && View() == Init(limits, session, env, cwd, now)
      ensures this.limits == limits
    {
      this.limits := limits;
      clock, generation, phase := now, 0, Open;
      runs, owned, waiting, replies, log := [], map[], map[], map[], [];
      this.session, this.env, this.cwd := session, env, cwd;
      slots := Capacity(limits);
      new;
      InitInv(limits, session, env, cwd, now);
      InitLog(limits, session, env, cwd, now);
    }

    /** Store a changed run and log what its segment handed out. */
    method Store(i: nat, r: Run, out: seq<Output>)
      requires i < |runs|
      modifies this`runs, this`log
      ensures View() == Put(old(View()), i, r, out)
    {
      runs := runs[i := r];
      log := log + Tag(i, out);
    }

    // ----- spawn_agent -----

    method CountActive() returns (n: nat)
      ensures n == ActiveRuns(View())
    {
      n := 0;
      var rest := owned.Keys;
      ghost var counted: set<string> := {};
      while rest != {}
        invariant rest <= owned.Keys && n == |counted|
        invariant forall a :: a in counted <==> a in ActiveIds(View()) && a !in rest
        decreases rest
      {
        var a :| a in rest;
        rest := rest - {a};
        if owned[a] < |runs| && !runs[owned[a]].done {
          n := n + 1;
          counted := counted + {a};
        }
      }
      assert counted == ActiveIds(View());
    }

    method SpawnAgent(agentId: string, prompt: Message, depth: int, callback: bool, profileKnown: bool)
      returns (error: Option<SpawnError>)
      requires Valid() && agentId !in owned
      modifies this
      ensures Valid() && View() == Next(old(View()), SpawnCall(agentId, prompt, depth, callback, profileKnown))
      ensures error == SpawnRefusal(old(View()), depth, profileKnown)
      ensures if error.Some? then View() == old(View())
              else ActiveRuns(View()) == ActiveRuns(old(View())) + 1 <= limits.maxActive
    {
      error := Reserve(agentId, prompt, depth, callback, profileKnown);
      ManagerKeeps(old(View()), SpawnCall(agentId, prompt, depth, callback, profileKnown));
      if error.None? {
        SpawnRespectsLimit(old(View()), agentId, prompt, depth, callback, profileKnown);
      }
      hide Inv, LogInv, ActiveRuns, Spawn, SpawnRefusal;
    }

    /** The five refusals, and the reservation under the manager's lock. */
    method Reserve(agentId: string, prompt: Message, depth: int, callback: bool, profileKnown: bool)
      returns (error: Option<SpawnError>)
      requires agentId !in owned
      modifies this
      ensures View() == Next(old(View()), SpawnCall(agentId, prompt, depth, callback, profileKnown))
      ensures error == SpawnRefusal(old(View()), depth, profileKnown)
    {
      if phase != Open {
        return Some(ManagerClosed);
      }
      if session == "" {
        return Some(NoSession);
      }
      if depth > limits.maxDepth {
        return Some(TooDeep);
      }
      var active := CountActive();
      if active >= limits.maxActive {
        return Some(TooMany);
      }
      if !profileKnown {
        return Some(UnknownProfile);
      }
      var run := NewRun(Ctx(phase, session, generation, true, clock), agentId, prompt, callback);
      log := log + Tag(|runs|, [StateEvent(Queued)]);
      owned := owned[agentId := |runs|];
      runs := runs + [run];
      error := None;
      hide AgentModel.Spawned, ActiveRuns;
    }

    static method NewRun(c: Ctx, agentId: string, prompt: Message, callback: bool) returns (run: Run)
      requires c.phase == Open && c.mapped && c.session != ""
      ensures Effect(run, [StateEvent(Queued)]) == AgentModel.Spawned(c, agentId, callback, prompt)
    {
      var snapshot := Snapshot(agentId, c.session, Queued, c.now, c.now, None, "", "", callback,
                               if callback then Pending else CallbackDisabled, None, 0);
      run := Run(snapshot, c.generation, [prompt], [], "", false, false, false, false, [], Free, SpawnReporting);
      run := run.(tasks := [NewTask()]);
    }

    /** The queued event was consumed, or its delivery failed. */
    method SpawnContinues(i: nat, raised: bool)
      requires Valid() && Enabled(View(), SpawnReport(i, raised))
      modifies this
      ensures Valid() && View() == Next(old(View()), SpawnReport(i, raised))
      ensures runs[i].started
      ensures if !raised && SpawnValid(CtxOf(old(View()), i), old(runs[i])) then runs[i].tasks == old(runs[i].tasks)
              else runs[i].done && runs[i].detached && !Mapped(View(), i)
    {
      ghost var s := View();
      hide Inv, LogInv;
      ManagerKeeps(s, SpawnReport(i, raised));
      SpawnOutcome(s, i, raised);
      ReleaseSpawn(i, raised);
      hide ReportSpawn, SpawnValid;
    }

    /** A spawn releases its task only if the run is still its own; else it leaves a settled,
        detached run behind. */
    static lemma {:induction false} SpawnOutcome(s: State, i: nat, raised: bool)
      requires Enabled(s, SpawnReport(i, raised))
      ensures var s' := Next(s, SpawnReport(i, raised));
              s'.runs[i].started
              && if !raised && SpawnValid(CtxOf(s, i), s.runs[i]) then s'.runs[i].tasks == s.runs[i].tasks
                 else s'.runs[i].done && s'.runs[i].detached && !Mapped(s', i)
    {
      var c, r := CtxOf(s, i), s.runs[i];
      assert SpawnReported(c, r, raised).snapshot == r.snapshot;
      assert raised || !SpawnValid(c, r) <==> SpawnReported(c, r, raised).spawn.SpawnReaping?;
      SpawnedRun(c, r, raised);
      hide SpawnReported, SpawnValid;
    }

    static lemma {:induction false} SpawnedRun(c: Ctx, r: Run, raised: bool)
      requires HasTask(r)
      ensures var r' := SpawnReported(c, r, raised);
              r'.started && if !raised && SpawnValid(c, r) then r'.tasks == r.tasks else r'.done && r'.detached
    {
    }

    method ReleaseSpawn(i: nat, raised: bool)
      requires Enabled(View(), SpawnReport(i, raised))
      modifies this
      ensures View() == Next(old(View()), SpawnReport(i, raised))
    {
      var run, valid := SettleSpawn(CtxOf(View(), i), runs[i], raised);
      if !valid && Mapped(View(), i) {
        owned := owned - {run.snapshot.agentId};
      }
      runs := runs[i := run];
      assert log + Tag(i, []) == log;
    }

    static method SettleSpawn(c: Ctx, r: Run, raised: bool) returns (run: Run, valid: bool)
      requires HasTask(r)
      ensures run == SpawnReported(c, r, raised) && run.snapshot == r.snapshot
      ensures valid <==> !run.spawn.SpawnReaping?
    {
      valid := !raised && c.mapped && !r.detached && c.phase == Open
               && r.snapshot.sessionId == c.session && r.generation == c.generation;
      run := r.(started := true);
      if valid {
        run := run.(spawn := SpawnOver);
      } else {
        run := run.(cancelled := true);
        run := run.(detached := true);
        run := run.(done := true, spawn := SpawnReaping(|run.tasks| - 1));
        run := CancelTask(run);
      }
    }

    // ----- cancel_agent and send_input -----

    /** The checks both operations make before queueing for the control lock. */
    method CallAgent(op: OpId, agentId: string, request: Request) returns (accepted: bool)
      requires Valid() && Enabled(View(), Call(op, agentId, request))
      modifies this`waiting, this`replies
      ensures Valid() && View() == Next(old(View()), Call(op, agentId, request))
      ensures accepted <==> op in replies && replies[op] == Suspended
    {
      hide Inv, LogInv;
      ManagerKeeps(View(), Call(op, agentId, request));
      if phase != Open || !Visible(View(), agentId) {
        replies := replies[op := Returned(false)];
        return false;
      }
      if request.Input? && Blank(request.input.prompt) {
        replies := replies[op := Returned(false)];
        return false;
      }
      replies := replies[op := Suspended];
      waiting := waiting[op := Waiter(owned[agentId], request)];
      accepted := true;
    }

    /** A waiting caller gets the control lock of its run. */
    method AcquireControl(op: OpId) returns (reply: Reply)
      requires Valid() && Enabled(View(), Acquire(op))
      modifies this`runs, this`log, this`waiting, this`replies
      ensures Valid() && View() == Next(old(View()), Acquire(op))
      ensures op in replies && reply == replies[op]
    {
      hide Inv, LogInv;
      ManagerKeeps(View(), Acquire(op));
      var w := waiting[op];
      waiting := waiting - {op};
      match w.request {
        case CancelRequest => reply := CancelUnderLock(w.run, op);
        case Input(q) => reply := InputUnderLock(w.run, op, q);
      }
      replies := replies[op := reply];
    }

    method CancelUnderLock(i: nat, op: OpId) returns (reply: Reply)
      requires i < |runs|
      modifies this`runs, this`log
      ensures var t := CancelAcquired(CtxOf(old(View()), i), old(runs[i]), op);
              View() == Put(old(View()), i, t.run, t.out) && reply == t.reply
    {
      var run := runs[i];
      reply := Returned(false);
      if IsCurrent(View(), i) {
        if !Live(run) {
          run := Fence(run);
        } else {
          run := run.(cancelled := true);
          run := run.(started := true);
          run := CancelTask(run);
          run := run.(control := Held(op, CancelAwait));
          reply := Suspended;
        }
      }
      Store(i, run, []);
    }

    method InputUnderLock(i: nat, op: OpId, q: InputRequest) returns (reply: Reply)
      requires i < |runs|
      modifies this`runs, this`log
      ensures var t := InputAcquired(CtxOf(old(View()), i), old(runs[i]), op, q);
              View() == Put(old(View()), i, t.run, t.out) && reply == t.reply
    {
      var run := runs[i];
      var c := CtxOf(View(), i);
      var repeated := q.messageId.Some? && Contains(run.messages, q.messageId.value);
      var out: seq<Output> := [];
      reply := Returned(false);
      if Current(c, run) && !RefusesInput(run, q) {
        if repeated && Answered(run.messages, q.messageId.value, {q.messageId.value}, false) {
          reply := Returned(true);
        } else {
          run := Fence(run);
          if !Live(run) {
            run, out := Relaunch(c, run, op, q, repeated);
            reply := Suspended;
          } else if repeated {
            reply := Returned(true);
          } else if q.interrupt {
            run := run.(cancelled := true, started := true);
            run := CancelTask(run);
            run := run.(control := Held(op, InputAwait(q)));
            reply := Suspended;
          }
        }
      }
      Store(i, run, out);
    }

    /** Append the message and reset the run for a new launch. */
    static method Relaunch(c: Ctx, r: Run, op: OpId, q: InputRequest, repeated: bool)
      returns (run: Run, out: seq<Output>)
      ensures Turn(run, out, Suspended) == Restart(c, r, op, q, repeated)
    {
      var snapshot := RenewSnapshot(c, r.snapshot, repeated);
      var messages := r.messages;
      out := [];
      if !repeated {
        messages := messages + [UserMessage(InputUuid(q), q.prompt)];
        out := [InputAccepted(InputUuid(q), snapshot.callbackEpoch)];
      }
      run := r.(messages := messages, done := false, cancelled := false, detached := false, started := false,
                finalText := "", chunks := [], snapshot := snapshot, control := Held(op, InputReport));
      out := out + WriteTranscript(c, run);
      if Current(c, run) {
        out := out + [StateEvent(Queued)];
      }
      hide Current, WriteTranscript, InputUuid;
    }

    static method RenewSnapshot(c: Ctx, s: Snapshot, repeated: bool) returns (snapshot: Snapshot)
      ensures var cleared := s.(error := "", finalResult := "", finishedAt := None);
              var renewed := if s.callbackEnabled && !repeated
                             then cleared.(callbackEpoch := s.callbackEpoch + 1, callbackState := Pending,
                                           callbackMessageId := None)
                             else cleared;
              snapshot == renewed.(status := Queued, updatedAt := c.now)
    {
      snapshot := s.(error := "");
      snapshot := snapshot.(finalResult := "");
      snapshot := snapshot.(finishedAt := None);
      if snapshot.callbackEnabled && !repeated {
        snapshot := snapshot.(callbackEpoch := snapshot.callbackEpoch + 1);
        snapshot := snapshot.(callbackState := Pending);
        snapshot := snapshot.(callbackMessageId := None);
      }
      snapshot := snapshot.(status := Queued);
      snapshot := snapshot.(updatedAt := c.now);
    }

    /** The holder of a control lock continues after what it awaited. */
    method ContinueControl(i: nat, raised: bool) returns (reply: Reply)
      requires Valid() && Enabled(View(), Resume(i, raised))
      modifies this`runs, this`log, this`replies
      ensures Valid() && View() == Next(old(View()), Resume(i, raised))
      ensures old(runs[i].control.op) in replies && reply == replies[old(runs[i].control.op)]
      ensures reply == Returned(true) && CancelHolder(old(runs[i].control.at)) ==>
                runs[i].done && HasTask(runs[i]) && !Live(runs[i])
      ensures reply == Returned(true) && old(runs[i].control.at) == InputReport ==>
                runs[i].tasks == old(runs[i].tasks) + [NewTask()] && runs[i].started
    {
      ghost var s := View();
      ControlOutcome(s, i, raised);
      hide Inv, LogInv;
      ManagerKeeps(s, Resume(i, raised));
      reply := ResumeControl(i, raised);
      hide HolderTurn, Live;
    }

    /** What a true answer means: after a cancel the run is settled and its task has finished,
        after an input it has a new task that may start. */
    static lemma {:induction false} ControlOutcome(s: State, i: nat, raised: bool)
      requires Inv(s) && Enabled(s, Resume(i, raised))
      ensures var at, r' := s.runs[i].control.at, Next(s, Resume(i, raised)).runs[i];
              Next(s, Resume(i, raised)).replies[s.runs[i].control.op] == Returned(true) ==>
                (CancelHolder(at) ==> r'.done && HasTask(r') && !Live(r'))
                && (at == InputReport ==> r'.tasks == s.runs[i].tasks + [NewTask()] && r'.started)
    {
      var c, r := CtxOf(s, i), s.runs[i];
      assert RunInv(c, r);
      hide Inv, RunInv;
      if CancelHolder(r.control.at) && HolderTurn(c, r, raised).reply == Returned(true) {
        CancelTurnSettles(c, r, raised);
      }
      hide CancelAwaited, CancelReported, CancelCompleted, InputAwaited, Live, Current;
    }

    method ResumeControl(i: nat, raised: bool) returns (reply: Reply)
      requires Enabled(View(), Resume(i, raised))
      modifies this`runs, this`log, this`replies
      ensures View() == Next(old(View()), Resume(i, raised))
      ensures old(runs[i].control.op) in replies && reply == replies[old(runs[i].control.op)]
    {
      var op, at, c := runs[i].control.op, runs[i].control.at, CtxOf(View(), i);
      var run, out := runs[i], [];
      match at {
        case CancelAwait => run, out, reply := AfterCancel(c, run, op);
        case CancelReport => run, out, reply := AfterStopped(c, run, op, raised);
        case CancelComplete(failed) =>
          run := run.(control := Free);
          reply := if failed then Raised else Returned(true);
        case InputAwait(q) => run, out, reply := AfterInterrupt(c, run, op, q);
        case InputReport => run, reply := AfterQueued(c, run, raised);
      }
      Store(i, run, out);
      replies := replies[op := reply];
    }

    static method AfterCancel(c: Ctx, r: Run, op: OpId) returns (run: Run, out: seq<Output>, reply: Reply)
      ensures Turn(run, out, reply) == CancelAwaited(c, r, op)
    {
      run, out, reply := r.(control := Free), [], Returned(false);
      if Current(c, r) {
        if r.done {
          reply := Returned(true);
        } else {
          if !run.detached {
            run := run.(snapshot := run.snapshot.(error := "stopped"));
          }
          run := run.(snapshot := run.snapshot.(finalResult := Strip(run.finalText)));
          out := WriteTranscript(c, run);
          run := run.(snapshot := SetStatus(c, run.snapshot, Stopped));
          out := out + [StateEvent(Stopped)];
          run := run.(control := Held(op, CancelReport));
          reply := Suspended;
        }
      }
    }

    static method AfterStopped(c: Ctx, r: Run, op: OpId, raised: bool) returns (run: Run, out: seq<Output>,
        reply: Reply)
      ensures Turn(run, out, reply) == CancelReported(c, r, op, raised)
    {
      run := r.(done := true);
      out := EmitCompletion(c, run);
      if out == [] {
        run := run.(control := Free);
        reply := if raised then Raised else Returned(true);
      } else {
        run := run.(control := Held(op, CancelComplete(raised)));
        reply := Suspended;
      }
    }

    static method AfterInterrupt(c: Ctx, r: Run, op: OpId, q: InputRequest) returns (run: Run, out: seq<Output>,
        reply: Reply)
      ensures Turn(run, out, reply) == InputAwaited(c, r, op, q)
    {
      if !Current(c, r) {
        run, out, reply := r.(control := Free), [], Returned(false);
      } else {
        run, out := Relaunch(c, r, op, q, false);
        reply := Suspended;
      }
    }

    static method AfterQueued(c: Ctx, r: Run, raised: bool) returns (run: Run, reply: Reply)
      ensures Turn(run, [], reply) == InputReported(c, r, raised)
    {
      run := r.(control := Free);
      if raised {
        run := run.(cancelled := true);
        run := run.(started := true);
        if !run.detached {
          var s := run.snapshot.(status := Stopped, error := "stopped", updatedAt := c.now);
          run := run.(snapshot := s.(finishedAt := Some(s.updatedAt)));
        }
        run := run.(done := true);
        reply := Raised;
      } else if !Current(c, r) {
        run := run.(cancelled := true);
        run := run.(started := true);
        run := run.(done := true);
        reply := Returned(false);
      } else {
        run := run.(tasks := run.tasks + [NewTask()]);
        run := run.(started := true);
        reply := Returned(true);
      }
    }

    // ----- wait_agent -----

    method FenceFinishedTask(i: nat)
      requires i < |runs|
      modifies this`runs
      ensures View() == Put(old(View()), i, Fence(old(runs[i])), [])
    {
      var run := runs[i];
      if run.tasks != [] && run.tasks[|run.tasks| - 1].pc == Finished && !run.done {
        run := run.(done := true);
      }
      runs := runs[i := run];
      assert log + Tag(i, []) == log;
    }

    /** The fence and the poll `wait_agent` starts with: a finished task is never waited for. */
    method WaitAgent(agentId: string) returns (settled: Option<bool>)
      requires Valid()
      modifies this`runs
      ensures Valid() && View() == Next(old(View()), WaitCall(agentId))
      ensures settled == if Visible(View(), agentId) then Some(runs[owned[agentId]].done) else None
      ensures settled == Some(false) ==> Live(runs[owned[agentId]]) || !HasTask(runs[owned[agentId]])
    {
      hide Inv, LogInv, Fence;
      ManagerKeeps(View(), WaitCall(agentId));
      if !Visible(View(), agentId) {
        return None;
      }
      ghost var r := runs[owned[agentId]];
      FencedIsDone(r);
      FenceFinishedTask(owned[agentId]);
      settled := Some(runs[owned[agentId]].done);
      hide Live;
    }

    static lemma {:induction false} FencedIsDone(r: Run)
      ensures var r' := Fence(r); r'.done || Live(r') || !HasTask(r')
      ensures Fence(r).snapshot == r.snapshot
    {
    }

    /** What `wait_agent` answers after the done event of the run it was called for was set. */
    method WaitReturns(agentId: string, i: nat) returns (answer: Option<Snapshot>)
      requires i < |runs|
      ensures answer == WaitAnswer(View(), agentId, i)
    {
      if agentId in owned {
        if owned[agentId] != i || runs[i].detached || runs[i].generation != generation {
          return None;
        }
      }
      if session != "" && runs[i].snapshot.sessionId != session {
        return None;
      }
      answer := Some(runs[i].snapshot);
    }

    // ----- the runs' tasks -----

    /** One segment of a run's task, with the semaphore taken and given back. */
    method StepTask(i: nat, k: nat, choice: TaskChoice)
      requires Valid() && Enabled(View(), TaskRuns(i, k, choice))
      modifies this`runs, this`log, this`slots
      ensures Valid() && View() == Next(old(View()), TaskRuns(i, k, choice))
      ensures |SlotHolders(runs)| + slots == Capacity(limits)
      ensures SteppedAs(old(View()), View(), i, k, choice)
    {
      hide Inv, LogInv, SlotHolders, Enabled, RunTask, SteppedAs;
      ManagerKeeps(View(), TaskRuns(i, k, choice));
      SlotsAgree(Next(View(), TaskRuns(i, k, choice)));
      StepsAs(View(), i, k, choice);
      TakeTurn(i, k, choice);
    }

    /** What the step did to its run and handed over, and what the run's last report says. */
    static ghost predicate SteppedAs(s: State, s': State, i: nat, k: nat, choice: TaskChoice) {
      && i < |s.runs| && i < |s'.runs| && k < |s.runs[i].tasks|
      && SteppedSo(s, s', i, k, choice) && (IsCurrent(s, i) ==> ClosesSo(s, s', TaskRuns(i, k, choice), i))
    }

    static lemma {:induction false} StepsAs(s: State, i: nat, k: nat, choice: TaskChoice)
      requires Enabled(s, TaskRuns(i, k, choice))
      ensures SteppedAs(s, Next(s, TaskRuns(i, k, choice)), i, k, choice)
    {
      StepsSo(s, i, k, choice);
      hide SteppedSo, ClosesSo, Enabled, Next, IsCurrent;
      RunStays(s, i, k, choice);
      if IsCurrent(s, i) {
        StepCloses(s, TaskRuns(i, k, choice), i);
      }
    }

    static lemma {:induction false} RunStays(s: State, i: nat, k: nat, choice: TaskChoice)
      requires Enabled(s, TaskRuns(i, k, choice))
      ensures i < |s.runs| && i < |Next(s, TaskRuns(i, k, choice)).runs|
    {
      hide TaskSegment, CanTake;
    }

    method TakeTurn(i: nat, k: nat, choice: TaskChoice)
      requires Enabled(View(), TaskRuns(i, k, choice))
      modifies this`runs, this`log, this`slots
      ensures View() == Next(old(View()), TaskRuns(i, k, choice))
    {
      var task := runs[i].tasks[k];
      var run, out := RunSegment(CtxOf(View(), i), runs[i], k, choice);
      if choice.Advance? && task.pc == WaitingSlot && !task.cancelRequested {
        slots := slots - 1;
      }
      if choice.Advance? && task.pc == Completing {
        slots := slots + 1;
      }
      hide CanTake, TaskSegment, CtxOf;
      Store(i, run, out);
    }

    static lemma {:induction false} SlotsAgree(s: State)
      requires Inv(s)
      ensures |SlotHolders(s.runs)| + s.slots == Capacity(s.limits)
    {
      hide RunInv, SlotHolders;
    }

    static method RunSegment(c: Ctx, r: Run, k: nat, choice: TaskChoice) returns (run: Run, out: seq<Output>)
      requires CanTake(r, k, choice)
      ensures Effect(run, out) == TaskSegment(c, r, k, choice)
    {
      run, out := r, [];
      match choice {
        case Advance => run, out := AdvanceRunner(c, r, k);
        case Prepare => run := SetProjection(r, k, r.messages);
        case Extend(more) => run := SetProjection(r, k, r.tasks[k].projection.value + more);
        case Text(_) | Retry(_) | Report(_) | OtherEvent => run, out := HandleAgentEvent(c, r, choice);
        case Swallow => run := ClearCancel(r, k);
        case End => run, out := FinishLoop(c, r, k);
        case Fail(error, newId) => run, out := FailLoop(c, r, k, error, newId);
        case Stop(newId) => run, out := StopLoop(c, r, k, newId);
      }
    }

    static method AdvanceRunner(c: Ctx, r: Run, k: nat) returns (run: Run, out: seq<Output>)
      requires CanTake(r, k, Advance)
      ensures Effect(run, out) == AdvanceTask(c, r, k)
    {
      match r.tasks[k].pc
      case NotStarted | WaitingStart | WaitingSlot => run, out := AwaitTurn(c, r, k);
      case ReportingEnd | ReportingStop | ReportingFail | ReportingError | Releasing => run, out := LeaveLoop(c, r, k);
      case FinalReport => run, out := SettleRunner(c, MoveTo(r, k, FinalCompleting));
      case Completing | FinalCompleting => run, out := SetPc(r, k, Finished), [];
    }

    /** Waiting for the start event and for a slot; a cancellation finalizes the run. */
    static method AwaitTurn(c: Ctx, r: Run, k: nat) returns (run: Run, out: seq<Output>)
      requires k < |r.tasks| && (r.tasks[k].pc.NotStarted? || r.tasks[k].pc.WaitingStart? || r.tasks[k].pc.WaitingSlot?)
      ensures Effect(run, out) == AdvanceQueued(c, r, k)
    {
      run, out := r, [];
      if r.tasks[k].pc == NotStarted {
        run := SetPc(run, k, if r.tasks[k].cancelRequested then Finished else WaitingStart);
      } else if r.tasks[k].cancelRequested {
        run, out := FinalizeRunner(c, r, k);
      } else if r.tasks[k].pc == WaitingStart {
        run := SetPc(run, k, if run.cancelled || run.done then Finished else WaitingSlot);
      } else {
        run, out := StartLoop(c, r, k);
      }
    }

    static method StartLoop(c: Ctx, r: Run, k: nat) returns (run: Run, out: seq<Output>)
      requires k < |r.tasks|
      ensures Effect(run, out) == EnterBody(c, r, k)
    {
      var baseline := set m | m in r.messages :: m.uuid;
      run := r.(tasks := r.tasks[k := r.tasks[k].(pc := Body, baseline := baseline)]);
      run := run.(snapshot := SetStatus(c, run.snapshot, Running));
      out := if Current(c, run) then [StateEvent(Running)] else [];
    }

    static method FinalizeRunner(c: Ctx, r: Run, k: nat) returns (run: Run, out: seq<Output>)
      requires k < |r.tasks|
      ensures Effect(run, out) == FinalizeTask(c, r, k)
    {
      if r.done {
        return MoveTo(r, k, Finished), [];
      }
      run := MoveTo(r, k, FinalReport);
      if !run.detached {
        run := run.(snapshot := run.snapshot.(error := "stopped"));
      }
      run := run.(snapshot := run.snapshot.(finalResult := Strip(run.finalText)));
      out := WriteTranscript(c, run);
      run := run.(snapshot := SetStatus(c, run.snapshot, Stopped));
      if Current(c, run) {
        out := out + [StateEvent(Stopped)];
      }
    }

    /** After the terminal state event: the error event, the release, the done event. */
    static method LeaveLoop(c: Ctx, r: Run, k: nat) returns (run: Run, out: seq<Output>)
      requires k < |r.tasks|
      ensures Effect(run, out) == AdvanceReport(c, r, k)
    {
      var pc := r.tasks[k].pc;
      out := [];
      if pc == Releasing {
        run, out := SettleRunner(c, MoveTo(r, k, Completing));
      } else if pc == ReportingFail && !r.tasks[k].cancelRequested && !r.detached && r.snapshot.sessionId == c.session {
        run := MoveTo(r, k, ReportingError);
        if Current(c, r) {
          out := [ErrorEvent(r.snapshot.error)];
        }
      } else {
        run := MoveTo(r, k, Releasing);
      }
    }

    static method SettleRunner(c: Ctx, r: Run) returns (run: Run, out: seq<Output>)
      ensures Effect(run, out) == Settle(c, r)
    {
      run := r.(done := true);
      out := [];
      if Current(c, run) && run.snapshot.callbackEnabled && run.snapshot.callbackState == Pending {
        out := [Completion(run.snapshot.callbackEpoch)];
      }
    }

    static method HandleAgentEvent(c: Ctx, r: Run, choice: TaskChoice) returns (run: Run, out: seq<Output>)
      requires choice.Text? || choice.Retry? || choice.Report? || choice.OtherEvent?
      ensures choice.Text? ==> Effect(run, out) == HandleText(c, r, choice.text)
      ensures choice.Retry? ==> Effect(run, out) == HandleRetry(c, r, choice.discarded)
      ensures choice.Report? ==> Effect(run, out) == HandleError(c, r, choice.error)
      ensures choice.OtherEvent? ==> Effect(run, out) == HandleOther(c, r)
    {
      run, out := r, [];
      if !Current(c, r) {
        return;
      }
      match choice {
        case Text(text) =>
          run := run.(chunks := run.chunks + [text]);
          run := run.(finalText := run.finalText + text);
        case Retry(discarded) =>
          var text, rest := RetryStream(run.finalText, run.chunks, discarded);
          run := run.(finalText := text, chunks := rest);
        case Report(error) => run := run.(snapshot := run.snapshot.(error := error));
        case _ =>
      }
      out := [StreamEvent];
    }

    static method FinishLoop(c: Ctx, r: Run, k: nat) returns (run: Run, out: seq<Output>)
      requires k < |r.tasks| && r.tasks[k].projection.Some?
      ensures Effect(run, out) == EndBody(c, r, k)
    {
      run := r.(messages := r.tasks[k].projection.value);
      run := run.(snapshot := run.snapshot.(finalResult := Strip(run.finalText)));
      out := WriteTranscript(c, run);
      run := SetPc(run, k, ReportingEnd);
      var status := if run.snapshot.error != "" then Failed else Completed;
      run := run.(snapshot := SetStatus(c, run.snapshot, status));
      if Current(c, run) {
        out := out + [StateEvent(status)];
      }
    }

    static method FailLoop(c: Ctx, r: Run, k: nat, error: string, newId: string) returns (run: Run, out: seq<Output>)
      requires k < |r.tasks|
      ensures Effect(run, out) == FailBody(c, r, k, error, newId)
    {
      run := Capture(r, k, newId);
      run := run.(snapshot := run.snapshot.(error := error));
      run := run.(snapshot := run.snapshot.(finalResult := Strip(run.finalText)));
      out := WriteTranscript(c, run);
      run := SetPc(run, k, ReportingFail);
      run := run.(snapshot := SetStatus(c, run.snapshot, Failed));
      if Current(c, run) {
        out := out + [StateEvent(Failed)];
      }
    }

    static method StopLoop(c: Ctx, r: Run, k: nat, newId: string) returns (run: Run, out: seq<Output>)
      requires k < |r.tasks|
      ensures Effect(run, out) == StopBody(c, r, k, newId)
    {
      run := Capture(r, k, newId);
      if !run.detached {
        run := run.(snapshot := run.snapshot.(error := "stopped"));
      }
      run := run.(snapshot := run.snapshot.(finalResult := Strip(run.finalText)));
      out := WriteTranscript(c, run);
      run := MoveTo(run, k, ReportingStop);
      run := run.(snapshot := SetStatus(c, run.snapshot, Stopped));
      if Current(c, run) {
        out := out + [StateEvent(Stopped)];
      }
    }

    // ----- session switches -----

    /** Every agent in the map is settled, and none that was not is current any more. */
    method AbandonActiveAgents(reason: string)
      requires Valid()
      modifies this`runs
      ensures Valid() && View() == Next(old(View()), Event.Abandon(reason))
      ensures AllAbandoned(old(View()), View())
    {
      hide Inv, LogInv, AbandonAll, AllAbandoned;
      ManagerKeeps(View(), Event.Abandon(reason));
      AbandonOutcome(View(), reason);
      AbandonRuns(reason);
    }

    static lemma {:induction false} AbandonOutcome(s: State, reason: string)
      ensures AllAbandoned(s, AbandonAll(s, reason))
    {
      var s' := AbandonAll(s, reason);
      forall i | 0 <= i < |s'.runs|
        ensures (Mapped(s', i) ==> s'.runs[i].done) && (!s.runs[i].done ==> !IsCurrent(s', i))
      {
        AbandonedRun(CtxOf(s, i), s.runs[i], reason);
        hide Abandoned;
      }
    }

    static lemma {:induction false} AbandonedRun(c: Ctx, r: Run, reason: string)
      ensures var r' := Abandoned(c, r, reason);
              r'.done && (!r.done ==> r'.detached) && r'.snapshot.agentId == r.snapshot.agentId
    {
    }

    method AbandonRuns(reason: string)
      modifies this`runs
      ensures View() == AbandonAll(old(View()), reason)
    {
      ghost var s := View();
      var i := 0;
      while i < |runs|
        invariant 0 <= i <= |runs| == |s.runs|
        invariant View() == s.(runs := runs)
        invariant forall j | 0 <= j < i :: runs[j] == AbandonAll(s, reason).runs[j]
        invariant forall j | i <= j < |runs| :: runs[j] == s.runs[j]
      {
        if Mapped(View(), i) {
          var run := AbandonRun(CtxOf(View(), i), runs[i], reason);
          runs := runs[i := run];
        }
        i := i + 1;
      }
    }

    static method AbandonRun(c: Ctx, r: Run, reason: string) returns (run: Run)
      ensures run == Abandoned(c, r, reason)
    {
      run := r;
      if run.done {
        return;
      }
      run := run.(cancelled := true, detached := true, started := true);
      if !Terminal(run.snapshot.status) {
        var snapshot := run.snapshot.(status := Stopped, error := reason, updatedAt := c.now);
        run := run.(snapshot := snapshot.(finishedAt := Some(snapshot.updatedAt)));
      }
      run := run.(done := true);
      run := CancelTask(Track(run));
    }

    /** After a switch to another context no earlier run is current. */
    method UpdateContext(env: string, session: string, cwd: Option<string>, force: bool)
      requires Valid()
      modifies this`env, this`session, this`cwd, this`generation
      ensures Valid() && View() == Next(old(View()), UpdateSession(env, session, cwd, force))
      ensures if SwitchesContext(old(View()), env, session, cwd, force) then NoneCurrent(View())
              else SameCurrent(old(View()), View())
    {
      SwitchDisowns(View(), env, session, cwd, force);
      hide Inv, LogInv, NoneCurrent, SameCurrent, SwitchesContext, Switch;
      ManagerKeeps(View(), UpdateSession(env, session, cwd, force));
      SetContext(env, session, cwd, force);
    }

    method SetContext(env: string, session: string, cwd: Option<string>, force: bool)
      modifies this`env, this`session, this`cwd, this`generation
      ensures View() == Switch(old(View()), env, session, cwd, force)
    {
      if force || session != this.session || env != this.env || (cwd.Some? && cwd.value != this.cwd) {
        generation := generation + 1;
      }
      this.env := env;
      this.session := session;
      if cwd.Some? {
        this.cwd := cwd.value;
      }
    }

    static lemma {:induction false} SwitchDisowns(s: State, env: string, session: string, cwd: Option<string>,
                                                  force: bool)
      requires Inv(s)
      ensures var s' := Switch(s, env, session, cwd, force);
              if SwitchesContext(s, env, session, cwd, force) then NoneCurrent(s') else SameCurrent(s, s')
    {
      var s' := Switch(s, env, session, cwd, force);
      forall i | 0 <= i < |s.runs|
        ensures if SwitchesContext(s, env, session, cwd, force) then !IsCurrent(s', i)
                else IsCurrent(s', i) == IsCurrent(s, i)
      {
        UnsettledIsStale(s, i);
      }
    }

    /** The map holds the restored runs only, all settled and without tasks; every earlier run
        is settled and out of it. */
    method RestoreSnapshots(items: seq<Item>) returns (pending: seq<Callback>, changed: bool)
      requires Valid() && Enabled(View(), Restore(items))
      modifies this`runs, this`owned
      ensures Valid() && View() == Next(old(View()), Restore(items))
      ensures old(phase) != Open ==> pending == [] && !changed
      ensures old(phase) == Open ==> pending == CallbacksOf(session, generation, clock, items)
      ensures old(phase) == Open ==> (changed <==> exists j | 0 <= j < |items| :: NeedsRewrite(session, items[j]))
      ensures old(phase) == Open ==> AllReplaced(old(View()), View())
    {
      hide Inv, LogInv, RestoreAll, Enabled, AllReplaced, CallbacksOf, NeedsRewrite;
      ManagerKeeps(View(), Restore(items));
      if phase == Open {
        RestoreOutcome(View(), items);
      }
      pending, changed := ReplaceRuns(items);
    }

    static lemma {:induction false} RestoreOutcome(s: State, items: seq<Item>)
      requires Inv(s) && s.phase == Open
      ensures AllReplaced(s, RestoreAll(s, items))
    {
      var s' := RestoreAll(s, items);
      assert |s.runs| <= |s'.runs|;
      forall i | 0 <= i < |s.runs| ensures Mapped(s, i) || s.runs[i].done {
        assert RunInv(CtxOf(s, i), s.runs[i]);
      }
      hide Inv, RestoreAll, Mapped;
      forall i | 0 <= i < |s'.runs|
        ensures s'.runs[i].done && if i < |s.runs| then !Mapped(s', i) else s'.runs[i].tasks == []
      {
        RestoreOutcomeAt(s, items, i);
      }
    }

    static lemma {:induction false} RestoreOutcomeAt(s: State, items: seq<Item>, i: nat)
      requires i < |RestoreAll(s, items).runs| && (i < |s.runs| ==> Mapped(s, i) || s.runs[i].done)
      ensures var s' := RestoreAll(s, items);
              s'.runs[i].done && if i < |s.runs| then !Mapped(s', i) else s'.runs[i].tasks == []
    {
      if i < |s.runs| {
        SwitchDone(CtxOf(s, i), s.runs[i], "");
      } else {
        RestoredRunSettled(s.session, s.generation, s.clock, items, i - |s.runs|);
      }
      hide Replaced, Adopted, Index, Shift;
    }

    method ReplaceRuns(items: seq<Item>) returns (pending: seq<Callback>, changed: bool)
      modifies this`runs, this`owned
      ensures View() == if old(phase) != Open then old(View()) else RestoreAll(old(View()), items)
      ensures old(phase) != Open ==> pending == [] && !changed
      ensures old(phase) == Open ==> pending == CallbacksOf(session, generation, clock, items)
      ensures old(phase) == Open ==> (changed <==> exists j | 0 <= j < |items| :: NeedsRewrite(session, items[j]))
    {
      pending, changed := [], false;
      if phase != Open {
        return;
      }
      DetachAll();
      var adopted;
      adopted, pending, changed := AdoptAll(session, generation, clock, items);
      owned := BuildMap(adopted, |runs|);
      runs := runs + adopted;
    }

    static method AdoptAll(session: string, generation: nat, now: int, items: seq<Item>)
      returns (adopted: seq<Run>, pending: seq<Callback>, changed: bool)
      ensures adopted == RestoredRuns(session, generation, now, items)
      ensures pending == CallbacksOf(session, generation, now, items)
      ensures changed <==> exists j | 0 <= j < |items| :: NeedsRewrite(session, items[j])
    {
      adopted, pending, changed := [], [], false;
      var j := 0;
      assert adopted == RestoredRuns(session, generation, now, items[..0]);
      assert pending == CallbacksOf(session, generation, now, items[..0]);
      hide RestoredRuns, CallbacksOf, Adopt, ToCallback, RestoredRun, Foreign;
      while j < |items|
        invariant 0 <= j <= |items|
        invariant adopted == RestoredRuns(session, generation, now, items[..j])
        invariant pending == CallbacksOf(session, generation, now, items[..j])
        invariant changed <==> exists l | 0 <= l < j :: NeedsRewrite(session, items[l])
      {
        RestoreStep(session, generation, now, items, j);
        if Accepted(session, items[j]) {
          var snapshot := Adopt(session, now, items[j].snapshot.value);
          if Unfinished(items[j].snapshot.value) {
            changed := true;
          }
          if Due(snapshot) {
            pending := pending + [ToCallback(snapshot, generation)];
          }
          adopted := adopted + [RestoredRun(generation, snapshot, items[j].transcript)];
        } else {
          changed := true;
        }
        j := j + 1;
      }
      assert items[..j] == items;
    }

    /** The restored runs become the agent map, later entries replacing earlier ones. */
    static method BuildMap(adopted: seq<Run>, n: nat) returns (index: map<string, nat>)
      ensures index == Shift(Index(adopted), n)
    {
      var j := 0;
      index := map[];
      assert index == Shift(Index([]), n);
      hide Index, Shift;
      while j < |adopted|
        invariant 0 <= j <= |adopted|
        invariant index == Shift(Index(adopted[..j]), n)
      {
        IndexStep(adopted, j, n);
        index := index[adopted[j].snapshot.agentId := j + n];
        j := j + 1;
      }
      assert adopted[..j] == adopted;
    }

    static lemma {:induction false} IndexStep(adopted: seq<Run>, j: nat, n: nat)
      requires j < |adopted|
      ensures Shift(Index(adopted[..j + 1]), n) == Shift(Index(adopted[..j]), n)[adopted[j].snapshot.agentId := j + n]
    {
      assert adopted[..j + 1][..j] == adopted[..j];
      var before, a := Index(adopted[..j]), adopted[j].snapshot.agentId;
      assert Index(adopted[..j + 1]) == before[a := j];
      ShiftUpdate(before, a, j, n);
    }

    static lemma {:induction false} ShiftUpdate(index: map<string, nat>, a: string, j: nat, n: nat)
      ensures Shift(index[a := j], n) == Shift(index, n)[a := j + n]
    {
    }

    static lemma {:induction false} RestoreStep(session: string, generation: nat, now: int, items: seq<Item>, j: nat)
      requires j < |items|
      ensures RestoredRuns(session, generation, now, items[..j + 1])
              == RestoredRuns(session, generation, now, items[..j])
                 + (if Accepted(session, items[j])
                    then [RestoredRun(generation, Adopt(session, now, items[j].snapshot.value), items[j].transcript)]
                    else [])
      ensures CallbacksOf(session, generation, now, items[..j + 1])
              == CallbacksOf(session, generation, now, items[..j]) + CallbackOf(session, generation, now, items[j])
    {
      assert items[..j + 1][..j] == items[..j];
    }

    /** The runs the map still holds are detached, cancelled and settled. */
    method DetachAll()
      modifies this`runs
      ensures View() == old(View()).(runs := Detached(old(View())))
    {
      ghost var s := View();
      var i := 0;
      while i < |runs|
        invariant 0 <= i <= |runs| == |s.runs|
        invariant View() == s.(runs := runs)
        invariant forall j | 0 <= j < i :: runs[j] == if Mapped(s, j) then Replaced(s.runs[j]) else s.runs[j]
        invariant forall j | i <= j < |runs| :: runs[j] == s.runs[j]
      {
        if Mapped(View(), i) {
          var run := runs[i];
          if Live(run) {
            run := run.(detached := true, cancelled := true);
            run := run.(snapshot := run.snapshot.(callbackEnabled := false, callbackState := CallbackDisabled));
            run := run.(started := true);
            run := CancelTask(Track(run));
          }
          runs := runs[i := run.(done := true)];
        }
        i := i + 1;
      }
    }

    // ----- close -----

    method Close() returns (first: bool)
      requires Valid()
      modifies this`phase
      ensures Valid() && View() == Next(old(View()), CloseCall)
      ensures first <==> old(phase) == Open
      ensures NoneCurrent(View())
    {
      hide Inv, LogInv;
      ManagerKeeps(View(), CloseCall);
      first := phase == Open;
      if first {
        phase := Closing;
      }
    }

    /** The cleanup task marks and cancels what the manager owns: it will join exactly the
        unfinished tasks that are tracked or belong to an unsettled run in the map. */
    method CloseMarkRuns()
      requires Valid() && phase == Closing
      modifies this`runs, this`phase
      ensures Valid() && View() == Next(old(View()), CloseMark)
      ensures forall i | 0 <= i < |runs| && Live(old(runs[i])) ::
                HasTask(runs[i])
                && (Last(runs[i]).joined <==>
                      Last(old(runs[i])).tracked || (Mapped(old(View()), i) && !old(runs[i].done)))
    {
      ghost var s := View();
      ManagerKeeps(s, CloseMark);
      MarkOutcome(s);
      hide Inv, LogInv, MarkAll;
      MarkRuns();
      hide Live;
    }

    static lemma {:induction false} MarkOutcome(s: State)
      requires Inv(s) && s.phase == Closing
      ensures var s' := MarkAll(s);
              |s'.runs| == |s.runs|
              && forall i | 0 <= i < |s.runs| && Live(s.runs[i]) ::
                   HasTask(s'.runs[i])
                   && (Last(s'.runs[i]).joined <==> Last(s.runs[i]).tracked || (Mapped(s, i) && !s.runs[i].done))
    {
      forall i | 0 <= i < |s.runs| && Live(s.runs[i])
        ensures var r' := CloseMarked(Mapped(s, i), s.runs[i]);
                HasTask(r') && (Last(r').joined <==> Last(s.runs[i]).tracked || (Mapped(s, i) && !s.runs[i].done))
      {
        MarkJoins(CtxOf(s, i), s.runs[i]) by { assert RunInv(CtxOf(s, i), s.runs[i]); }
        hide CloseMarked, Inv;
      }
      hide CloseMarked, Inv, Live;
    }

    method MarkRuns()
      requires phase == Closing
      modifies this`runs, this`phase
      ensures View() == MarkAll(old(View()))
    {
      ghost var s := View();
      var i := 0;
      while i < |runs|
        invariant 0 <= i <= |runs| == |s.runs|
        invariant View() == s.(runs := runs)
        invariant forall j | 0 <= j < i :: runs[j] == CloseMarked(Mapped(s, j), s.runs[j])
        invariant forall j | i <= j < |runs| :: runs[j] == s.runs[j]
      {
        var run := MarkRun(Mapped(View(), i), runs[i]);
        runs := runs[i := run];
        i := i + 1;
      }
      phase := Marked;
    }

    static method MarkRun(mapped: bool, r: Run) returns (run: Run)
      ensures run == CloseMarked(mapped, r)
    {
      run := r;
      var joins := Live(r) && r.tasks[|r.tasks| - 1].tracked;
      if mapped && !r.done {
        if Live(r) {
          run := run.(cancelled := true, detached := true, started := true);
          run := Track(run);
          joins := true;
        } else {
          run := run.(done := true);
        }
      }
      if joins {
        run := SetLast(run, run.tasks[|run.tasks| - 1].(cancelRequested := true, joined := true));
      }
    }

    /** All joined tasks have finished: every run is settled now, and no detached task is left. */
    method CloseFinishRuns()
      requires Valid() && Enabled(View(), CloseFinish)
      modifies this`runs, this`phase
      ensures Valid() && View() == Next(old(View()), CloseFinish)
      ensures forall i | 0 <= i < |runs| :: runs[i].done
      ensures forall i, k | 0 <= i < |runs| && 0 <= k < |runs[i].tasks| && runs[i].tasks[k].tracked ::
                runs[i].tasks[k].pc == Finished
    {
      ghost var s := View();
      ManagerKeeps(s, CloseFinish);
      FinishOutcome(Next(s, CloseFinish));
      hide Inv, LogInv, FinishAll, Enabled;
      FinishRuns();
    }

    static lemma {:induction false} FinishOutcome(s: State)
      requires Inv(s) && s.phase == Closed
      ensures forall i | 0 <= i < |s.runs| :: s.runs[i].done
      ensures forall i, k | 0 <= i < |s.runs| && 0 <= k < |s.runs[i].tasks| && s.runs[i].tasks[k].tracked ::
                s.runs[i].tasks[k].pc == Finished
    {
      forall i | 0 <= i < |s.runs|
        ensures s.runs[i].done
        ensures forall k | 0 <= k < |s.runs[i].tasks| && s.runs[i].tasks[k].tracked :: s.runs[i].tasks[k].pc == Finished
      {
        ClosedRun(CtxOf(s, i), s.runs[i]) by { assert RunInv(CtxOf(s, i), s.runs[i]); }
        hide Inv;
      }
      hide Inv;
    }

    static lemma {:induction false} ClosedRun(c: Ctx, r: Run)
      requires RunInv(c, r) && c.phase == Closed
      ensures r.done && forall k | 0 <= k < |r.tasks| && r.tasks[k].tracked :: r.tasks[k].pc == Finished
    {
    }

    method FinishRuns()
      requires Enabled(View(), CloseFinish)
      modifies this`runs, this`phase
      ensures View() == FinishAll(old(View()))
    {
      hide CloseFinished, Enabled;
      ghost var s := View();
      var i := 0;
      while i < |runs|
        invariant 0 <= i <= |runs| == |s.runs|
        invariant View() == s.(runs := runs)
        invariant forall j | 0 <= j < i :: runs[j] == CloseFinished(CtxOf(s, j), s.runs[j])
        invariant forall j | i <= j < |runs| :: runs[j] == s.runs[j]
      {
        var run := FinishRun(CtxOf(View(), i), runs[i]);
        runs := runs[i := run];
        i := i + 1;
      }
      phase := Closed;
    }

    static method FinishRun(c: Ctx, r: Run) returns (run: Run)
      ensures run == CloseFinished(c, r) && run.snapshot.agentId == r.snapshot.agentId
    {
      run := r;
      if !run.done {
        run := BeginFinalize(c, run).run;
        run := run.(done := true);
      }
    }

    // ----- callbacks -----

    method MarkCallbackInjected(agentId: string, sessionId: string, messageId: string, epoch: nat) returns (ok: bool)
      requires Valid()
      modifies this`runs, this`log
      ensures Valid() && View() == Next(old(View()), MarkInjected(agentId, sessionId, messageId, epoch))
      ensures !ok ==> View() == old(View())
      ensures ok ==>
                agentId in owned && owned[agentId] < |runs| && runs[owned[agentId]].snapshot.callbackState == Injected
                     && runs[owned[agentId]].snapshot.callbackMessageId == Some(messageId)
    {
      hide Inv, LogInv;
      ManagerKeeps(View(), MarkInjected(agentId, sessionId, messageId, epoch));
      ok := false;
      if agentId in owned && owned[agentId] < |runs| {
        var i := owned[agentId];
        var run := runs[i];
        if run.snapshot.callbackState == Pending && run.snapshot.sessionId == sessionId
           && run.snapshot.callbackEpoch == epoch
        {
          var snapshot := run.snapshot.(callbackState := Injected, callbackMessageId := Some(messageId));
          Store(i, run.(snapshot := snapshot.(updatedAt := clock)), [CallbackInjected(epoch)]);
          ok := true;
        }
      }
    }

    method MarkCallbackDelivered(agentId: string, sessionId: string, epoch: nat) returns (ok: bool)
      requires Valid()
      modifies this`runs, this`log
      ensures Valid() && View() == Next(old(View()), MarkDelivered(agentId, sessionId, epoch))
      ensures !ok ==> View() == old(View())
      ensures ok ==>
                agentId in owned && owned[agentId] < |runs| && runs[owned[agentId]].snapshot.callbackState == Delivered
    {
      hide Inv, LogInv;
      ManagerKeeps(View(), MarkDelivered(agentId, sessionId, epoch));
      ok := false;
      if agentId in owned && owned[agentId] < |runs| {
        var i := owned[agentId];
        var run := runs[i];
        if run.snapshot.callbackState == Injected && run.snapshot.sessionId == sessionId
           && run.snapshot.callbackEpoch == epoch
        {
          Store(i, run.(snapshot := run.snapshot.(callbackState := Delivered, updatedAt := clock)),
                [CallbackDelivered(epoch)]);
          ok := true;
        }
      }
    }
  }
}
