/** Safety of whole executions of the manager. */
module AgentTheorems {
  import opened StreamText
  import opened AgentModel
  import opened AgentInvariant
  import opened AgentEvolution
  import opened AgentRuntime

  // ----- what one event does to all runs and to the log -----

  /** The run an event writes to the log for, and what it writes. */
  function Touched(s: State, e: Event): nat
    requires Enabled(s, e)
  {
    match e
    case SpawnCall(_, _, _, _, _) => |s.runs|
    case SpawnReport(i, _) => i
    case SpawnReap(i) => i
    case Acquire(op) => s.waiting[op].run
    case Resume(i, _) => i
    case TaskRuns(i, _, _) => i
    case WaitCall(a) => if a in s.owned then s.owned[a] else 0
    case MarkInjected(a, _, _, _) => if a in s.owned then s.owned[a] else 0
    case MarkDelivered(a, _, _) => if a in s.owned then s.owned[a] else 0
    case _ => 0
  }

  /** New entries of the log are outputs of one run, in a state where they are allowed. */
  ghost predicate EmitsOk(s: State, s': State, i: nat, out: seq<Output>) {
    out == []
    || (i < |s.runs| && i < |s'.runs| && CtxOf(s', i) == CtxOf(s, i)
        && (OutputOk(CtxOf(s, i), s.runs[i], s'.runs[i], out) || CallbackMoved(s.runs[i], s'.runs[i], out)))
    || (i == |s.runs| < |s'.runs| && s'.log == s.log + Tag(i, out)
        && forall o | o in out :: o.StateEvent? && Current(CtxOf(s', i), s'.runs[i]))
  }

  /** A callback was injected or delivered: one step up, in the same epoch. */
  ghost predicate CallbackMoved(r: Run, r': Run, out: seq<Output>) {
    |out| == 1 && r'.snapshot.callbackEpoch == r.snapshot.callbackEpoch
    && ((out[0] == CallbackInjected(r.snapshot.callbackEpoch)
         && Rank(r.snapshot.callbackState) == 0 && Rank(r'.snapshot.callbackState) == 1)
        || (out[0] == CallbackDelivered(r.snapshot.callbackEpoch)
            && Rank(r.snapshot.callbackState) == 1 && Rank(r'.snapshot.callbackState) == 2))
  }

  /** One run evolves; it gains a task only while it is current, and its epoch moves only
      with an accepted input. */
  ghost predicate RunAdvances(s: State, s': State, i: nat, out: seq<Output>, j: nat)
    requires j < |s.runs| <= |s'.runs|
  {
    && Evolves(s.runs[j], s'.runs[j])
    && (|s'.runs[j].tasks| != |s.runs[j].tasks| ==> IsCurrent(s, j) && s'.runs[j].control.Free?)
    && (s'.runs[j].snapshot.callbackEpoch != s.runs[j].snapshot.callbackEpoch ==>
          s'.runs[j].snapshot.callbackEpoch == s.runs[j].snapshot.callbackEpoch + 1
          && j == i && out != [] && out[0].InputAccepted?)
  }

  ghost predicate Advances(s: State, s': State, i: nat, out: seq<Output>) {
    && |s.runs| <= |s'.runs|
    && (forall j | 0 <= j < |s.runs| :: RunAdvances(s, s', i, out, j))
    && s'.log == s.log + Tag(i, out)
    && EmitsOk(s, s', i, out)
  }

  lemma {:induction false} PutAdvances(s: State, s': State, i: nat, r: Run, out: seq<Output>)
    requires i < |s.runs| && StepOk(CtxOf(s, i), s.runs[i], r, out)
    requires s'.runs == s.runs[i := r] && s'.log == s.log + Tag(i, out)
    requires s'.phase == s.phase && s'.session == s.session && s'.generation == s.generation && s'.clock == s.clock
    requires out == [] || s'.owned == s.owned
    ensures Advances(s, s', i, out)
  {
    forall j | 0 <= j < |s.runs| ensures RunAdvances(s, s', i, out, j) {
      UnchangedOk(CtxOf(s, j), s.runs[j]);
    }
  }

  lemma {:induction false} TurnOk(c: Ctx, r: Run, raised: bool)
    requires RunInv(c, r) && r.control.Held?
    ensures StepOk(c, r, HolderTurn(c, r, raised).run, HolderTurn(c, r, raised).out)
  {
    HolderFacts(c, r);
    hide RunInv, StepOk, CancelAwaited, CancelReported, CancelCompleted, InputAwaited, InputReported, HasTask,
         ControlInv;
    var op := r.control.op;
    match r.control.at
    case CancelAwait => CancelAwaitedOk(c, r, op);
    case CancelReport => CancelReportedOk(c, r, op, raised);
    case CancelComplete(failed) => CancelCompletedOk(c, r, op, failed);
    case InputAwait(q) => InputAwaitedOk(c, r, op, q);
    case InputReport => InputReportedOk(c, r, op, raised);
  }

  lemma {:induction false} HolderFacts(c: Ctx, r: Run)
    requires RunInv(c, r) && r.control.Held?
    ensures ControlInv(r) && (r.control.at.CancelReport? ==> HasTask(r))
  {
  }

  lemma {:induction false} AcquireOk(c: Ctx, r: Run, op: OpId, request: Request)
    requires r.control.Free? && (request.Input? ==> InputFresh(r, request.input))
    ensures StepOk(c, r, AcquireTurn(c, r, op, request).run, AcquireTurn(c, r, op, request).out)
  {
    hide StepOk, InputFresh, CancelAcquired, InputAcquired;
    match request
    case CancelRequest => CancelAcquiredOk(c, r, op);
    case Input(q) => InputAcquiredOk(c, r, op, q);
  }

  lemma {:induction false} AllAdvance(s: State, s': State)
    requires |s.runs| <= |s'.runs| && s'.log == s.log
    requires forall j | 0 <= j < |s.runs| :: RunAdvances(s, s', 0, [], j)
    ensures Advances(s, s', 0, [])
  {
  }

  lemma {:induction false} SpawnAdvances(s: State, agentId: string, prompt: Message, callback: bool)
    requires Inv(s) && agentId !in s.owned && s.phase == Open && s.session != ""
    ensures Advances(s, Spawn(s, agentId, prompt, callback), |s.runs|,
                     Spawned(Ctx(s.phase, s.session, s.generation, true, s.clock), agentId, callback, prompt).out)
  {
    var s' := Spawn(s, agentId, prompt, callback);
    var c := Ctx(s.phase, s.session, s.generation, true, s.clock);
    assert CtxOf(s', |s.runs|) == c;
    SpawnedOk(c, agentId, callback, prompt);
    forall j | 0 <= j < |s.runs| ensures s'.runs[j] == s.runs[j] && Evolves(s.runs[j], s'.runs[j]) {
      UnchangedOk(c, s.runs[j]);
    }
  }

  lemma {:induction false} PutCallbackAdvances(s: State, i: nat, r: Run, out: seq<Output>)
    requires i < |s.runs| && Evolves(s.runs[i], r) && CallbackMoved(s.runs[i], r, out)
    requires r.tasks == s.runs[i].tasks
    ensures Advances(s, Put(s, i, r, out), i, out)
  {
    var s' := Put(s, i, r, out);
    forall j | 0 <= j < |s.runs| ensures RunAdvances(s, s', i, out, j) {
      UnchangedOk(CtxOf(s, j), s.runs[j]);
    }
    hide Evolves, OutputOk;
  }

  lemma {:induction false} CallbackAdvances(s: State, e: Event) returns (out: seq<Output>)
    requires Inv(s) && (e.MarkInjected? || e.MarkDelivered?)
    ensures Advances(s, Next(s, e), Touched(s, e), out)
  {
    out := [];
    hide RunInv, Advances, Evolves;
    if e.agentId in s.owned {
      var i := s.owned[e.agentId];
      CallbackOk(CtxOf(s, i), s.runs[i], e.session, if e.MarkInjected? then e.messageId else "", e.epoch);
      if e.MarkInjected? && CanInject(s.runs[i], e.session, e.epoch) {
        out := [CallbackInjected(e.epoch)];
        PutCallbackAdvances(s, i, InjectedRun(CtxOf(s, i), s.runs[i], e.messageId), out);
        return;
      } else if e.MarkDelivered? && CanDeliver(s.runs[i], e.session, e.epoch) {
        out := [CallbackDelivered(e.epoch)];
        PutCallbackAdvances(s, i, DeliveredRun(CtxOf(s, i), s.runs[i]), out);
        return;
      }
    }
    IdleAdvances(s, Next(s, e), Touched(s, e));
  }

  lemma {:induction false} BulkAdvances(s: State, e: Event)
    requires Inv(s) && Enabled(s, e)
    requires e.Abandon? || e.CloseMark? || e.CloseFinish? || (e.Restore? && s.phase == Open)
    ensures Advances(s, Next(s, e), 0, [])
  {
    hide Inv, Abandoned, Replaced, CloseMarked, CloseFinished;
    var s' := Next(s, e);
    forall j | 0 <= j < |s.runs| ensures RunAdvances(s, s', 0, [], j) {
      var c, r := CtxOf(s, j), s.runs[j];
      UnchangedOk(c, r);
      match e
      case Abandon(reason) => AbandonedOk(c, r, reason);
      case Restore(_) => ReplacedOk(c, r);
      case CloseMark => CloseMarkedOk(c, r);
      case CloseFinish => CloseFinishedOk(c, r);
    }
    AllAdvance(s, s');
  }

  /** Segments of a caller, its lock or a task. */
  lemma {:induction false} OneRunAdvances(s: State, e: Event) returns (out: seq<Output>)
    requires Inv(s) && Enabled(s, e)
    requires e.SpawnReport? || e.SpawnReap? || e.Acquire? || e.Resume? || e.TaskRuns?
    ensures Advances(s, Next(s, e), Touched(s, e), out)
  {
    hide RunInv, Advances, StepOk, InputFresh, Live, AcquireTurn, HolderTurn, TaskSegment, SpawnReported, CanTake;
    out := [];
    var s' := Next(s, e);
    match e
    case SpawnReport(i, raised) =>
      SpawnReportedOk(CtxOf(s, i), s.runs[i], raised);
      PutAdvances(s, s', i, SpawnReported(CtxOf(s, i), s.runs[i], raised), []);
    case SpawnReap(i) =>
      ReapOk(CtxOf(s, i), s.runs[i]);
      PutAdvances(s, s', i, s.runs[i].(spawn := SpawnOver), []);
    case Acquire(op) =>
      var i := s.waiting[op].run;
      var t := AcquireTurn(CtxOf(s, i), s.runs[i], op, s.waiting[op].request);
      AcquireOk(CtxOf(s, i), s.runs[i], op, s.waiting[op].request);
      PutAdvances(s, s', i, t.run, t.out);
      out := t.out;
    case Resume(i, raised) =>
      var t := HolderTurn(CtxOf(s, i), s.runs[i], raised);
      TurnOk(CtxOf(s, i), s.runs[i], raised);
      PutAdvances(s, s', i, t.run, t.out);
      out := t.out;
    case TaskRuns(i, k, choice) =>
      var t := TaskSegment(CtxOf(s, i), s.runs[i], k, choice);
      TaskOk(CtxOf(s, i), s.runs[i], k, choice);
      PutAdvances(s, s', i, t.run, t.out);
      out := t.out;
  }

  lemma {:induction false} WaitAdvances(s: State, agentId: string)
    requires Inv(s)
    ensures Advances(s, Next(s, WaitCall(agentId)), Touched(s, WaitCall(agentId)), [])
  {
    hide RunInv, Advances, StepOk, Fence;
    var s' := Next(s, WaitCall(agentId));
    if Visible(s, agentId) {
      var i := s.owned[agentId];
      FenceOk(CtxOf(s, i), s.runs[i]);
      PutAdvances(s, s', i, Fence(s.runs[i]), []);
    } else {
      IdleAdvances(s, s', Touched(s, WaitCall(agentId)));
    }
  }

  /** Every event advances every run and adds only allowed entries to the log. */
  lemma {:induction false} NextAdvances(s: State, e: Event) returns (out: seq<Output>)
    requires Inv(s) && Enabled(s, e)
    ensures Advances(s, Next(s, e), Touched(s, e), out)
  {
    hide Inv, Advances;
    out := [];
    match e
    case SpawnCall(agentId, prompt, depth, callback, profileKnown) =>
      if SpawnRefusal(s, depth, profileKnown).Some? {
        IdleAdvances(s, Next(s, e), Touched(s, e));
      } else {
        SpawnAdvances(s, agentId, prompt, callback);
        out := Spawned(Ctx(s.phase, s.session, s.generation, true, s.clock), agentId, callback, prompt).out;
      }
    case SpawnReport(_, _) | SpawnReap(_) | Acquire(_) | Resume(_, _) | TaskRuns(_, _, _) =>
      out := OneRunAdvances(s, e);
    case WaitCall(agentId) => WaitAdvances(s, agentId);
    case MarkInjected(_, _, _, _) | MarkDelivered(_, _, _) => out := CallbackAdvances(s, e);
    case Abandon(_) | CloseMark | CloseFinish => BulkAdvances(s, e);
    case Restore(_) => if s.phase == Open { BulkAdvances(s, e); } else { IdleAdvances(s, Next(s, e), 0); }
    case Call(_, _, _) | UpdateSession(_, _, _, _) | CloseCall | Tick(_) => IdleAdvances(s, Next(s, e), 0);
  }

  lemma {:induction false} ReapOk(c: Ctx, r: Run)
    ensures StepOk(c, r, r.(spawn := SpawnOver), [])
  {
  }

  lemma {:induction false} IdleAdvances(s: State, s': State, i: nat)
    requires s'.runs == s.runs && s'.log == s.log
    ensures Advances(s, s', i, [])
  {
    forall j | 0 <= j < |s.runs| ensures RunAdvances(s, s', i, [], j) {
      UnchangedOk(CtxOf(s, j), s.runs[j]);
    }
  }
}
