/** Every enabled event keeps the invariant, so every reachable state has it. */
module AgentExecution {
  import opened StreamText
  import opened AgentModel
  import opened AgentInvariant
  import opened AgentRestore
  import opened AgentRuntime

  // ----- one run changes -----

  lemma {:induction false} SlotsUnchanged(runs: seq<Run>, runs': seq<Run>)
    requires |runs| <= |runs'|
    requires forall i | 0 <= i < |runs| :: InSlot(runs'[i]) == InSlot(runs[i])
    requires forall i | |runs| <= i < |runs'| :: !InSlot(runs'[i])
    ensures SlotHolders(runs') == SlotHolders(runs)
  {
    hide InSlot;
  }

  lemma {:induction false} PutKeeps(s: State, i: nat, r: Run, out: seq<Output>)
    requires Inv(s) && i < |s.runs| && RunInv(CtxOf(s, i), r)
    requires KeepsPlace(s.runs[i], r)
    ensures Inv(Put(s, i, r, out))
  {
    hide RunInv;
    var s' := Put(s, i, r, out);
    SlotsUnchanged(s.runs, s'.runs);
    forall j | 0 <= j < |s'.runs| ensures RunInv(CtxOf(s', j), s'.runs[j]) {
      assert CtxOf(s', j) == CtxOf(s, j);
    }
  }

  lemma {:induction false} SpawnKeeps(s: State, agentId: string, prompt: Message, callback: bool)
    requires Inv(s) && agentId !in s.owned && s.phase == Open && s.session != ""
    ensures Inv(Spawn(s, agentId, prompt, callback))
  {
    var s' := Spawn(s, agentId, prompt, callback);
    var n := |s.runs|;
    SpawnedKeeps(CtxOf(s', n), agentId, callback, prompt);
    SlotsUnchanged(s.runs, s'.runs);
    forall j | 0 <= j < |s'.runs| ensures RunInv(CtxOf(s', j), s'.runs[j]) {
      if j < n {
        assert CtxOf(s', j) == CtxOf(s, j);
      }
    }
  }

  /** A run leaves the map; nobody else's place in it changes. */
  lemma {:induction false} UnmapKeeps(s: State, i: nat, r: Run)
    requires Inv(s) && i < |s.runs| && Mapped(s, i) && KeepsPlace(s.runs[i], r)
    requires RunInv(CtxOf(s, i).(mapped := false), r)
    ensures Inv(Put(s, i, r, []).(owned := s.owned - {r.snapshot.agentId}))
  {
    hide RunInv;
    var s' := Put(s, i, r, []).(owned := s.owned - {r.snapshot.agentId});
    SlotsUnchanged(s.runs, s'.runs);
    forall j | 0 <= j < |s'.runs| ensures RunInv(CtxOf(s', j), s'.runs[j]) {
      if j == i {
        assert CtxOf(s', j) == CtxOf(s, j).(mapped := false);
      } else {
        assert CtxOf(s', j) == CtxOf(s, j);
      }
    }
  }

  lemma {:induction false} ReportSpawnKeeps(s: State, i: nat, raised: bool)
    requires Inv(s) && Enabled(s, SpawnReport(i, raised))
    ensures Inv(ReportSpawn(s, i, raised))
  {
    hide RunInv, SpawnReported;
    var r := SpawnReported(CtxOf(s, i), s.runs[i], raised);
    SpawnReportedKeeps(CtxOf(s, i), s.runs[i], raised);
    SpawnPlace(CtxOf(s, i), s.runs[i], raised);
    if r.spawn.SpawnReaping? && Mapped(s, i) {
      UnmapKeeps(s, i, r);
    } else {
      if r.spawn.SpawnReaping? {
        assert CtxOf(s, i).(mapped := false) == CtxOf(s, i);
      }
      PutKeeps(s, i, r, []);
    }
  }

  lemma {:induction false} ReapKeeps(s: State, i: nat)
    requires Inv(s) && Enabled(s, SpawnReap(i))
    ensures Inv(Put(s, i, s.runs[i].(spawn := SpawnOver), []))
  {
    SpawnReapedKeeps(CtxOf(s, i), s.runs[i]);
    hide RunInv;
    PutKeeps(s, i, s.runs[i].(spawn := SpawnOver), []);
  }

  // ----- the callers -----

  /** Bookkeeping of waiting callers and replies touches no run. */
  lemma {:induction false} CallersKeep(s: State, waiting: map<OpId, Waiter>, replies: map<OpId, Reply>)
    requires Inv(s) && forall op | op in waiting :: waiting[op].run < |s.runs|
    ensures Inv(s.(waiting := waiting, replies := replies))
  {
    hide RunInv;
    var s' := s.(waiting := waiting, replies := replies);
    forall j | 0 <= j < |s'.runs| ensures RunInv(CtxOf(s', j), s'.runs[j]) {
      assert CtxOf(s', j) == CtxOf(s, j);
    }
  }

  lemma {:induction false} PlaceCallKeeps(s: State, op: OpId, agentId: string, request: Request)
    requires Inv(s)
    ensures Inv(PlaceCall(s, op, agentId, request))
  {
    var s' := PlaceCall(s, op, agentId, request);
    CallersKeep(s, s'.waiting, s'.replies);
  }

  lemma {:induction false} AcquireTurnKeeps(c: Ctx, r: Run, op: OpId, request: Request)
    requires RunInv(c, r) && r.control.Free? && (request.Input? ==> InputFresh(r, request.input))
    ensures RunInv(c, AcquireTurn(c, r, op, request).run) && KeepsPlace(r, AcquireTurn(c, r, op, request).run)
  {
    hide RunInv, InputFresh, KeepsPlace, CancelAcquired, InputAcquired;
    match request
    case CancelRequest => CancelAcquiredKeeps(c, r, op); CancelPlace(c, r, op);
    case Input(q) => InputAcquiredKeeps(c, r, op, q); InputPlace(c, r, op, q);
  }

  lemma {:induction false} TakeLockKeeps(s: State, op: OpId)
    requires Inv(s) && Enabled(s, Acquire(op))
    ensures Inv(TakeLock(s, op))
  {
    hide RunInv, InputFresh, AcquireTurn;
    var w := s.waiting[op];
    var t := AcquireTurn(CtxOf(s, w.run), s.runs[w.run], op, w.request);
    AcquireTurnKeeps(CtxOf(s, w.run), s.runs[w.run], op, w.request);
    PutKeeps(s, w.run, t.run, t.out);
    CallersKeep(Put(s, w.run, t.run, t.out), s.waiting - {op}, s.replies[op := t.reply]);
  }

  lemma {:induction false} ReportIsIdle(c: Ctx, r: Run)
    requires RunInv(c, r) && r.control.Held? && r.control.at.InputReport?
    ensures !Live(r)
  {
  }

  lemma {:induction false} HolderTurnKeeps(c: Ctx, r: Run, raised: bool)
    requires RunInv(c, r) && r.control.Held?
    requires r.control.at.CancelAwait? || r.control.at.InputAwait? ==> !Live(r)
    ensures RunInv(c, HolderTurn(c, r, raised).run) && KeepsPlace(r, HolderTurn(c, r, raised).run)
  {
    hide RunInv, KeepsPlace, CancelAwaited, CancelReported, CancelCompleted, InputAwaited, InputReported, Live;
    var op := r.control.op;
    match r.control.at
    case CancelAwait => CancelAwaitedKeeps(c, r, op); CancelPlace(c, r, op);
    case CancelReport => CancelReportedKeeps(c, r, op, raised); CancelledPlace(c, r, op, raised);
    case CancelComplete(failed) => CancelCompletedKeeps(c, r, op, failed); CancelledPlace(c, r, op, failed);
    case InputAwait(q) => InputAwaitedKeeps(c, r, op, q); InputAwaitedPlace(c, r, op, q);
    case InputReport => InputReportedKeeps(c, r, op, raised); ReportIsIdle(c, r); LaunchPlace(c, r, raised);
  }

  lemma {:induction false} ResumeKeeps(s: State, i: nat, raised: bool)
    requires Inv(s) && Enabled(s, Resume(i, raised))
    ensures Inv(ResumeHolder(s, i, raised))
  {
    hide RunInv, HolderTurn, Live;
    var t := HolderTurn(CtxOf(s, i), s.runs[i], raised);
    HolderTurnKeeps(CtxOf(s, i), s.runs[i], raised);
    PutKeeps(s, i, t.run, t.out);
    CallersKeep(Put(s, i, t.run, t.out), s.waiting, s.replies[s.runs[i].control.op := t.reply]);
  }

  lemma {:induction false} WaitKeeps(s: State, agentId: string)
    requires Inv(s) && Visible(s, agentId)
    ensures Inv(Put(s, s.owned[agentId], Fence(s.runs[s.owned[agentId]]), []))
  {
    hide RunInv, Fence;
    var i := s.owned[agentId];
    FenceKeeps(CtxOf(s, i), s.runs[i]);
    SwitchPlace(CtxOf(s, i), s.runs[i], "");
    PutKeeps(s, i, Fence(s.runs[i]), []);
  }

  // ----- the semaphore -----

  lemma {:induction false} SlotTaken(runs: seq<Run>, i: nat, r: Run)
    requires i < |runs|
    ensures InSlot(r) && !InSlot(runs[i]) ==> |SlotHolders(runs[i := r])| == |SlotHolders(runs)| + 1
    ensures !InSlot(r) && InSlot(runs[i]) ==> |SlotHolders(runs[i := r])| == |SlotHolders(runs)| - 1
  {
    hide InSlot;
    if InSlot(r) && !InSlot(runs[i]) {
      assert SlotHolders(runs[i := r]) == SlotHolders(runs) + {i};
    } else if !InSlot(r) && InSlot(runs[i]) {
      assert SlotHolders(runs) == SlotHolders(runs[i := r]) + {i};
    }
  }

  lemma {:induction false} PutSlotKeeps(s: State, i: nat, r: Run, out: seq<Output>, slots: nat)
    requires Inv(s) && i < |s.runs| && RunInv(CtxOf(s, i), r) && r.snapshot.agentId == s.runs[i].snapshot.agentId
    requires slots == s.slots + (if InSlot(s.runs[i]) then 1 else 0) - (if InSlot(r) then 1 else 0)
    ensures Inv(Put(s, i, r, out).(slots := slots))
  {
    hide RunInv;
    var s' := Put(s, i, r, out).(slots := slots);
    if InSlot(r) == InSlot(s.runs[i]) {
      SlotsUnchanged(s.runs, s'.runs);
    } else {
      SlotTaken(s.runs, i, r);
    }
    hide InSlot;
    forall j | 0 <= j < |s'.runs| ensures RunInv(CtxOf(s', j), s'.runs[j]) {
      assert CtxOf(s', j) == CtxOf(s, j);
    }
  }

  /** The manager's slot count follows the task in and out of the semaphore. */
  lemma {:induction false} SlotDelta(c: Ctx, r: Run, k: nat, choice: TaskChoice)
    requires RunInv(c, r) && CanTake(r, k, choice)
    ensures var r' := TaskSegment(c, r, k, choice).run;
            r'.snapshot.agentId == r.snapshot.agentId
            && (if InSlot(r') then 1 else 0) - (if InSlot(r) then 1 else 0)
               == (if Enters(r, k, choice) then 1 else if Leaves(r, k, choice) then -1 else 0)
  {
    hide RunInv;
    LiveTaskIsLast(c, r, k, choice);
    if choice.Advance? {
      AdvancePlace(c, r, k);
    } else {
      TaskPlace(c, r, k, choice);
    }
    hide AdvanceTask, EndBody, FailBody, StopBody, HandleText, HandleRetry, HandleError, HandleOther;
  }

  lemma {:induction false} RunTaskKeeps(s: State, i: nat, k: nat, choice: TaskChoice)
    requires Inv(s) && Enabled(s, TaskRuns(i, k, choice))
    ensures Inv(RunTask(s, i, k, choice))
  {
    hide RunInv, TaskSegment, InSlot, CanTake, Enters, Leaves;
    var c, r := CtxOf(s, i), s.runs[i];
    TaskKeeps(c, r, k, choice);
    SlotDelta(c, r, k, choice);
    var e := TaskSegment(c, r, k, choice);
    PutSlotKeeps(s, i, e.run, e.out, RunTask(s, i, k, choice).slots);
  }

  // ----- all runs change -----

  /** A change of all runs and of the phase that keeps the map. */
  lemma {:induction false} AllKeeps(s: State, s': State)
    requires Inv(s) && s'.owned == s.owned && s'.waiting == s.waiting && s'.slots == s.slots && s'.limits == s.limits
    requires |s'.runs| == |s.runs|
    requires forall i | 0 <= i < |s.runs| :: KeepsPlace(s.runs[i], s'.runs[i])
    requires forall i | 0 <= i < |s.runs| :: RunInv(CtxOf(s', i), s'.runs[i])
    ensures Inv(s')
  {
    hide RunInv;
    SlotsUnchanged(s.runs, s'.runs);
  }

  lemma {:induction false} AbandonAllKeeps(s: State, reason: string)
    requires Inv(s)
    ensures Inv(AbandonAll(s, reason))
  {
    hide RunInv, Abandoned, KeepsPlace;
    var s' := AbandonAll(s, reason);
    forall i | 0 <= i < |s.runs| ensures RunInv(CtxOf(s', i), s'.runs[i]) && KeepsPlace(s.runs[i], s'.runs[i]) {
      AbandonKeeps(CtxOf(s, i), s.runs[i], reason);
      SwitchPlace(CtxOf(s, i), s.runs[i], reason);
      SamePlace(s.runs[i]);
      assert CtxOf(s', i) == CtxOf(s, i) by { SameIds(s, s', i); }
    }
    AllKeeps(s, s');
  }

  lemma {:induction false} SamePlace(r: Run)
    ensures KeepsPlace(r, r)
  {
  }

  lemma {:induction false} SameIds(s: State, s': State, i: nat)
    requires i < |s.runs| == |s'.runs| && s'.owned == s.owned
    requires s'.runs[i].snapshot.agentId == s.runs[i].snapshot.agentId
    ensures Mapped(s', i) == Mapped(s, i)
  {
  }

  lemma {:induction false} SwitchKeeps(s: State, e: Event)
    requires Inv(s) && e.UpdateSession?
    ensures Inv(Switch(s, e.env, e.session, e.cwd, e.force))
  {
    var s' := Switch(s, e.env, e.session, e.cwd, e.force);
    forall i | 0 <= i < |s.runs| ensures RunInv(CtxOf(s', i), s'.runs[i]) {
      assert Mapped(s', i) == Mapped(s, i);
      UpdateKeeps(CtxOf(s, i), s.runs[i], s'.session, s'.generation);
    }
  }

  lemma {:induction false} TickKeeps(s: State, now: int)
    requires Inv(s)
    ensures Inv(s.(clock := now))
  {
    var s' := s.(clock := now);
    forall i | 0 <= i < |s.runs| ensures RunInv(CtxOf(s', i), s'.runs[i]) {
      assert CtxOf(s', i) == CtxOf(s, i).(now := now);
    }
  }

  lemma {:induction false} RestoredRunKeeps(c: Ctx, items: seq<Item>, i: nat)
    requires forall j | 0 <= j < |items| :: DistinctUuids(items[j].transcript)
    requires i < |RestoredRuns(c.session, c.generation, c.now, items)| && c.phase == Open
    ensures RunInv(c, RestoredRuns(c.session, c.generation, c.now, items)[i])
  {
    var j := RestoredRunsFrom(c.session, c.generation, c.now, items, i);
  }

  lemma {:induction false} KeptPlace(r: Run, r': Run)
    requires KeepsPlace(r, r')
    ensures InSlot(r') == InSlot(r)
  {
  }

  /** A restore empties the map before it fills it: every earlier run leaves it. */
  lemma {:induction false} ReplacedAt(s: State, items: seq<Item>, i: nat)
    requires Inv(s) && s.phase == Open && i < |s.runs|
    ensures RunInv(CtxOf(RestoreAll(s, items), i), RestoreAll(s, items).runs[i])
    ensures KeepsPlace(s.runs[i], RestoreAll(s, items).runs[i])
  {
    hide RunInv, Replaced;
    var s' := RestoreAll(s, items);
    SwitchPlace(CtxOf(s, i), s.runs[i], "");
    ReplacedKeeps(CtxOf(s, i), s.runs[i]);
    assert !Mapped(s', i);
    assert CtxOf(s', i) == CtxOf(s, i).(mapped := false);
  }

  lemma {:induction false} AdoptedAt(s: State, items: seq<Item>, i: nat)
    requires Inv(s) && s.phase == Open && Enabled(s, Restore(items)) && |s.runs| <= i < |RestoreAll(s, items).runs|
    ensures RunInv(CtxOf(RestoreAll(s, items), i), RestoreAll(s, items).runs[i])
    ensures !InSlot(RestoreAll(s, items).runs[i])
  {
    hide RunInv, Inv, Replaced, Index, Shift, RestoredRuns, RestoredRun, Mapped, Last;
    RestoredRunKeeps(CtxOf(RestoreAll(s, items), i), items, i - |s.runs|);
    RestoredRunSettled(s.session, s.generation, s.clock, items, i - |s.runs|);
  }

  lemma {:induction false} ShiftedMap(prior: seq<Run>, adopted: seq<Run>, index: map<string, nat>)
    requires forall a | a in index :: index[a] < |adopted| && adopted[index[a]].snapshot.agentId == a
    ensures var owned, runs := Shift(index, |prior|), prior + adopted;
            forall a | a in owned :: owned[a] < |runs| && runs[owned[a]].snapshot.agentId == a
  {
  }

  lemma {:induction false} RestoredMap(s: State, items: seq<Item>)
    requires Inv(s)
    ensures MapOk(RestoreAll(s, items))
  {
    var adopted := Adopted(s, items);
    ShiftedMap(Detached(s), adopted, Index(adopted));
    hide RunInv, Replaced, Adopted, SlotHolders, RestoredRuns, CtxOf, Index, Shift, Detached, Inv;
  }

  lemma {:induction false} RestoreAllKeeps(s: State, items: seq<Item>)
    requires Inv(s) && s.phase == Open && Enabled(s, Restore(items))
    ensures Inv(RestoreAll(s, items))
  {
    var s' := RestoreAll(s, items);
    RestoredMap(s, items);
    hide RunInv, Replaced, InSlot, KeepsPlace, MapOk, Adopted, Index;
    forall i | 0 <= i < |s'.runs|
      ensures RunInv(CtxOf(s', i), s'.runs[i])
      ensures if i < |s.runs| then InSlot(s'.runs[i]) == InSlot(s.runs[i]) else !InSlot(s'.runs[i])
    {
      if i < |s.runs| {
        ReplacedAt(s, items, i);
        KeptPlace(s.runs[i], s'.runs[i]);
      } else {
        AdoptedAt(s, items, i);
      }
    }
    SlotsUnchanged(s.runs, s'.runs);
  }

  lemma {:induction false} CloseCallAllKeeps(s: State)
    requires Inv(s) && s.phase == Open
    ensures Inv(s.(phase := Closing))
  {
    var s' := s.(phase := Closing);
    forall i | 0 <= i < |s.runs| ensures RunInv(CtxOf(s', i), s'.runs[i]) {
      CloseCalledKeeps(CtxOf(s, i), s.runs[i]);
      assert CtxOf(s', i) == CtxOf(s, i).(phase := Closing);
    }
  }

  lemma {:induction false} MarkAllKeeps(s: State)
    requires Inv(s) && s.phase == Closing
    ensures Inv(MarkAll(s))
  {
    hide RunInv, CloseMarked, KeepsPlace;
    var s' := MarkAll(s);
    forall i | 0 <= i < |s.runs| ensures RunInv(CtxOf(s', i), s'.runs[i]) && KeepsPlace(s.runs[i], s'.runs[i]) {
      CloseMarkedKeeps(CtxOf(s, i), s.runs[i]);
      ClosePlace(CtxOf(s, i), s.runs[i]);
      assert CtxOf(s', i) == CtxOf(s, i).(phase := Marked) by { PlaceIds(s, s', i); }
    }
    AllKeeps(s, s');
  }

  lemma {:induction false} PlaceIds(s: State, s': State, i: nat)
    requires i < |s.runs| == |s'.runs| && s'.owned == s.owned && KeepsPlace(s.runs[i], s'.runs[i])
    ensures Mapped(s', i) == Mapped(s, i)
  {
  }

  lemma {:induction false} FinishAllKeeps(s: State)
    requires Inv(s) && Enabled(s, CloseFinish)
    ensures Inv(FinishAll(s))
  {
    hide RunInv, CloseFinished, KeepsPlace;
    var s' := FinishAll(s);
    forall i | 0 <= i < |s.runs| ensures RunInv(CtxOf(s', i), s'.runs[i]) && KeepsPlace(s.runs[i], s'.runs[i]) {
      CloseFinishedKeeps(CtxOf(s, i), s.runs[i]);
      ClosePlace(CtxOf(s, i), s.runs[i]);
      assert CtxOf(s', i) == CtxOf(s, i).(phase := Closed) by { PlaceIds(s, s', i); }
    }
    AllKeeps(s, s');
  }

  // ----- every event -----

  lemma {:induction false} NextKeeps(s: State, e: Event)
    requires Inv(s) && Enabled(s, e)
    ensures Inv(Next(s, e))
  {
    hide Inv, RunInv;
    match e
    case SpawnCall(agentId, prompt, depth, callback, profileKnown) =>
      if SpawnRefusal(s, depth, profileKnown).None? {
        SpawnKeeps(s, agentId, prompt, callback);
      }
    case SpawnReport(i, raised) => ReportSpawnKeeps(s, i, raised);
    case SpawnReap(i) => ReapKeeps(s, i);
    case Call(op, agentId, request) => PlaceCallKeeps(s, op, agentId, request);
    case Acquire(op) => TakeLockKeeps(s, op);
    case Resume(i, raised) => ResumeKeeps(s, i, raised);
    case TaskRuns(i, k, choice) => RunTaskKeeps(s, i, k, choice);
    case WaitCall(agentId) => if Visible(s, agentId) { WaitKeeps(s, agentId); }
    case Abandon(reason) => AbandonAllKeeps(s, reason);
    case UpdateSession(_, _, _, _) => SwitchKeeps(s, e);
    case Restore(items) => if s.phase == Open { RestoreAllKeeps(s, items); }
    case CloseCall => if s.phase == Open { CloseCallAllKeeps(s); }
    case CloseMark => MarkAllKeeps(s);
    case CloseFinish => FinishAllKeeps(s);
    case MarkInjected(_, _, _, _) | MarkDelivered(_, _, _) => CallbackAllKeeps(s, e);
    case Tick(now) => TickKeeps(s, now);
  }

  lemma {:induction false} CallbackAllKeeps(s: State, e: Event)
    requires Inv(s) && (e.MarkInjected? || e.MarkDelivered?)
    ensures Inv(Next(s, e))
  {
    hide RunInv;
    if e.agentId in s.owned {
      var i := s.owned[e.agentId];
      assert forall r: Run, snapshot: Snapshot | snapshot.agentId == r.snapshot.agentId ::
               KeepsPlace(r, r.(snapshot := snapshot));
      CallbackKeeps(CtxOf(s, i), s.runs[i], if e.MarkInjected? then e.messageId else "");
      if e.MarkInjected? && CanInject(s.runs[i], e.session, e.epoch) {
        PutKeeps(s, i, InjectedRun(CtxOf(s, i), s.runs[i], e.messageId), [CallbackInjected(e.epoch)]);
      } else if e.MarkDelivered? && CanDeliver(s.runs[i], e.session, e.epoch) {
        PutKeeps(s, i, DeliveredRun(CtxOf(s, i), s.runs[i]), [CallbackDelivered(e.epoch)]);
      }
    }
  }

  lemma {:induction false} InitInv(limits: Limits, session: string, env: string, cwd: string, now: int)
    ensures Inv(Init(limits, session, env, cwd, now))
  {
    assert SlotHolders([]) == {};
  }

  // ----- executions -----

  /** A run of the manager from `s` through `events`, one state before each event and one after. */
  ghost predicate Execution(s: State, events: seq<Event>, states: seq<State>) {
    && |states| == |events| + 1
    && states[0] == s
    && forall n | 0 <= n < |events| :: Linked(events, states, n)
  }

  ghost predicate Linked(events: seq<Event>, states: seq<State>, n: nat)
    requires |states| == |events| + 1 && n < |events|
  {
    Enabled(states[n], events[n]) && states[n + 1] == Next(states[n], events[n])
  }

  lemma {:induction false} ExecutionInv(s: State, events: seq<Event>, states: seq<State>, n: nat)
    requires Inv(s) && Execution(s, events, states) && n < |states|
    ensures Inv(states[n])
  {
    hide Inv, Enabled, Next;
    if n > 0 {
      ExecutionInv(s, events, states, n - 1);
      assert Linked(events, states, n - 1);
      NextKeeps(states[n - 1], events[n - 1]);
    }
  }
}
