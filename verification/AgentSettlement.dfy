/** When a finished run is settled, over every execution: the exact conditions, and what waits,
    cancels, launches and close make of it. */
module AgentSettlement {
  import opened AgentModel
  import opened AgentInvariant
  import opened AgentEvolution
  import opened AgentRestore
  import opened AgentRuntime
  import opened AgentExecution
  import opened AgentTheorems
  import opened AgentSafety
  import opened AgentDone

  // ----- the done event over an execution -----

  /** Event `n` sets the done event of run `i`. */
  ghost predicate SettledAt(events: seq<Event>, states: seq<State>, n: nat, i: nat)
    requires |states| == |events| + 1 && n < |events|
  {
    i < |states[n].runs| && Settles(states[n], events[n], i)
  }

  /** Event `n` begins a new launch of run `i`. */
  ghost predicate RestartedAt(states: seq<State>, n: nat, i: nat)
    requires n + 1 < |states|
  {
    i < |states[n].runs| && i < |states[n + 1].runs| && Restarts(states[n].runs[i], states[n + 1].runs[i])
  }

  ghost predicate NoRestart(states: seq<State>, m: nat, n: nat, i: nat)
    requires n < |states|
  {
    forall j | m <= j < n :: !RestartedAt(states, j, i)
  }

  lemma {:induction false} DoneAt(s: State, events: seq<Event>, states: seq<State>, n: nat, i: nat)
    requires Inv(s) && Execution(s, events, states) && n < |events| && i < |states[n].runs|
    ensures DoneMoves(states[n], states[n + 1], i, SettledAt(events, states, n, i))
  {
    hide Inv, Enabled, Next, DoneMoves, Settles;
    ExecutionInv(s, events, states, n);
    assert Linked(events, states, n);
    DoneStep(states[n], events[n], i);
  }

  lemma {:induction false} DoneBetween(s: State, events: seq<Event>, states: seq<State>, m: nat, n: nat, i: nat)
    requires Inv(s) && Execution(s, events, states) && m <= n < |states| && i < |states[m].runs|
    requires NoRestart(states, m, n, i)
    ensures i < |states[n].runs|
    ensures states[n].runs[i].done
            <==> states[m].runs[i].done || exists j | m <= j < n :: SettledAt(events, states, j, i)
    decreases n
  {
    hide Inv, Enabled, Next, SettledAt, Linked, Restarts;
    if m < n {
      DoneBetween(s, events, states, m, n - 1, i);
      DoneAt(s, events, states, n - 1, i) by { hide RestartedAt; }
      assert !RestartedAt(states, n - 1, i);
    }
  }

  // ----- settlement -----

  /** Nobody is inside an operation on this run. */
  predicate Quiet(s: State, i: nat)
    requires i < |s.runs|
  {
    s.runs[i].control.Free? && (s.phase == Open || s.phase == Closed)
  }

  /** The run is of an earlier generation than the manager. */
  predicate Stale(s: State, i: nat)
    requires i < |s.runs|
  {
    s.runs[i].generation < s.generation
  }

  /** When no operation is in flight on a run and its task has finished, its done event is set,
      unless the run was carried over into a newer generation and nobody detached it. A run that
      left the map is settled, and so is a detached one. */
  lemma {:induction false} Settlement(s: State, events: seq<Event>, states: seq<State>, n: nat, i: nat)
    requires Inv(s) && Execution(s, events, states) && n < |states| && i < |states[n].runs|
    ensures Quiet(states[n], i) && !Live(states[n].runs[i]) ==>
              states[n].runs[i].done
              || (states[n].phase == Open && Stale(states[n], i) && Mapped(states[n], i) && !states[n].runs[i].detached)
    ensures !Mapped(states[n], i) ==> states[n].runs[i].done
    ensures states[n].runs[i].detached && states[n].phase == Open ==> states[n].runs[i].done
  {
    ExecutionInv(s, events, states, n);
    SettledOrStale(CtxOf(states[n], i), states[n].runs[i]) by { assert RunInv(CtxOf(states[n], i), states[n].runs[i]); }
    hide Inv, Execution, RunInv;
  }

  lemma {:induction false} SettledOrStale(c: Ctx, r: Run)
    requires RunInv(c, r)
    ensures r.control.Free? && (c.phase == Open || c.phase == Closed) && !Live(r) && !r.done ==>
              c.phase == Open && r.generation < c.generation
    ensures !r.done ==> c.mapped && c.phase != Closed && (c.phase == Open ==> !r.detached)
    ensures c.phase == Open && !r.done ==> Current(c, r) || r.generation < c.generation
    ensures r.generation <= c.generation
  {
    hide OwnershipInv, ControlInv, HistoryInv;
  }

  lemma {:induction false} UnsettledIsStale(s: State, i: nat)
    requires Inv(s) && i < |s.runs|
    ensures !s.runs[i].done && s.phase == Open ==> IsCurrent(s, i) || Stale(s, i)
    ensures s.runs[i].generation <= s.generation
  {
    SettledOrStale(CtxOf(s, i), s.runs[i]) by { assert RunInv(CtxOf(s, i), s.runs[i]); }
    hide RunInv, Current;
  }

  /** One event moves the manager's generation up or leaves it, and only a session switch
      moves it. */
  lemma {:induction false} GenerationMoves(s: State, e: Event)
    requires Inv(s) && Enabled(s, e)
    ensures s.generation <= Next(s, e).generation && (Next(s, e).phase == Open ==> s.phase == Open)
    ensures s.generation < Next(s, e).generation ==> e.UpdateSession? && Next(s, e).runs == s.runs
  {
    ManagerAdvances(s, e);
    hide RunInv, AcquireTurn, HolderTurn, TaskSegment, SpawnReported, Abandoned, Replaced, CloseMarked, CloseFinished;
    hide RestoredRuns, Index, Adopted, Detached, Shift;
  }

  /** What one event of an execution leaves of a run's identity. */
  lemma {:induction false} RunAt(s: State, events: seq<Event>, states: seq<State>, n: nat, i: nat)
    requires Inv(s) && Execution(s, events, states) && n < |events| && i < |states[n].runs|
    ensures i < |states[n + 1].runs| && states[n + 1].runs[i].generation == states[n].runs[i].generation
    ensures states[n + 1].runs[i].snapshot.agentId == states[n].runs[i].snapshot.agentId
    ensures states[n].generation <= states[n + 1].generation
            && (states[n + 1].phase == Open ==> states[n].phase == Open)
    ensures states[n].generation < states[n + 1].generation ==>
              events[n].UpdateSession? && states[n + 1].runs == states[n].runs
  {
    hide Inv, Enabled, Next, Touched, Linked;
    RunEvolves(s, events, states, n, n + 1, i);
    var out := StepAt(s, events, states, n);
    GenerationMoves(states[n], events[n]);
  }

  lemma {:induction false} StaleStays(s: State, events: seq<Event>, states: seq<State>, m: nat, n: nat, i: nat)
    requires Inv(s) && Execution(s, events, states) && m <= n < |states| && i < |states[m].runs| && Stale(states[m], i)
    ensures i < |states[n].runs| && Stale(states[n], i)
  {
    hide Inv, Linked;
    if m < n {
      StaleStays(s, events, states, m, n - 1, i);
      RunAt(s, events, states, n - 1, i);
    }
  }

  /** A run that was unsettled when its generation ended is settled later exactly if one of the
      settling events came: nothing else settles it and nothing unsettles it again. */
  lemma {:induction false} StaleIsSettledIff(s: State, events: seq<Event>, states: seq<State>, m: nat, n: nat, i: nat)
    requires Inv(s) && Execution(s, events, states) && m <= n < |states| && i < |states[m].runs|
    requires Stale(states[m], i) && !states[m].runs[i].done
    ensures i < |states[n].runs|
    ensures states[n].runs[i].done <==> exists j | m <= j < n :: SettledAt(events, states, j, i)
  {
    hide Inv, Linked, SettledAt;
    forall j | m <= j < n ensures !RestartedAt(states, j, i) {
      StaleStays(s, events, states, m, j, i);
      DoneAt(s, events, states, j, i);
    }
    DoneBetween(s, events, states, m, n, i);
  }

  /** A new generation began at event `j` while run `i` was unsettled. */
  ghost predicate CarriedOver(events: seq<Event>, states: seq<State>, j: nat, i: nat)
    requires |states| == |events| + 1 && j < |events|
  {
    events[j].UpdateSession? && states[j].generation < states[j + 1].generation
    && i < |states[j].runs| && !states[j].runs[i].done
  }

  /** An unsettled run of an earlier generation was carried over unsettled. */
  lemma {:induction false} StaleWasCarried(s: State, events: seq<Event>, states: seq<State>, n: nat, i: nat)
    returns (j: nat)
    requires Inv(s) && Execution(s, events, states) && n < |states| && |s.runs| <= i < |states[n].runs|
    requires Stale(states[n], i) && !states[n].runs[i].done && states[n].phase == Open
    ensures j < n && CarriedOver(events, states, j, i)
    ensures i < |states[j + 1].runs| && Stale(states[j + 1], i) && !states[j + 1].runs[i].done
    ensures forall k | j <= k < n :: !SettledAt(events, states, k, i)
  {
    hide Inv, Linked, SettledAt, Enabled, Next;
    assert n > 0;
    j := n - 1;
    if i < |states[j].runs| {
      DoneAt(s, events, states, j, i);
      RunAt(s, events, states, j, i);
      ExecutionInv(s, events, states, j);
      UnsettledIsStale(states[j], i);
      if Stale(states[j], i) {
        j := StaleWasCarried(s, events, states, j, i);
      }
    } else {
      NewRunAt(s, events, states, j, i);
    }
  }

  lemma {:induction false} NewRunAt(s: State, events: seq<Event>, states: seq<State>, n: nat, i: nat)
    requires Inv(s) && Execution(s, events, states) && n < |events| && |states[n].runs| <= i < |states[n + 1].runs|
    ensures !Stale(states[n + 1], i)
  {
    hide Inv, Enabled, Next;
    ExecutionInv(s, events, states, n);
    assert Linked(events, states, n);
    ManagerAdvances(states[n], events[n]);
  }

  /** A finished run with no operation in flight is unsettled exactly if a new generation began
      while it was unsettled and nothing has settled it since. */
  lemma {:induction false} StrandedIff(s: State, events: seq<Event>, states: seq<State>, n: nat, i: nat)
    requires Inv(s) && Execution(s, events, states) && n < |states| && |s.runs| <= i < |states[n].runs|
    requires Quiet(states[n], i) && !Live(states[n].runs[i])
    ensures !states[n].runs[i].done
            <==> exists j | 0 <= j < n :: CarriedOver(events, states, j, i)
                                          && forall k | j <= k < n :: !SettledAt(events, states, k, i)
  {
    hide Inv, Linked, SettledAt, CarriedOver, Quiet, Live;
    Settlement(s, events, states, n, i);
    if !states[n].runs[i].done {
      var j := StaleWasCarried(s, events, states, n, i);
    }
    forall j | 0 <= j < n && CarriedOver(events, states, j, i)
        && forall k | j <= k < n :: !SettledAt(events, states, k, i)
      ensures !states[n].runs[i].done
    {
      CarriedIsStale(s, events, states, j, i);
      StaleIsSettledIff(s, events, states, j + 1, n, i);
    }
  }

  lemma {:induction false} CarriedIsStale(s: State, events: seq<Event>, states: seq<State>, j: nat, i: nat)
    requires Inv(s) && Execution(s, events, states) && j < |events| && CarriedOver(events, states, j, i)
    ensures i < |states[j + 1].runs| && Stale(states[j + 1], i) && !states[j + 1].runs[i].done
  {
    hide Inv, Linked;
    RunAt(s, events, states, j, i);
    ExecutionInv(s, events, states, j);
    UnsettledIsStale(states[j], i);
  }

  /** A new generation starts only when every run in the map is settled: what abandon and
      restore see to before a session switch. */
  ghost predicate Disciplined(events: seq<Event>, states: seq<State>) 
    requires |states| == |events| + 1
  {
    forall j, i | 0 <= j < |events| && 0 <= i < |states[j].runs| && Mapped(states[j], i) ::
      !CarriedOver(events, states, j, i)
  }

  /** Under that discipline a finished run with no operation in flight is settled. */
  lemma {:induction false} DisciplinedSettlement(s: State, events: seq<Event>, states: seq<State>, n: nat, i: nat)
    requires Inv(s) && Execution(s, events, states) && n < |states| && |s.runs| <= i < |states[n].runs|
    requires Disciplined(events, states) && Quiet(states[n], i) && !Live(states[n].runs[i])
    ensures states[n].runs[i].done
  {
    StrandedIff(s, events, states, n, i);
    hide Inv, Linked, SettledAt, Quiet, Live;
    forall j | 0 <= j < n ensures !CarriedOver(events, states, j, i) {
      if i < |states[j].runs| && !states[j].runs[i].done {
        Settlement(s, events, states, j, i);
      }
    }
  }

  /** Who settles a run that was left behind like that: a spawn that finds it gone, a wait that
      still sees it, an abandon or a restore. Later, the end of close. */
  lemma {:induction false} StrandedIsSettledBy(s: State, e: Event, i: nat)
    requires Inv(s) && Enabled(s, e) && i < |s.runs|
    requires s.phase == Open && Quiet(s, i) && !Live(s.runs[i]) && !s.runs[i].done
    ensures Settles(s, e, i) <==>
              e.Abandon? || e.Restore? || (e.SpawnReport? && e.run == i)
              || (e.WaitCall? && Visible(s, e.agentId) && s.owned[e.agentId] == i)
  {
    assert RunInv(CtxOf(s, i), s.runs[i]);
    StrandedFacts(CtxOf(s, i), s.runs[i]);
    hide Inv, RunInv, InputFresh, Visible, SettlesItself, CanTake, Live;
  }

  lemma {:induction false} StrandedFacts(c: Ctx, r: Run)
    requires RunInv(c, r) && c.phase == Open && r.control.Free? && !Live(r) && !r.done
    ensures HasTask(r) && c.mapped && !SpawnValid(c, r) && forall k, choice :: !SettlesItself(r, k, choice)
  {
    hide OwnershipInv, HistoryInv, ControlInv;
  }

  // ----- waits -----

  /** A wait whose run has finished finds the done event set and keeps finding it set until the
      next launch; and no waiter is left on a finished current run without operations. */
  lemma {:induction false} WaiterIsNotLeft(s: State, events: seq<Event>, states: seq<State>, m: nat, n: nat,
      agentId: string)
    requires Inv(s) && Execution(s, events, states) && m < n < |states|
    requires events[m] == WaitCall(agentId) && Visible(states[m], agentId)
    ensures var i := states[m].owned[agentId];
            i < |states[n].runs|
            && (Fences(states[m], agentId, i) && NoRestart(states, m, n, i) ==> states[n].runs[i].done)
            && (Quiet(states[n], i) && IsCurrent(states[n], i) && !Live(states[n].runs[i]) ==> states[n].runs[i].done)
  {
    var i := states[m].owned[agentId];
    RunEvolves(s, events, states, m, n, i);
    Settlement(s, events, states, n, i);
    if Fences(states[m], agentId, i) && NoRestart(states, m, n, i) {
      assert SettledAt(events, states, m, i);
      hide Inv, Linked, SettledAt, RestartedAt, HasTask, Live;
      DoneBetween(s, events, states, m, n, i);
    }
    hide *;
  }

  lemma {:induction false} MappedBefore(s: State, events: seq<Event>, states: seq<State>, m: nat, n: nat, i: nat)
    requires Inv(s) && Execution(s, events, states) && m <= n < |states| && i < |states[m].runs|
    ensures i < |states[n].runs|
    ensures Mapped(states[n], i) ==> Mapped(states[m], i)
    ensures states[m].runs[i].detached ==> states[n].runs[i].detached
    ensures states[n].runs[i].generation == states[m].runs[i].generation <= states[m].generation <= states[n].generation
  {
    hide Inv, Enabled, Next, Linked, Mapped, Touched;
    RunEvolves(s, events, states, m, n, i);
    ExecutionInv(s, events, states, m);
    UnsettledIsStale(states[m], i);
    if m < n {
      MappedBefore(s, events, states, m, n - 1, i);
      var out := StepAt(s, events, states, n - 1);
      RunAt(s, events, states, n - 1, i);
      if Mapped(states[n], i) {
        MapShrinks(states[n - 1], events[n - 1], i);
      }
    }
  }

  /** What a wait answers is the state of the very run it was called for. Unless nobody has the
      id any more, that run was in the map, undetached and of the manager's generation all the
      time: a replacement under the same id, also one that came and went, gives no answer. */
  lemma {:induction false} WaitAnswersItsRun(s: State, events: seq<Event>, states: seq<State>, m: nat, n: nat, k: nat,
      agentId: string)
    requires Inv(s) && Execution(s, events, states) && m <= k <= n < |states| && Visible(states[m], agentId)
    ensures var i := states[m].owned[agentId];
            i < |states[k].runs| && i < |states[n].runs|
            && (WaitAnswer(states[n], agentId, i).Some? ==>
                  WaitAnswer(states[n], agentId, i).value.agentId == agentId
                  && (agentId in states[n].owned ==>
                        Mapped(states[k], i) && !states[k].runs[i].detached && !Stale(states[k], i)))
  {
    var i := states[m].owned[agentId];
    ExecutionInv(s, events, states, m);
    assert states[m].runs[i].snapshot.agentId == agentId;
    RunEvolves(s, events, states, m, n, i) by { hide Inv, Visible; }
    MappedBefore(s, events, states, m, k, i) by { hide Inv, Visible; }
    MappedBefore(s, events, states, k, n, i) by { hide Inv, Visible; }
    hide Inv, Linked, Visible;
  }

  // ----- close -----

  /** After close every run is settled and every tracked task, so every detached one, has
      finished. A task still unfinished is untracked and hands over its completion, was launched
      with the done event set, or is awaited by a spawn that gave its reservation up. */
  lemma {:induction false} ClosedIsSettled(s: State, events: seq<Event>, states: seq<State>, n: nat, i: nat)
    requires Inv(s) && Execution(s, events, states) && n < |states| && i < |states[n].runs|
    requires states[n].phase == Closed
    ensures var r := states[n].runs[i];
            r.done && (forall k | 0 <= k < |r.tasks| && r.tasks[k].tracked :: r.tasks[k].pc == Finished)
            && (Live(r) ==> AfterDone(Last(r).pc) || Stillborn(r) || r.spawn.SpawnReaping?)
  {
    ExecutionInv(s, events, states, n);
    assert RunInv(CtxOf(states[n], i), states[n].runs[i]);
    hide Execution;
  }

  lemma {:induction false} MarkJoins(c: Ctx, r: Run)
    requires RunInv(c, r) && c.phase == Closing && Live(r)
    ensures var r' := CloseMarked(c.mapped, r);
            |r'.tasks| == |r.tasks|
            && (Last(r').joined <==> Last(r).tracked || (c.mapped && !r.done))
            && (!Last(r').joined ==> AfterDone(Last(r).pc) || Stillborn(r) || r.spawn.SpawnReaping?)
  {
    hide HistoryInv, ControlInv;
  }

  /** Close joins exactly the unfinished tasks that are tracked or belong to an unsettled run in
      the map: those have finished when it ends. The others have set their done event already,
      were launched with it set, or are awaited by a spawn. */
  lemma {:induction false} CloseJoinsIff(s: State, events: seq<Event>, states: seq<State>, m: nat, n: nat, i: nat)
    requires Inv(s) && Execution(s, events, states) && m < n < |events| && i < |states[m].runs|
    requires events[m] == CloseMark && events[n] == CloseFinish && Live(states[m].runs[i])
    ensures i < |states[m + 1].runs| && i < |states[n].runs|
    ensures var r, k := states[m].runs[i], |states[m].runs[i].tasks| - 1;
            k < |states[m + 1].runs[i].tasks| && k < |states[n].runs[i].tasks|
            && (states[m + 1].runs[i].tasks[k].joined <==> r.tasks[k].tracked || (Mapped(states[m], i) && !r.done))
            && (if states[m + 1].runs[i].tasks[k].joined then states[n].runs[i].tasks[k].pc == Finished
                else AfterDone(r.tasks[k].pc) || Stillborn(r) || r.spawn.SpawnReaping?)
  {
    hide Inv, Linked, CloseMarked, Stillborn, AfterDone, RunInv, Evolves, Mapped;
    MarkedAt(s, events, states, m, i);
    MarkJoins(CtxOf(states[m], i), states[m].runs[i]);
    RunEvolves(s, events, states, m + 1, n, i);
    JoinsStay(states[m + 1].runs[i], states[n].runs[i]);
    FinishedAt(events, states, n, i);
  }

  lemma {:induction false} JoinsStay(r: Run, r': Run)
    requires Evolves(r, r')
    ensures |r.tasks| <= |r'.tasks|
    ensures forall k | 0 <= k < |r.tasks| && r.tasks[k].joined :: r'.tasks[k].joined
  {
  }

  lemma {:induction false} MarkedAt(s: State, events: seq<Event>, states: seq<State>, m: nat, i: nat)
    requires Inv(s) && Execution(s, events, states) && m < |events| && events[m] == CloseMark && i < |states[m].runs|
    ensures i < |states[m + 1].runs| && states[m + 1].runs[i] == CloseMarked(Mapped(states[m], i), states[m].runs[i])
    ensures RunInv(CtxOf(states[m], i), states[m].runs[i]) && states[m].phase == Closing
  {
    ExecutionInv(s, events, states, m);
    assert Linked(events, states, m);
    hide CloseMarked, RunInv;
  }

  lemma {:induction false} FinishedAt(events: seq<Event>, states: seq<State>, n: nat, i: nat)
    requires |states| == |events| + 1 && n < |events| && Linked(events, states, n) && events[n] == CloseFinish
    requires i < |states[n].runs|
    ensures forall k | 0 <= k < |states[n].runs[i].tasks| && states[n].runs[i].tasks[k].joined ::
              states[n].runs[i].tasks[k].pc == Finished
  {
    hide FinishAll;
  }

  // ----- cancel -----

  /** A cancel that answers true leaves the run settled and its task finished. */
  lemma {:induction false} CancelTrueIsSettled(s: State, events: seq<Event>, states: seq<State>, n: nat, i: nat,
      raised: bool)
    requires Inv(s) && Execution(s, events, states) && n < |events| && events[n] == Resume(i, raised)
    requires i < |states[n].runs| && states[n].runs[i].control.Held?
    requires CancelHolder(states[n].runs[i].control.at)
    requires states[n].runs[i].control.op in states[n + 1].replies
    requires states[n + 1].replies[states[n].runs[i].control.op] == Returned(true)
    ensures i < |states[n + 1].runs|
    ensures var r := states[n + 1].runs[i]; r.done && HasTask(r) && !Live(r)
  {
    ExecutionInv(s, events, states, n);
    assert Linked(events, states, n);
    assert RunInv(CtxOf(states[n], i), states[n].runs[i]);
    hide RunInv, Inv, HolderTurn;
    CancelTurnSettles(CtxOf(states[n], i), states[n].runs[i], raised);
  }

  predicate CancelHolder(at: ControlPc) {
    at.CancelAwait? || at.CancelReport? || at.CancelComplete?
  }

  lemma {:induction false} CancelTurnSettles(c: Ctx, r: Run, raised: bool)
    requires RunInv(c, r) && r.control.Held?
    requires r.control.at.CancelAwait? || r.control.at.CancelReport? || r.control.at.CancelComplete?
    requires r.control.at.CancelAwait? ==> !Live(r)
    requires HolderTurn(c, r, raised).reply == Returned(true)
    ensures var r' := HolderTurn(c, r, raised).run; r'.done && HasTask(r') && !Live(r')
  {
    hide SettledInv, OwnershipInv, HistoryInv;
  }
}
