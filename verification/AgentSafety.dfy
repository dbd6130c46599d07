/** The properties the manager promises, over every execution. */
module AgentSafety {
  import opened Common
  import opened AgentModel
  import opened AgentInvariant
  import opened AgentEvolution
  import opened AgentRestore
  import opened AgentRuntime
  import opened AgentExecution
  import opened AgentTheorems

  // ----- histories, epochs and tasks over an execution -----

  /** Over any stretch of an execution a run keeps its identity, its history and epoch only
      grow, its callback only advances within an epoch, and finished tasks stay finished. */
  lemma {:induction false} RunEvolves(s: State, events: seq<Event>, states: seq<State>, m: nat, n: nat, i: nat)
    requires Inv(s) && Execution(s, events, states) && m <= n < |states| && i < |states[m].runs|
    ensures i < |states[n].runs| && Evolves(states[m].runs[i], states[n].runs[i])
  {
    hide Inv, Evolves, Enabled, Next, Touched, Linked;
    if m == n {
      EvolvesReflexive(states[m].runs[i]);
    } else {
      RunEvolves(s, events, states, m, n - 1, i);
      var out := StepAt(s, events, states, n - 1);
      assert RunAdvances(states[n - 1], states[n], Touched(states[n - 1], events[n - 1]), out, i);
      EvolvesTransitive(states[m].runs[i], states[n - 1].runs[i], states[n].runs[i]);
    }
  }

  lemma {:induction false} EvolvesReflexive(r: Run)
    ensures Evolves(r, r)
  {
  }

  lemma {:induction false} StepAt(s: State, events: seq<Event>, states: seq<State>, n: nat) returns (out: seq<Output>)
    requires Inv(s) && Execution(s, events, states) && n < |events|
    ensures Inv(states[n]) && Enabled(states[n], events[n]) && states[n + 1] == Next(states[n], events[n])
    ensures Advances(states[n], states[n + 1], Touched(states[n], events[n]), out)
  {
    hide Inv, Advances, Enabled, Next, Touched;
    ExecutionInv(s, events, states, n);
    assert Linked(events, states, n);
    out := NextAdvances(states[n], events[n]);
  }

  /** A message once in a run's history is never lost. */
  lemma {:induction false} MessagesAreKept(s: State, events: seq<Event>, states: seq<State>, m: nat, n: nat, i: nat)
    requires Inv(s) && Execution(s, events, states) && m <= n < |states| && i < |states[m].runs|
    ensures i < |states[n].runs| && states[m].runs[i].messages <= states[n].runs[i].messages
  {
    RunEvolves(s, events, states, m, n, i);
  }

  // ----- ownership -----

  /** Not owned by the active session context any more. */
  predicate ForeignRun(s: State, i: nat)
    requires i < |s.runs|
  {
    var r := s.runs[i];
    r.detached || r.snapshot.sessionId != s.session || r.generation != s.generation
  }

  /** The manager's own clocks: phases advance, generations grow and only they change the
      session, and no run comes back into the map. */
  lemma {:induction false} ManagerAdvances(s: State, e: Event)
    requires Inv(s) && Enabled(s, e)
    ensures var s' := Next(s, e);
            (s'.phase == Open ==> s.phase == Open)
            && s.generation <= s'.generation
            && (s.generation == s'.generation ==> s.session == s'.session)
            && |s.runs| <= |s'.runs|
            && (forall i | |s.runs| <= i < |s'.runs| :: s'.runs[i].generation == s'.generation)
  {
    hide RunInv, AcquireTurn, HolderTurn, TaskSegment, SpawnReported, Abandoned, Replaced, CloseMarked, CloseFinished;
    hide RestoredRuns, Index, Adopted, Detached, Shift;
    if e.Restore? && s.phase == Open {
      AdoptedGenerations(s, e.items);
    }
  }

  lemma {:induction false} AdoptedGenerations(s: State, items: seq<Item>)
    ensures var s' := RestoreAll(s, items);
            s'.phase == s.phase && s'.generation == s.generation && s'.session == s.session && |s.runs| <= |s'.runs|
            && forall i | |s.runs| <= i < |s'.runs| :: s'.runs[i].generation == s'.generation
  {
    var s' := RestoreAll(s, items);
    forall i | |s.runs| <= i < |s'.runs| ensures s'.runs[i].generation == s'.generation {
      RestoredRunSettled(s.session, s.generation, s.clock, items, i - |s.runs|);
    }
  }

  lemma {:induction false} MapShrinks(s: State, e: Event, i: nat)
    requires Inv(s) && Enabled(s, e) && i < |s.runs| <= |Next(s, e).runs|
    requires Next(s, e).runs[i].snapshot.agentId == s.runs[i].snapshot.agentId
    requires Mapped(Next(s, e), i)
    ensures Mapped(s, i)
  {
    hide RunInv, AcquireTurn, HolderTurn, TaskSegment, SpawnReported, Abandoned, Replaced, CloseMarked, CloseFinished,
         Adopted;
  }

  lemma {:induction false} NoNewerRun(s: State, i: nat)
    requires Inv(s) && i < |s.runs|
    ensures s.runs[i].generation <= s.generation
  {
    assert RunInv(CtxOf(s, i), s.runs[i]);
  }

  /** A run that is not current, or foreign, before an event is so after it. */
  lemma {:induction false} OwnershipIsLost(s: State, e: Event, i: nat)
    requires Inv(s) && Enabled(s, e) && i < |s.runs|
    ensures i < |Next(s, e).runs|
    ensures !IsCurrent(s, i) ==> !IsCurrent(Next(s, e), i)
    ensures ForeignRun(s, i) ==> ForeignRun(Next(s, e), i)
  {
    var s' := Next(s, e);
    var out := NextAdvances(s, e);
    assert RunAdvances(s, s', Touched(s, e), out, i);
    ManagerAdvances(s, e);
    NoNewerRun(s, i);
    hide Inv, Enabled;
    if Mapped(s', i) {
      MapShrinks(s, e, i);
    }
  }

  /** Once a run stops being current it never becomes current again, even when its session
      id is used again; a foreign run stays foreign. */
  lemma {:induction false} NeverCurrentAgain(s: State, events: seq<Event>, states: seq<State>, m: nat, n: nat, i: nat)
    requires Inv(s) && Execution(s, events, states) && m <= n < |states| && i < |states[m].runs|
    ensures i < |states[n].runs|
    ensures !IsCurrent(states[m], i) ==> !IsCurrent(states[n], i)
    ensures ForeignRun(states[m], i) ==> ForeignRun(states[n], i)
  {
    hide Inv, Advances, Enabled, Next, Touched, Linked, IsCurrent, ForeignRun;
    if m < n {
      NeverCurrentAgain(s, events, states, m, n - 1, i);
      var out := StepAt(s, events, states, n - 1);
      OwnershipIsLost(states[n - 1], events[n - 1], i);
    }
  }

  /** Entries an event adds about a run that existed before it. */
  lemma {:induction false} NewEntry(s: State, s': State, i: nat, out: seq<Output>, k: nat)
    requires Advances(s, s', i, out) && |s.log| <= k < |s'.log| && s'.log[k].run < |s.runs|
    ensures s'.log[k].run == i && s'.log[k].output in out
    ensures Handed(s'.log[k].output) ==> IsCurrent(s', i)
    ensures s'.log[k].output.Transcript? ==> !ForeignRun(s', i)
  {
    assert s'.log[k] == Tag(i, out)[k - |s.log|];
    assert out[k - |s.log|] in out;
  }

  lemma {:induction false} LogGrows(s: State, s': State, i: nat, out: seq<Output>)
    requires Advances(s, s', i, out)
    ensures s.log <= s'.log
  {
  }

  /** After a run stopped being current nothing about it is handed to a sink; after it became
      foreign no transcript of it is written. */
  lemma {:induction false} NonCurrentIsSilent(s: State, events: seq<Event>, states: seq<State>, m: nat, n: nat,
      i: nat, k: nat)
    requires Inv(s) && Execution(s, events, states) && m <= n < |states| && i < |states[m].runs|
    requires |states[m].log| <= k < |states[n].log| && states[n].log[k].run == i
    ensures !IsCurrent(states[m], i) ==> !Handed(states[n].log[k].output)
    ensures ForeignRun(states[m], i) ==> !states[n].log[k].output.Transcript?
  {
    hide Inv, Enabled, Next, Touched, Linked, IsCurrent, ForeignRun, Advances, Evolves, Handed;
    if m < n {
      var out := StepAt(s, events, states, n - 1);
      RunEvolves(s, events, states, m, n - 1, i);
      LogGrows(states[n - 1], states[n], Touched(states[n - 1], events[n - 1]), out);
      if k < |states[n - 1].log| {
        NonCurrentIsSilent(s, events, states, m, n - 1, i, k);
      } else {
        NewEntry(states[n - 1], states[n], Touched(states[n - 1], events[n - 1]), out, k);
        NeverCurrentAgain(s, events, states, m, n, i);
      }
    }
  }

  /** A run is current exactly if the manager is open with a session, the run is the one under its id, not
      detached, and of this session and generation. */
  lemma {:induction false} CurrentIff(s: State, i: nat)
    requires i < |s.runs|
    ensures var r := s.runs[i];
            IsCurrent(s, i) <==>
              && s.phase == Open && s.session != "" && r.snapshot.sessionId == s.session
              && r.generation == s.generation && !r.detached
              && r.snapshot.agentId in s.owned && s.owned[r.snapshot.agentId] == i
  {
  }

  /** Whatever is handed to a sink about a run at any time, the run was the one under its id, undetached and of
      the open session and generation at every moment before. */
  lemma {:induction false} OnlyCurrentSpeaks(s: State, events: seq<Event>, states: seq<State>, m: nat, n: nat,
      i: nat, k: nat)
    requires Inv(s) && Execution(s, events, states) && m <= n < |states| && i < |states[m].runs|
    requires |states[m].log| <= k < |states[n].log| && states[n].log[k].run == i
    requires var o := states[n].log[k].output; o.StateEvent? || o.StreamEvent? || o.ErrorEvent? || o.Completion?
    ensures var t, r := states[m], states[m].runs[i];
            && t.phase == Open && t.session != "" && r.snapshot.sessionId == t.session
            && r.generation == t.generation && !r.detached
            && r.snapshot.agentId in t.owned && t.owned[r.snapshot.agentId] == i
  {
    NonCurrentIsSilent(s, events, states, m, n, i, k);
    CurrentIff(states[m], i);
    hide Inv, Execution, IsCurrent, ForeignRun;
  }

  // ----- tasks -----

  /** A run never has two unfinished tasks. */
  lemma {:induction false} OneTaskAtATime(s: State, events: seq<Event>, states: seq<State>, n: nat, i: nat, k: nat,
      l: nat)
    requires Inv(s) && Execution(s, events, states) && n < |states| && i < |states[n].runs|
    requires k < |states[n].runs[i].tasks| && l < |states[n].runs[i].tasks|
    requires states[n].runs[i].tasks[k].pc != Finished && states[n].runs[i].tasks[l].pc != Finished
    ensures k == l == |states[n].runs[i].tasks| - 1
  {
    ExecutionInv(s, events, states, n);
    assert RunInv(CtxOf(states[n], i), states[n].runs[i]);
  }

  /** A replacement is created only for a run that is current and whose tasks have all
      finished. */
  lemma {:induction false} ReplacementIsOwned(s: State, events: seq<Event>, states: seq<State>, n: nat, i: nat)
    requires Inv(s) && Execution(s, events, states) && n < |events| && i < |states[n].runs|
    ensures i < |states[n + 1].runs|
    ensures |states[n + 1].runs[i].tasks| != |states[n].runs[i].tasks| ==>
              IsCurrent(states[n], i)
              && NoneLive(states[n + 1].runs[i], |states[n].runs[i].tasks|)
  {
    hide Inv, Enabled, Next, Touched, Linked;
    var out := StepAt(s, events, states, n);
    assert RunAdvances(states[n], states[n + 1], Touched(states[n], events[n]), out, i);
  }

  /** The first `count` tasks have finished. */
  ghost predicate NoneLive(r: Run, count: nat) {
    count <= |r.tasks| && forall k | 0 <= k < count :: r.tasks[k].pc == Finished
  }

  /** Between semaphore entry and exit there are never more tasks than the configured limit. */
  lemma {:induction false} SlotsAreBounded(s: State, events: seq<Event>, states: seq<State>, n: nat)
    requires Inv(s) && Execution(s, events, states) && n < |states|
    ensures |SlotHolders(states[n].runs)| + states[n].slots == Capacity(states[n].limits)
  {
    ExecutionInv(s, events, states, n);
  }

  /** The streamed text is what the chunks spell in every run that was launched here. */
  lemma {:induction false} StreamedTextIsChunks(s: State, events: seq<Event>, states: seq<State>, n: nat, i: nat)
    requires Inv(s) && Execution(s, events, states) && n < |states| && i < |states[n].runs|
    ensures var r := states[n].runs[i]; HasTask(r) ==> r.finalText == Flatten(r.chunks)
  {
    ExecutionInv(s, events, states, n);
    assert RunInv(CtxOf(states[n], i), states[n].runs[i]);
  }
}
