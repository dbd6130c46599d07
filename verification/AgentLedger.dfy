/** Exactly-once facts, read off the log of an execution: an input id is accepted once, a
    callback epoch is injected once and delivered once, a launch hands over one completion. */
module AgentLedger {
  import opened StreamText
  import opened AgentModel
  import opened AgentInvariant
  import opened AgentEvolution
  import opened AgentRuntime
  import opened AgentExecution
  import opened AgentTheorems
  import opened AgentSafety

  /** The run's callback has got at least as far as `rank` in epoch `epoch`. */
  predicate Past(r: Run, epoch: nat, rank: nat) {
    epoch < r.snapshot.callbackEpoch
    || (epoch == r.snapshot.callbackEpoch && rank <= Rank(r.snapshot.callbackState))
  }

  /** What a log entry proves about its run from then on. */
  ghost predicate Recorded(r: Run, o: Output) {
    match o
    case InputAccepted(uuid, _) => HasUuid(r.messages, uuid)
    case CallbackInjected(epoch) => Past(r, epoch, 1)
    case CallbackDelivered(epoch) => Past(r, epoch, 2)
    case _ => true
  }

  /** Two entries that may not both be about one run. */
  predicate Clash(a: Output, b: Output) {
    (a.InputAccepted? && b.InputAccepted? && a.uuid == b.uuid)
    || (a.CallbackInjected? && a == b)
    || (a.CallbackDelivered? && a == b)
  }

  function Completions(log: seq<Entry>, i: nat): nat {
    if log == [] then 0
    else Completions(log[..|log| - 1], i)
         + (if log[|log| - 1].run == i && log[|log| - 1].output.Completion? then 1 else 0)
  }

  ghost predicate RecordedAt(s: State, n: nat)
    requires n < |s.log|
  {
    s.log[n].run < |s.runs| && Recorded(s.runs[s.log[n].run], s.log[n].output)
  }

  ghost predicate EntriesOk(s: State) {
    && (forall n | 0 <= n < |s.log| :: RecordedAt(s, n))
    && (forall n, m | 0 <= n < m < |s.log| && s.log[n].run == s.log[m].run :: !Clash(s.log[n].output, s.log[m].output))
  }

  /** Every launch hands over at most one completion; an open one has not yet. */
  predicate Budget(s: State, i: nat)
    requires i < |s.runs|
  {
    Completions(s.log, i) + (if MayComplete(s.runs[i]) then 1 else 0) <= |s.runs[i].tasks|
  }

  ghost predicate LogInv(s: State) {
    EntriesOk(s) && forall i | 0 <= i < |s.runs| :: Budget(s, i)
  }

  // ----- one event -----

  lemma {:induction false} RecordedStays(r: Run, r': Run, o: Output)
    requires Evolves(r, r') && Recorded(r, o)
    ensures Recorded(r', o)
  {
    if o.InputAccepted? {
      var k :| 0 <= k < |r.messages| && r.messages[k].uuid == o.uuid;
      assert r'.messages[k].uuid == o.uuid;
    }
  }

  /** A fresh entry is recorded afterwards, and was not possible before. */
  lemma {:induction false} FreshEntry(c: Ctx, r: Run, r': Run, out: seq<Output>, a: nat)
    requires a < |out| && (OutputOk(c, r, r', out) || CallbackMoved(r, r', out))
    ensures Recorded(r', out[a])
    ensures forall o: Output | Clash(o, out[a]) :: !Recorded(r, o)
    ensures forall b | 0 <= b < a :: !Clash(out[b], out[a])
  {
    assert out[a] in out;
    if OutputOk(c, r, r', out) {
      forall b | 0 <= b < a ensures !Clash(out[b], out[a]) {
        assert out[b] in out;
      }
    }
  }

  lemma {:induction false} EntriesStay(s: State, s': State, i: nat, out: seq<Output>)
    requires EntriesOk(s) && Advances(s, s', i, out)
    ensures EntriesOk(s')
  {
    hide Evolves, OutputOk, CallbackMoved, Recorded, Clash;
    var n0 := |s.log|;
    forall n | 0 <= n < |s'.log| ensures RecordedAt(s', n) {
      if n < n0 {
        assert RecordedAt(s, n);
        var j := s.log[n].run;
        assert RunAdvances(s, s', i, out, j);
        RecordedStays(s.runs[j], s'.runs[j], s.log[n].output);
      } else {
        NewRecorded(s, s', i, out, n - n0);
      }
    }
    forall n, m | 0 <= n < m < |s'.log| && s'.log[n].run == s'.log[m].run
      ensures !Clash(s'.log[n].output, s'.log[m].output)
    {
      if m >= n0 {
        NoClash(s, s', i, out, n, m);
      }
    }
  }

  lemma {:induction false} NewRecorded(s: State, s': State, i: nat, out: seq<Output>, a: nat)
    requires Advances(s, s', i, out) && a < |out|
    ensures RecordedAt(s', |s.log| + a)
  {
    hide RunAdvances, OutputOk, CallbackMoved, Current;
    assert s'.log[|s.log| + a] == Entry(i, out[a]);
    if i < |s.runs| && i < |s'.runs|
        && (OutputOk(CtxOf(s, i), s.runs[i], s'.runs[i], out) || CallbackMoved(s.runs[i], s'.runs[i], out)) {
      FreshEntry(CtxOf(s, i), s.runs[i], s'.runs[i], out, a);
    } else {
      assert out[a] in out;
    }
  }

  lemma {:induction false} NoClash(s: State, s': State, i: nat, out: seq<Output>, n: nat, m: nat)
    requires EntriesOk(s) && Advances(s, s', i, out)
    requires n < m < |s'.log| && |s.log| <= m && s'.log[n].run == s'.log[m].run
    ensures !Clash(s'.log[n].output, s'.log[m].output)
  {
    hide RunAdvances, OutputOk, CallbackMoved, Current;
    var a := m - |s.log|;
    assert s'.log[m] == Entry(i, out[a]);
    if i < |s.runs| && i < |s'.runs|
        && (OutputOk(CtxOf(s, i), s.runs[i], s'.runs[i], out) || CallbackMoved(s.runs[i], s'.runs[i], out)) {
      FreshEntry(CtxOf(s, i), s.runs[i], s'.runs[i], out, a);
      if n < |s.log| {
        assert RecordedAt(s, n);
      } else {
        assert s'.log[n] == Entry(i, out[n - |s.log|]);
      }
    } else {
      assert out[a] in out;
    }
  }

  lemma {:induction false} CompletionsAppend(log: seq<Entry>, i: nat, j: nat, out: seq<Output>)
    ensures Completions(log + Tag(i, out), j)
            == Completions(log, j) + (if i == j then Completions(Tag(i, out), i) else 0)
  {
    if out == [] {
      assert log + Tag(i, out) == log;
    } else {
      var init := out[..|out| - 1];
      CompletionsAppend(log, i, j, init);
      assert (log + Tag(i, out))[..|log| + |out| - 1] == log + Tag(i, init);
      assert Tag(i, out)[..|out| - 1] == Tag(i, init);
    }
  }

  lemma {:induction false} CompletionsOf(i: nat, out: seq<Output>)
    ensures (forall o | o in out :: !o.Completion?) ==> Completions(Tag(i, out), i) == 0
    ensures |out| == 1 && out[0].Completion? ==> Completions(Tag(i, out), i) == 1
  {
    if out != [] {
      var init := out[..|out| - 1];
      CompletionsOf(i, init);
      assert Tag(i, out)[..|out| - 1] == Tag(i, init);
      assert out[|out| - 1] in out;
      assert forall o | o in init :: o in out;
    }
  }

  lemma {:induction false} NoEntries(log: seq<Entry>, i: nat)
    requires forall n | 0 <= n < |log| :: log[n].run != i
    ensures Completions(log, i) == 0
  {
    if log != [] {
      NoEntries(log[..|log| - 1], i);
    }
  }

  /** A completion of an existing run uses up its open launch. */
  lemma {:induction false} CompletionUsesLaunch(c: Ctx, r: Run, r': Run, i: nat, out: seq<Output>)
    requires out == [] || OutputOk(c, r, r', out) || CallbackMoved(r, r', out)
    ensures Completions(Tag(i, out), i) == 0
            || (Completions(Tag(i, out), i) == 1 && MayComplete(r) && !MayComplete(r') && |r'.tasks| == |r.tasks|)
  {
    hide MayComplete;
    CompletionsOf(i, out);
    if exists o | o in out :: o.Completion? {
      var o :| o in out && o.Completion?;
      assert OutputOk(c, r, r', out);
    }
  }

  lemma {:induction false} BudgetOfRun(s: State, s': State, i: nat, out: seq<Output>, j: nat)
    requires j < |s.runs| && Budget(s, j) && Advances(s, s', i, out)
    ensures Budget(s', j)
  {
    CompletionsAppend(s.log, i, j, out);
    assert RunAdvances(s, s', i, out, j);
    if i == j {
      CompletionUsesLaunch(CtxOf(s, i), s.runs[i], s'.runs[i], i, out) by { hide OutputOk, CallbackMoved, RunAdvances; }
    }
    hide OutputOk, CallbackMoved, MayComplete;
  }

  lemma {:induction false} BudgetOfNewRun(s: State, e: Event, out: seq<Output>, j: nat)
    requires Inv(s) && EntriesOk(s) && Enabled(s, e) && Advances(s, Next(s, e), Touched(s, e), out)
    requires |s.runs| <= j < |Next(s, e).runs|
    ensures Budget(Next(s, e), j)
  {
    hide RunInv, RunAdvances, OutputOk, CallbackMoved, Recorded, Clash;
    var s' := Next(s, e);
    forall n | 0 <= n < |s.log| ensures s.log[n].run != j {
      assert RecordedAt(s, n);
    }
    NoEntries(s.log, j);
    CompletionsAppend(s.log, Touched(s, e), j, out);
    CompletionsOf(Touched(s, e), out);
    NewRunTasks(s, e, j);
  }

  /** A run created by spawn has one open launch, a restored one has none. */
  lemma {:induction false} NewRunTasks(s: State, e: Event, j: nat)
    requires Inv(s) && Enabled(s, e) && |s.runs| <= j < |Next(s, e).runs|
    ensures var r := Next(s, e).runs[j];
            (e.SpawnCall? && |r.tasks| == 1) || (e.Restore? && !MayComplete(r))
  {
    hide RunInv, AcquireTurn, HolderTurn, TaskSegment, SpawnReported, Abandoned, Replaced, CloseMarked, CloseFinished;
    if e.Restore? && s.phase == Open {
      RestoredRunSettledAt(s, e.items, j);
    }
  }

  lemma {:induction false} RestoredRunSettledAt(s: State, items: seq<AgentRestore.Item>, j: nat)
    requires s.phase == Open && |s.runs| <= j < |RestoreAll(s, items).runs|
    ensures RestoreAll(s, items).runs[j].tasks == []
  {
    AgentRestore.RestoredRunSettled(s.session, s.generation, s.clock, items, j - |s.runs|);
  }

  lemma {:induction false} LogStep(s: State, e: Event)
    requires Inv(s) && LogInv(s) && Enabled(s, e)
    ensures LogInv(Next(s, e))
  {
    var out := NextAdvances(s, e);
    var s' := Next(s, e);
    EntriesStay(s, s', Touched(s, e), out);
    hide Inv, Enabled, Next, Touched, EntriesOk, Budget;
    forall j | 0 <= j < |s'.runs| ensures Budget(s', j) {
      if j < |s.runs| {
        BudgetOfRun(s, s', Touched(s, e), out, j);
      } else {
        BudgetOfNewRun(s, e, out, j);
      }
    }
  }

  /** Every event keeps all there is to know about the manager. */
  lemma {:induction false} ManagerKeeps(s: State, e: Event)
    requires Inv(s) && LogInv(s) && Enabled(s, e)
    ensures Inv(Next(s, e)) && LogInv(Next(s, e))
  {
    hide Inv, LogInv, Enabled, Next;
    NextKeeps(s, e);
    LogStep(s, e);
  }

  lemma {:induction false} ExecutionLog(s: State, events: seq<Event>, states: seq<State>, n: nat)
    requires Inv(s) && LogInv(s) && Execution(s, events, states) && n < |states|
    ensures LogInv(states[n])
  {
    hide Inv, LogInv, Enabled, Next;
    if n > 0 {
      ExecutionLog(s, events, states, n - 1);
      ExecutionInv(s, events, states, n - 1);
      assert Linked(events, states, n - 1);
      LogStep(states[n - 1], events[n - 1]);
    }
  }

  // ----- whole executions -----

  /** For one run, no input id is accepted twice, no epoch is injected twice and none is
      delivered twice, whatever calls are repeated or overlap. */
  lemma {:induction false} ExactlyOnce(s: State, events: seq<Event>, states: seq<State>, n: nat, a: nat, b: nat)
    requires Inv(s) && LogInv(s) && Execution(s, events, states) && n < |states|
    requires a < b < |states[n].log| && states[n].log[a].run == states[n].log[b].run
    ensures !Clash(states[n].log[a].output, states[n].log[b].output)
  {
    ExecutionLog(s, events, states, n);
  }

  /** An accepted input is in the run's history ever after, at one place only. */
  lemma {:induction false} AcceptedInputIsKept(s: State, events: seq<Event>, states: seq<State>, n: nat, a: nat)
    requires Inv(s) && LogInv(s) && Execution(s, events, states) && n < |states|
    requires a < |states[n].log| && states[n].log[a].output.InputAccepted?
    ensures states[n].log[a].run < |states[n].runs|
    ensures var messages := states[n].runs[states[n].log[a].run].messages;
            HasUuid(messages, states[n].log[a].output.uuid) && DistinctUuids(messages)
  {
    ExecutionLog(s, events, states, n);
    ExecutionInv(s, events, states, n);
    assert RecordedAt(states[n], a);
    var i := states[n].log[a].run;
    assert RunInv(CtxOf(states[n], i), states[n].runs[i]);
  }

  /** A run hands over at most one completion per launch. */
  lemma {:induction false} OneCompletionPerLaunch(s: State, events: seq<Event>, states: seq<State>, n: nat, i: nat)
    requires Inv(s) && LogInv(s) && Execution(s, events, states) && n < |states| && i < |states[n].runs|
    ensures Completions(states[n].log, i) <= |states[n].runs[i].tasks|
  {
    ExecutionLog(s, events, states, n);
    assert Budget(states[n], i);
  }

  /** The epoch moves only when an input is accepted, by exactly one. */
  lemma {:induction false} EpochCountsInputs(s: State, events: seq<Event>, states: seq<State>, n: nat, i: nat)
    requires Inv(s) && Execution(s, events, states) && n < |events| && i < |states[n].runs|
    ensures i < |states[n + 1].runs|
    ensures var r, r' := states[n].runs[i], states[n + 1].runs[i];
            r'.snapshot.callbackEpoch != r.snapshot.callbackEpoch ==>
              r'.snapshot.callbackEpoch == r.snapshot.callbackEpoch + 1
              && |states[n].log| < |states[n + 1].log|
              && states[n + 1].log[|states[n].log|].run == i
              && states[n + 1].log[|states[n].log|].output.InputAccepted?
  {
    var out := StepAt(s, events, states, n);
    hide Inv, Enabled, Next, Linked;
    EpochMoves(states[n], states[n + 1], Touched(states[n], events[n]), out, i);
  }

  lemma {:induction false} EpochMoves(s: State, s': State, t: nat, out: seq<Output>, i: nat)
    requires Advances(s, s', t, out) && i < |s.runs|
    ensures s'.runs[i].snapshot.callbackEpoch != s.runs[i].snapshot.callbackEpoch ==>
              s'.runs[i].snapshot.callbackEpoch == s.runs[i].snapshot.callbackEpoch + 1
              && |s.log| < |s'.log| && s'.log[|s.log|].run == i && s'.log[|s.log|].output.InputAccepted?
  {
    hide Evolves, OutputOk, CallbackMoved, IsCurrent;
    assert RunAdvances(s, s', t, out, i);
    if out != [] {
      assert s'.log[|s.log|] == Tag(t, out)[0];
    }
  }

  /** An id the history of a run holds is never accepted again, whoever brought it there. */
  lemma {:induction false} KnownIdIsNotAccepted(s: State, events: seq<Event>, states: seq<State>, m: nat, n: nat,
      i: nat, k: nat, id: string)
    requires Inv(s) && Execution(s, events, states) && m <= n < |states| && i < |states[m].runs|
    requires HasUuid(states[m].runs[i].messages, id)
    requires |states[m].log| <= k < |states[n].log| && states[n].log[k].run == i
    ensures !states[n].log[k].output.InputAccepted? || states[n].log[k].output.uuid != id
  {
    hide Inv, Enabled, Next, Touched, Linked, Advances, Evolves, HasUuid;
    if m < n {
      var out := StepAt(s, events, states, n - 1);
      RunEvolves(s, events, states, m, n - 1, i);
      LogGrows(states[n - 1], states[n], Touched(states[n - 1], events[n - 1]), out);
      if k < |states[n - 1].log| {
        KnownIdIsNotAccepted(s, events, states, m, n - 1, i, k, id);
      } else {
        IdIsKept(states[m].runs[i], states[n - 1].runs[i], id);
        KnownIdInStep(states[n - 1], states[n], Touched(states[n - 1], events[n - 1]), out, i, k, id);
      }
    }
  }

  lemma {:induction false} IdIsKept(r: Run, r': Run, id: string)
    requires Evolves(r, r') && HasUuid(r.messages, id)
    ensures HasUuid(r'.messages, id)
  {
    RecordedStays(r, r', InputAccepted(id, 0));
  }

  lemma {:induction false} KnownIdInStep(s: State, s': State, t: nat, out: seq<Output>, i: nat, k: nat, id: string)
    requires Advances(s, s', t, out) && i < |s.runs| && HasUuid(s.runs[i].messages, id)
    requires |s.log| <= k < |s'.log| && s'.log[k].run == i
    ensures !s'.log[k].output.InputAccepted? || s'.log[k].output.uuid != id
  {
    var a := k - |s.log|;
    assert s'.log[k] == Tag(t, out)[a] == Entry(t, out[a]);
    hide RunAdvances, OutputOk, CallbackMoved, Current, HasUuid;
    FreshEntry(CtxOf(s, i), s.runs[i], s'.runs[i], out, a);
    assert Recorded(s.runs[i], InputAccepted(id, 0));
  }

  lemma {:induction false} InitLog(limits: Limits, session: string, env: string, cwd: string, now: int)
    ensures LogInv(Init(limits, session, env, cwd, now))
  {
  }
}
