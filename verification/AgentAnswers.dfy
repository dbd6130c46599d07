/** What cancel_agent and send_input do to the run they are called for, and what they answer, in every
    state of every execution: told from the request and from the run as it was. */
module AgentAnswers {
  import opened Common
  import opened StreamText
  import opened AgentModel
  import opened AgentInvariant
  import opened AgentRuntime
  import opened AgentExecution
  import opened AgentOutcome

  // ----- a call -----

  /** A call is taken up if the manager is open, the agent belongs to the session at hand, and an input
      says something. */
  ghost predicate TakenUp(s: State, agentId: string, request: Request) {
    s.phase == Open && agentId in s.owned && s.owned[agentId] < |s.runs|
    && (s.session == "" || s.runs[s.owned[agentId]].snapshot.sessionId == s.session)
    && (request.Input? ==> exists k :: 0 <= k < |request.input.prompt| && !IsSpace(request.input.prompt[k]))
  }

  /** A call that is not taken up is answered false at once; one that is waits for the run's lock. Nothing
      else happens yet. */
  lemma {:induction false} CallIsTakenUp(s: State, events: seq<Event>, states: seq<State>, n: nat)
    requires Execution(s, events, states) && n < |events| && events[n].Call?
    ensures var t, t', e := states[n], states[n + 1], events[n];
            && t'.runs == t.runs && t'.log == t.log && t'.owned == t.owned
            && t'.replies == t.replies[e.op := if TakenUp(t, e.agentId, e.request) then Suspended else Returned(false)]
            && t'.waiting == if TakenUp(t, e.agentId, e.request)
                             then t.waiting[e.op := Waiter(t.owned[e.agentId], e.request)] else t.waiting
  {
    assert Linked(events, states, n);
  }

  // ----- the lock is acquired by a cancel -----

  /** The run's task is asked to stop, and the caller waits for it. */
  ghost predicate StopsTask(r: Run, r': Run, op: OpId, at: ControlPc) {
    r.tasks != []
    && var n := |r.tasks| - 1;
       r' == r.(cancelled := true, started := true, tasks := r.tasks[n := r.tasks[n].(cancelRequested := true)],
                control := Held(op, at))
  }

  /** A finished task settles its run, whoever looks at it first. */
  function Settled(r: Run): Run {
    if r.tasks != [] then r.(done := true) else r
  }

  predicate HasUnfinished(r: Run) {
    r.tasks != [] && !r.tasks[|r.tasks| - 1].pc.Finished?
  }

  ghost predicate CancelTaken(c: Ctx, r: Run, op: OpId, t: Turn) {
    t.out == []
    && if !Current(c, r) then t.run == r && t.reply == Returned(false)
       else if HasUnfinished(r) then StopsTask(r, t.run, op, CancelAwait) && t.reply == Suspended
       else t.run == Settled(r) && t.reply == Returned(false)
  }

  lemma {:induction false} CancelIs(c: Ctx, r: Run, op: OpId)
    ensures CancelTaken(c, r, op, CancelAcquired(c, r, op))
  {
    hide Current;
    if Current(c, r) {
      if HasUnfinished(r) {} else if r.tasks != [] {} else {}
    }
  }

  // ----- the lock is acquired by an input -----

  /** The history holds a message under the id the caller gave. */
  ghost predicate Known(r: Run, q: InputRequest) {
    q.messageId.Some? && exists k :: 0 <= k < |r.messages| && r.messages[k].uuid == q.messageId.value
  }

  /** The run ended and nobody has been told yet. */
  predicate AwaitsDelivery(s: Snapshot) {
    (s.status.Completed? || s.status.Failed? || s.status.Stopped? || s.status.Cancelled?)
    && s.callbackEnabled && (s.callbackState.Pending? || s.callbackState.Injected?)
  }

  /** The id the message is kept under: the caller's, or else a new one. */
  function MessageId(q: InputRequest): string {
    match q.messageId
    case Some(id) => if id == "" then q.newId else id
    case None => q.newId
  }

  /** A new launch: the message is in the history, unless it was there already; the run is as new, queued,
      and a callback is due for the new epoch; transcript and state event are handed over. */
  ghost predicate Launches(c: Ctx, r: Run, op: OpId, q: InputRequest, known: bool, t: Turn) {
    var s, s' := r.snapshot, t.run.snapshot;
    && t.reply == Suspended
    && t.run == r.(messages := t.run.messages, snapshot := s', done := false, cancelled := false, detached := false,
                   started := false, finalText := "", chunks := [], control := Held(op, InputReport))
    && (if known then t.run.messages == r.messages
        else t.run.messages == r.messages + [Message(MessageId(q), User, q.prompt, None, None, false, false)])
    && s' == s.(status := Queued, error := "", finalResult := "", finishedAt := None, updatedAt := c.now,
                callbackEpoch := s'.callbackEpoch, callbackState := s'.callbackState,
                callbackMessageId := s'.callbackMessageId)
    && (if s.callbackEnabled && !known
        then s'.callbackEpoch == s.callbackEpoch + 1 && s'.callbackState == Pending && s'.callbackMessageId == None
        else s'.callbackEpoch == s.callbackEpoch && s'.callbackState == s.callbackState
             && s'.callbackMessageId == s.callbackMessageId)
    && t.out == (if known then [] else [InputAccepted(MessageId(q), s'.callbackEpoch)])
                + [Transcript(t.run.messages), StateEvent(Queued)]
  }

  lemma {:induction false} RestartIs(c: Ctx, r: Run, op: OpId, q: InputRequest, known: bool)
    requires Current(c, r)
    ensures Launches(c, r, op, q, known, Restart(c, r, op, q, known))
  {
    match q.messageId
    case Some(id) => if r.snapshot.callbackEnabled && !known {} else {}
    case None => if r.snapshot.callbackEnabled && !known {} else {}
  }

  /** What an input is answered when it has the lock. */
  ghost predicate InputTaken(c: Ctx, r: Run, op: OpId, q: InputRequest, t: Turn) {
    if !Current(c, r) || (AwaitsDelivery(r.snapshot) && !Known(r, q)) then
      t == Turn(r, [], Returned(false))
    else if Known(r, q) && Answered(r.messages, q.messageId.value, {q.messageId.value}, false) then
      t == Turn(r, [], Returned(true))
    else if HasUnfinished(r) then
      if Known(r, q) then t == Turn(r, [], Returned(true))
      else if q.interrupt then StopsTask(r, t.run, op, InputAwait(q)) && t.out == [] && t.reply == Suspended
      else t == Turn(r, [], Returned(false))
    else Launches(c, Settled(r), op, q, Known(r, q), t)
  }

  lemma {:induction false} InputIs(c: Ctx, r: Run, op: OpId, q: InputRequest)
    ensures InputTaken(c, r, op, q, InputAcquired(c, r, op, q))
  {
    KnownIs(r, q);
    hide Current, Answered, Restart, Launches, Known, Repeats;
    if !Current(c, r) {
    } else if HasUnfinished(r) {
      assert Fence(r) == r;
    } else {
      assert Fence(r) == Settled(r) && !Live(Fence(r));
      SameOwner(c, r);
      KnownSettled(r, q);
      RestartIs(c, Settled(r), op, q, Known(r, q));
      hide Settled, Fence, Live;
    }
  }

  lemma {:induction false} KnownIs(r: Run, q: InputRequest)
    ensures Repeats(r, q) <==> Known(r, q)
  {
    if Repeats(r, q) {
      assert HasUuid(r.messages, q.messageId.value);
      var m :| m in r.messages && m.uuid == q.messageId.value;
      var k :| 0 <= k < |r.messages| && r.messages[k] == m;
    }
  }

  lemma {:induction false} KnownSettled(r: Run, q: InputRequest)
    ensures Repeats(Settled(r), q) == Repeats(r, q)
  {
  }

  lemma {:induction false} SameOwner(c: Ctx, r: Run)
    ensures Current(c, Settled(r)) == Current(c, r)
  {
  }

  // ----- the holder of the lock goes on -----

  /** What the holder of the lock is answered when it goes on, and what it has done. */
  ghost predicate WentOn(c: Ctx, r: Run, raised: bool, t: Turn)
    requires r.control.Held?
  {
    var op, freed := r.control.op, r.(control := Free);
    match r.control.at
    case CancelAwait =>
      if !Current(c, r) then t == Turn(freed, [], Returned(false))
      else if r.done then t == Turn(freed, [], Returned(true))
      else
        && t.reply == Suspended && t.run == r.(snapshot := t.run.snapshot, control := Held(op, CancelReport))
        && ClosesRun(c, r, Effect(t.run, t.out), Stopped, "stopped", r.finalText)
    case CancelReport =>
      if CompletionDue(c, r) then
        t == Turn(r.(done := true, control := Held(op, CancelComplete(raised))), [Completion(r.snapshot.callbackEpoch)],
                  Suspended)
      else t == Turn(freed.(done := true), [], if raised then Raised else Returned(true))
    case CancelComplete(failed) => t == Turn(freed, [], if failed then Raised else Returned(true))
    case InputAwait(q) =>
      if Current(c, r) then Launches(c, r, op, q, false, t) else t == Turn(freed, [], Returned(false))
    case InputReport =>
      if raised then
        && t.reply == Raised && t.out == []
        && t.run == freed.(cancelled := true, started := true, done := true, snapshot := t.run.snapshot)
        && t.run.snapshot == (if r.detached then r.snapshot
                              else r.snapshot.(status := Stopped, error := "stopped", updatedAt := c.now,
                                               finishedAt := Some(c.now)))
      else if Current(c, r) then
        && t.reply == Returned(true) && t.out == [] && |t.run.tasks| == |r.tasks| + 1
        && t.run == freed.(started := true, tasks := t.run.tasks)
        && t.run.tasks[..|r.tasks|] == r.tasks
           && t.run.tasks[|r.tasks|] == Task(NotStarted, false, false, false, {}, None)
      else t == Turn(freed.(cancelled := true, started := true, done := true), [], Returned(false))
  }

  /** A completion is due: the run is current, its callback enabled and not yet injected. */
  predicate CompletionDue(c: Ctx, r: Run) {
    Current(c, r) && r.snapshot.callbackEnabled && r.snapshot.callbackState.Pending?
  }

  lemma {:induction false} CancelAwaitedIs(c: Ctx, r: Run, op: OpId)
    requires r.control == Held(op, CancelAwait)
    ensures WentOn(c, r, false, CancelAwaited(c, r, op))
    ensures WentOn(c, r, true, CancelAwaited(c, r, op))
  {
    StripTrims(r.finalText);
    hide Strip, Trims;
    if !Current(c, r) {} else if r.done {} else {}
  }

  lemma {:induction false} CancelReportedIs(c: Ctx, r: Run, op: OpId, raised: bool)
    requires r.control == Held(op, CancelReport)
    ensures WentOn(c, r, raised, CancelReported(c, r, op, raised))
  {
    if CompletionDue(c, r) {} else {}
  }

  lemma {:induction false} InputAwaitedIs(c: Ctx, r: Run, op: OpId, q: InputRequest, raised: bool)
    requires r.control == Held(op, InputAwait(q))
    ensures WentOn(c, r, raised, InputAwaited(c, r, op, q))
  {
    if Current(c, r) {
      RestartIs(c, r, op, q, false);
    }
    hide Current, Restart, Launches;
  }

  lemma {:induction false} InputReportedIs(c: Ctx, r: Run, raised: bool)
    requires r.control.Held? && r.control.at.InputReport?
    ensures WentOn(c, r, raised, InputReported(c, r, raised))
  {
    hide Current;
    if raised {} else if Current(c, r) {} else {}
  }

  lemma {:induction false} HolderIs(c: Ctx, r: Run, raised: bool)
    requires r.control.Held?
    ensures WentOn(c, r, raised, HolderTurn(c, r, raised))
  {
    hide WentOn, CancelAwaited, CancelReported, InputAwaited, InputReported;
    match r.control.at
    case CancelAwait => CancelAwaitedIs(c, r, r.control.op);
    case CancelReport => CancelReportedIs(c, r, r.control.op, raised);
    case CancelComplete(failed) => CancelCompletedIs(c, r, failed, raised);
    case InputAwait(q) => InputAwaitedIs(c, r, r.control.op, q, raised);
    case InputReport => InputReportedIs(c, r, raised);
  }

  lemma {:induction false} CancelCompletedIs(c: Ctx, r: Run, failed: bool, raised: bool)
    requires r.control.Held? && r.control.at == CancelComplete(failed)
    ensures WentOn(c, r, raised, CancelCompleted(r, failed))
  {
  }

  // ----- executions -----

  /** Run i, the log and the answer of one caller change as this turn says; other runs do not. */
  ghost predicate Turned(s: State, s': State, i: nat, op: OpId, t: Turn)
    requires i < |s.runs|
  {
    && s'.runs == s.runs[i := t.run] && s'.replies == s.replies[op := t.reply]
    && s'.log == s.log + Tag(i, t.out) && s'.owned == s.owned && s'.slots == s.slots
  }

  /** Whoever gets the lock of its run: what it is answered and what it does to the run. */
  lemma {:induction false} LockIsTaken(s: State, events: seq<Event>, states: seq<State>, n: nat)
    requires Execution(s, events, states) && n < |events| && events[n].Acquire?
    ensures var op, before := events[n].op, states[n];
            && op in before.waiting && before.waiting[op].run < |before.runs|
            && states[n + 1].waiting == before.waiting - {op}
            && var i := before.waiting[op].run;
               exists t :: Turned(before, states[n + 1], i, op, t)
                           && Taken(CtxOf(before, i), before.runs[i], op, before.waiting[op].request, t)
  {
    assert Linked(events, states, n);
    hide Next, InputFresh, Taken, AcquireTurn;
    var before, op := states[n], events[n].op;
    LockStep(before, op);
    var i := before.waiting[op].run;
    AcquireIs(CtxOf(before, i), before.runs[i], op, before.waiting[op].request);
  }

  ghost predicate Taken(c: Ctx, r: Run, op: OpId, request: Request, t: Turn) {
    match request
    case CancelRequest => CancelTaken(c, r, op, t)
    case Input(q) => InputTaken(c, r, op, q, t)
  }

  lemma {:induction false} AcquireIs(c: Ctx, r: Run, op: OpId, request: Request)
    ensures Taken(c, r, op, request, AcquireTurn(c, r, op, request))
  {
    hide InputTaken, CancelTaken, CancelAcquired, InputAcquired;
    match request
    case CancelRequest => CancelIs(c, r, op);
    case Input(q) => InputIs(c, r, op, q);
  }

  lemma {:induction false} LockStep(s: State, op: OpId)
    requires Enabled(s, Acquire(op))
    ensures op in s.waiting && s.waiting[op].run < |s.runs| && Next(s, Acquire(op)).waiting == s.waiting - {op}
    ensures var i := s.waiting[op].run;
            Turned(s, Next(s, Acquire(op)), i, op, AcquireTurn(CtxOf(s, i), s.runs[i], op, s.waiting[op].request))
  {
    hide AcquireTurn, InputFresh;
  }

  /** Whoever holds the lock and goes on: the same. */
  lemma {:induction false} HolderGoesOn(s: State, events: seq<Event>, states: seq<State>, n: nat)
    requires Execution(s, events, states) && n < |events| && events[n].Resume?
    ensures var i, before := events[n].run, states[n];
            && i < |before.runs| && before.runs[i].control.Held? && states[n + 1].waiting == before.waiting
            && exists t :: Turned(before, states[n + 1], i, before.runs[i].control.op, t)
                           && WentOn(CtxOf(before, i), before.runs[i], events[n].raised, t)
  {
    assert Linked(events, states, n);
    hide Next, WentOn, HolderTurn, Live;
    var before, i := states[n], events[n].run;
    HolderStep(before, i, events[n].raised);
    HolderIs(CtxOf(before, i), before.runs[i], events[n].raised);
  }

  lemma {:induction false} HolderStep(s: State, i: nat, raised: bool)
    requires Enabled(s, Resume(i, raised))
    ensures i < |s.runs| && s.runs[i].control.Held? && Next(s, Resume(i, raised)).waiting == s.waiting
    ensures Turned(s, Next(s, Resume(i, raised)), i, s.runs[i].control.op, HolderTurn(CtxOf(s, i), s.runs[i], raised))
  {
    hide HolderTurn, Live;
  }

  // ----- answers without a lock -----

  /** What a wait answers once the run it was called for is settled: the run's snapshot, unless its id now
      belongs to another run, or the run was detached, is of an older generation or of another session. */
  lemma {:induction false} WaitAnswers(s: State, agentId: string, i: nat)
    requires i < |s.runs|
    ensures var r := s.runs[i];
            WaitAnswer(s, agentId, i)
            == if (agentId !in s.owned || (s.owned[agentId] == i && !r.detached && r.generation == s.generation))
                  && (s.session == "" || r.snapshot.sessionId == s.session)
               then Some(r.snapshot) else None
  {
  }

  /** Why a spawn is refused: the first of these that applies. */
  lemma {:induction false} SpawnIsRefusedFor(s: State, depth: int, profileKnown: bool)
    ensures SpawnRefusal(s, depth, profileKnown)
            == if s.phase != Open then Some(ManagerClosed)
               else if s.session == "" then Some(NoSession)
               else if depth > s.limits.maxDepth then Some(TooDeep)
               else if |set a | a in s.owned && s.owned[a] < |s.runs| && !s.runs[s.owned[a]].done| >= s.limits.maxActive
               then Some(TooMany)
               else if !profileKnown then Some(UnknownProfile) else None
  {
    assert ActiveIds(s) == set a | a in s.owned && s.owned[a] < |s.runs| && !s.runs[s.owned[a]].done;
    hide ActiveIds;
  }
}
