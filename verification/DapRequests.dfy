/** Requests of the debug client and the responses that answer them. */
module DapRequests {
  import opened Common

  datatype Future = Unset | Answered(payload: string) | Broken | Dropped

  /** `futures` are the objects handed to waiters; `pending` says which of them a response can
      still find. `log` and `started` are history: the responses read so far, and how many of them
      there were when a request was started. */
  datatype State = State(last: nat, futures: map<nat, Future>, pending: set<nat>, commands: map<nat, string>,
                         log: seq<(nat, string)>, started: map<nat, nat>)

  datatype Event = Start(command: string)
                 | Respond(requestSeq: nat, payload: string)
                 | ReaderFails
                 | EndWait(request: nat)
                 | Close

  function Init(): State {
    State(0, map[], {}, map[], [], map[])
  }

  predicate Enabled(s: State, e: Event) {
    e.EndWait? ==> e.request in s.futures
  }

  /** Every future in the set that is not set yet. */
  function SetAll(futures: map<nat, Future>, keys: set<nat>, to: Future): map<nat, Future> {
    map k | k in futures :: if k in keys && futures[k] == Unset then to else futures[k]
  }

  function Resolve(s: State, requestSeq: nat, payload: string): State {
    var s' := s.(log := s.log + [(requestSeq, payload)]);
    if requestSeq in s.pending && requestSeq in s.futures && s.futures[requestSeq] == Unset
    then s'.(futures := s.futures[requestSeq := Answered(payload)])
    else s'
  }

  /** A wait ends with its future done, or drops it. */
  function FinishWait(s: State, request: nat): State
    requires request in s.futures
  {
    s.(futures := if s.futures[request] == Unset then s.futures[request := Dropped] else s.futures,
       pending := s.pending - {request}, commands := s.commands - {request})
  }

  function Next(s: State, e: Event): State
    requires Enabled(s, e)
  {
    match e
    case Start(command) =>
      var n := s.last + 1;
      s.(last := n, futures := s.futures[n := Unset], pending := s.pending + {n}, commands := s.commands[n := command],
         started := s.started[n := |s.log|])
    case Respond(requestSeq, payload) => Resolve(s, requestSeq, payload)
    case ReaderFails => s.(futures := SetAll(s.futures, s.pending, Broken))
    case EndWait(request) => FinishWait(s, request)
    case Close => s.(futures := SetAll(s.futures, s.pending, Dropped), pending := {}, commands := map[])
  }

  // ----- the invariant -----

  /** The first response to a request among those read since `from`. */
  function First(log: seq<(nat, string)>, from: nat, request: nat): Option<string> {
    if |log| <= from then None
    else
      var init, last := log[..|log| - 1], log[|log| - 1];
      var earlier := First(init, from, request);
      if earlier.Some? then earlier else if last.0 == request then Some(last.1) else None
  }

  ghost predicate FutureOk(s: State, k: nat)
    requires k in s.futures
  {
    && k in s.started && s.started[k] <= |s.log|
    && (s.futures[k] == Unset ==> k in s.pending && First(s.log, s.started[k], k) == None)
    && (s.futures[k].Answered? ==> First(s.log, s.started[k], k) == Some(s.futures[k].payload))
  }

  ghost predicate Inv(s: State) {
    && (forall k | k in s.futures :: FutureOk(s, k))
    && (forall k | k in s.futures :: 1 <= k <= s.last) && s.started.Keys == s.futures.Keys
    && s.pending == s.commands.Keys && s.pending <= s.futures.Keys
  }

  lemma {:induction false} StartKeeps(s: State, command: string)
    requires Inv(s)
    ensures Inv(Next(s, Start(command)))
  {
    var s' := Next(s, Start(command));
    forall k | k in s'.futures ensures FutureOk(s', k) {
      if k != s.last + 1 {
        assert FutureOk(s, k);
      }
    }
  }

  lemma {:induction false} RespondKeeps(s: State, requestSeq: nat, payload: string)
    requires Inv(s)
    ensures Inv(Resolve(s, requestSeq, payload))
  {
    var s' := Resolve(s, requestSeq, payload);
    assert s'.log[..|s'.log| - 1] == s.log;
    forall k | k in s'.futures ensures FutureOk(s', k) {
      assert FutureOk(s, k);
    }
  }

  lemma {:induction false} EndWaitKeeps(s: State, request: nat)
    requires Inv(s) && request in s.futures
    ensures Inv(FinishWait(s, request))
  {
    var s' := FinishWait(s, request);
    forall k | k in s'.futures ensures FutureOk(s', k) {
      assert FutureOk(s, k);
    }
  }

  lemma {:induction false} SetAllKeeps(s: State, to: Future)
    requires Inv(s) && (to == Broken || to == Dropped)
    ensures Inv(s.(futures := SetAll(s.futures, s.pending, to)))
    ensures Inv(s.(futures := SetAll(s.futures, s.pending, to), pending := {}, commands := map[]))
    ensures forall k | k in SetAll(s.futures, s.pending, to) :: SetAll(s.futures, s.pending, to)[k] != Unset
  {
    forall k | k in s.futures ensures SetAll(s.futures, s.pending, to)[k] != Unset && FutureOk(s, k) {
      assert FutureOk(s, k);
    }
    hide First;
  }

  /** Nobody's answer changes once it is there. */
  ghost predicate Evolves(s: State, s': State) {
    && s.last <= s'.last && s.log <= s'.log
    && (forall k | k in s.futures :: k in s'.futures && (s.futures[k] != Unset ==> s'.futures[k] == s.futures[k]))
    && (forall k | k in s.futures && k !in s.pending :: k !in s'.pending)
    && (forall k | k in s.started :: k in s'.started && s'.started[k] == s.started[k])
  }

  lemma {:induction false} NextKeeps(s: State, e: Event)
    requires Inv(s) && Enabled(s, e)
    ensures Inv(Next(s, e)) && Evolves(s, Next(s, e))
  {
    hide First;
    match e
    case Start(command) => StartKeeps(s, command);
    case Respond(requestSeq, payload) => RespondKeeps(s, requestSeq, payload);
    case EndWait(request) => EndWaitKeeps(s, request);
    case ReaderFails => SetAllKeeps(s, Broken);
    case Close => SetAllKeeps(s, Dropped);
  }

  lemma {:induction false} NextNumberIsFree(s: State)
    requires Inv(s)
    ensures s.last + 1 !in s.futures
  {
    hide FutureOk;
  }

  lemma {:induction false} OpenIsPending(s: State, k: nat)
    requires Inv(s)
    ensures k in s.futures && s.futures[k] == Unset ==> k in s.pending
  {
    assert k in s.futures ==> FutureOk(s, k);
    hide First;
  }

  // ----- runs -----

  ghost predicate Linked(events: seq<Event>, states: seq<State>, n: nat)
    requires |states| == |events| + 1 && n < |events|
  {
    Enabled(states[n], events[n]) && states[n + 1] == Next(states[n], events[n])
  }

  ghost predicate Execution(events: seq<Event>, states: seq<State>) {
    |states| == |events| + 1 && states[0] == Init() && forall n | 0 <= n < |events| :: Linked(events, states, n)
  }

  lemma {:induction false} ExecutionInv(events: seq<Event>, states: seq<State>, n: nat)
    requires Execution(events, states) && n < |states|
    ensures Inv(states[n])
  {
    if n > 0 {
      ExecutionInv(events, states, n - 1);
      assert Linked(events, states, n - 1);
      NextKeeps(states[n - 1], events[n - 1]);
    }
  }

  lemma {:induction false} ExecutionEvolves(events: seq<Event>, states: seq<State>, m: nat, n: nat)
    requires Execution(events, states) && m <= n < |states|
    ensures Evolves(states[m], states[n])
    decreases n
  {
    if m < n {
      ExecutionEvolves(events, states, m, n - 1);
      ExecutionInv(events, states, n - 1);
      assert Linked(events, states, n - 1);
      NextKeeps(states[n - 1], events[n - 1]);
      hide Inv, Next, Enabled;
      EvolveOn(states[m], states[n - 1], states[n]);
    }
  }

  lemma {:induction false} EvolveOn(a: State, b: State, c: State)
    requires Evolves(a, b) && Evolves(b, c)
    ensures Evolves(a, c)
  {
  }

  /** Every request gets a number no request had before. */
  lemma {:induction false} NumbersAreFresh(events: seq<Event>, states: seq<State>, m: nat, n: nat)
    requires Execution(events, states) && m <= n < |events| && events[n].Start?
    ensures var s, k := states[n + 1], states[n + 1].last;
            k !in states[m].futures && k in s.pending && k in s.futures && s.futures[k] == Unset
  {
    ExecutionInv(events, states, n);
    ExecutionInv(events, states, m);
    ExecutionEvolves(events, states, m, n);
    assert Linked(events, states, n);
    hide FutureOk;
  }

  /** What a request is answered with is the first response bearing its number among those read
      since it was started; a later one, or one for another number, never changes it. */
  lemma {:induction false} FirstResponseWins(events: seq<Event>, states: seq<State>, m: nat, n: nat, k: nat)
    requires Execution(events, states) && m <= n < |states| && k in states[m].futures
    ensures k in states[n].futures && k in states[n].started
    ensures states[m].futures[k] != Unset ==> states[n].futures[k] == states[m].futures[k]
    ensures states[n].futures[k].Answered? ==>
              First(states[n].log, states[n].started[k], k) == Some(states[n].futures[k].payload)
  {
    ExecutionInv(events, states, n);
    ExecutionEvolves(events, states, m, n);
    assert FutureOk(states[n], k);
  }

  /** A request that is still open has had no response, and the next one for it is not missed;
      one that was dropped or closed takes none any more. */
  lemma {:induction false} OpenRequestsAreReachable(events: seq<Event>, states: seq<State>, n: nat, k: nat,
      payload: string)
    requires Execution(events, states) && n < |states| && k in states[n].futures
    ensures var s := states[n];
            && k in s.started
            && (s.futures[k] == Unset ==> k in s.pending && First(s.log, s.started[k], k) == None)
            && k in Resolve(s, k, payload).futures
            && Resolve(s, k, payload).futures[k] == (if s.futures[k] == Unset then Answered(payload) else s.futures[k])
  {
    ExecutionInv(events, states, n);
    assert FutureOk(states[n], k);
    hide First;
  }

  ghost predicate NoneWaiting(s: State) {
    forall k | k in s.futures :: s.futures[k] != Unset
  }

  /** When the reader fails, no started request is left waiting. */
  lemma {:induction false} ReaderFailureEndsWaits(events: seq<Event>, states: seq<State>, n: nat)
    requires Execution(events, states) && n < |events| && (events[n].ReaderFails? || events[n].Close?)
    ensures NoneWaiting(states[n + 1])
  {
    ExecutionInv(events, states, n);
    assert Linked(events, states, n);
    SetAllKeeps(states[n], if events[n].Close? then Dropped else Broken);
    hide FutureOk, Inv;
  }

  /** What decides an open request, and nothing else does: its own response, a failure of the reader, the end
      of its wait, or closing. */
  lemma {:induction false} RequestIsDecidedBy(events: seq<Event>, states: seq<State>, n: nat, k: nat)
    requires Execution(events, states) && n < |events| && k in states[n].futures
    ensures k in states[n + 1].futures
    ensures states[n + 1].futures[k]
            == if states[n].futures[k] != Unset then states[n].futures[k]
               else match events[n]
                    case Respond(request, payload) => if request == k then Answered(payload) else Unset
                    case ReaderFails => Broken
                    case EndWait(request) => if request == k then Dropped else Unset
                    case Close => Dropped
                    case Start(_) => Unset
  {
    ExecutionInv(events, states, n);
    assert Linked(events, states, n);
    OpenIsPending(states[n], k);
    if events[n].Start? {
      NextNumberIsFree(states[n]);
    }
    hide Inv;
    match events[n]
    case Respond(_, _) =>
    case ReaderFails =>
    case EndWait(_) =>
    case Close =>
    case Start(_) =>
  }

  /** Which requests a response can still find, and under which command: a started one until its wait ends or
      the client closes. */
  lemma {:induction false} PendingSteps(events: seq<Event>, states: seq<State>, n: nat)
    requires Execution(events, states) && n < |events|
    ensures var s, s' := states[n], states[n + 1];
            match events[n]
            case Start(command) =>
              && s'.last == s.last + 1 && s'.commands == s.commands[s.last + 1 := command]
              && s'.pending == s.pending + {s.last + 1} && s'.futures.Keys == s.futures.Keys + {s.last + 1}
              && s'.futures[s.last + 1] == Unset
            case EndWait(request) =>
              s'.last == s.last && s'.commands == s.commands - {request} && s'.pending == s.pending - {request}
            case Close => s'.last == s.last && s'.commands == map[] && s'.pending == {}
            case Respond(_, _) | ReaderFails =>
              s'.last == s.last && s'.commands == s.commands && s'.pending == s.pending
  {
    assert Linked(events, states, n);
    match events[n]
    case Respond(_, _) =>
    case ReaderFails =>
    case EndWait(_) =>
    case Close =>
    case Start(_) =>
  }
}
