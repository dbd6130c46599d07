/** Results about whole runs of the Computer Use channel. */
module ChannelTheorems {
  import opened Common
  import opened ChannelModel
  import opened ChannelSafety

  /** A run of the channel: one state before each event and one after. */
  ghost predicate Linked(events: seq<Event>, states: seq<State>, n: nat)
    requires |states| == |events| + 1 && n < |events|
  {
    Enabled(states[n], events[n]) && states[n + 1] == Next(states[n], events[n])
  }

  ghost predicate Execution(vm: string, enabled: bool, events: seq<Event>, states: seq<State>) {
    && |states| == |events| + 1
    && states[0] == Init(vm, enabled)
    && forall n | 0 <= n < |events| :: Linked(events, states, n)
  }

  lemma {:induction false} ExecutionInv(vm: string, enabled: bool, events: seq<Event>, states: seq<State>, n: nat)
    requires Execution(vm, enabled, events, states) && n < |states|
    ensures Inv(states[n])
  {
    if n == 0 {
      InitInv(vm, enabled);
    } else {
      ExecutionInv(vm, enabled, events, states, n - 1);
      assert Linked(events, states, n - 1);
      NextKeeps(states[n - 1], events[n - 1]);
    }
  }

  /** `active` says whether anything is shown, the log is bounded, release timers and deadlines
      go together while the channel lives, and both belong to something shown. */
  lemma {:induction false} ShownIsConsistent(vm: string, enabled: bool, events: seq<Event>, states: seq<State>, n: nat)
    requires Execution(vm, enabled, events, states) && n < |states|
    ensures var s := states[n];
            && (s.active <==> s.previews != []) && |s.logs| <= 100
            && (!s.disposed ==> s.timers.Keys == s.deadlines.Keys)
            && s.timers.Keys <= s.deadlines.Keys <= KeysOf(s.previews)
            && (forall t | t in s.armed :: s.armed[t] in s.timers && s.timers[s.armed[t]] == t)
  {
    ExecutionInv(vm, enabled, events, states, n);
  }

  // ----- each request, once -----

  ghost predicate CallEvolves(a: Call, b: Call) {
    b == a.(answers := b.answers) && a.answers <= b.answers
  }

  ghost predicate CallsEvolve(a: seq<Call>, b: seq<Call>) {
    |a| <= |b| && forall op | 0 <= op < |a| :: CallEvolves(a[op], b[op])
  }

  // ----- one step -----

  /** What never goes back. */
  ghost predicate Moves(s: State, s': State) {
    CallsEvolve(s.calls, s'.calls) && s.generation <= s'.generation && (s.disposed ==> s'.disposed)
  }

  /** An arrival on a channel that is switched on replaces its key's preview, busy while the
      request is the latest and failed when it was refused at once. */
  ghost predicate ShowsArrival(s: State, key: string, s': State) {
    s'.enabled == s.enabled && s'.disposed == s.disposed && (!s.enabled ==> s'.previews == [])
    && (s.enabled ==> exists p: Preview :: Arrived(s, key, p, s'))
  }

  ghost predicate Arrived(s: State, key: string, p: Preview, s': State) {
    p.key == key && s'.previews == Without(s.previews, {key}) + [p]
    && s'.latest.Keys == if p.shade == BusyPreview then s.latest.Keys + {key} else s.latest.Keys - {key}
  }

  ghost predicate ShowsReturn(s: State, op: nat, now: int, s': State)
    requires op < |s.calls|
  {
    && s'.enabled == s.enabled && s'.disposed == s.disposed
    && s'.latest == (if IsLatest(s, s.calls[op]) then s.latest - {s.calls[op].key} else s.latest)
    && exists a :: s'.previews == FinishedPreviews(s, s.calls[op], a, now)
  }

  ghost predicate ShowsRestored(s: State, raws: Option<seq<Raw>>, now: int, s': State) {
    && s'.enabled == s.enabled && s'.disposed == s.disposed && s'.latest == s.latest
    && s'.previews == if raws.Some? && s.enabled && Restored(raws.value, now) != []
                      then Without(s.previews, KeysOf(Restored(raws.value, now))) + Restored(raws.value, now)
                      else s.previews
  }

  /** Every other event at most takes previews away, and touches the latest requests only
      together with all previews. */
  ghost predicate ShowsLess(s: State, s': State) {
    && (s'.previews == [] || s'.previews == s.previews || exists keys :: s'.previews == Without(s.previews, keys))
    && (s'.previews == [] || s'.disposed || s'.latest == s.latest)
  }

  ghost predicate Shows(s: State, e: Event, s': State)
    requires Enabled(s, e)
  {
    match e
    case Arrive(m, _, _) => ShowsArrival(s, KeyOf(m), s')
    case Return(op, _, _, now) => ShowsReturn(s, op, now, s')
    case Registered(_, raws, now) => ShowsRestored(s, raws, now, s')
    case Enable(enabled, _) => ShowsLess(s, s') && s'.enabled == enabled && (!enabled ==> s'.previews == [])
    case _ => ShowsLess(s, s') && s'.enabled == s.enabled
  }

  lemma {:induction false} ArriveStep(s: State, m: Request, uuid: string, now: int)
    requires Inv(s) && !s.disposed
    ensures var s' := HandleRequest(s, m, uuid, now); Moves(s, s') && ShowsArrival(s, KeyOf(m), s')
  {
    var s' := HandleRequest(s, m, uuid, now);
    BeginKeeps(s, m, TokenOf(m, uuid), now);
    ArrivedFields(s, m, uuid, now);
    ArrivedPreviews(s, m, uuid, now);
    hide HandleRequest, Begin, CallOk, TimersOk, DeadlinesOk, Inv, Arrived;
    forall op | 0 <= op < |s.calls| ensures CallEvolves(s.calls[op], s'.calls[op]) {
      assert s'.calls[op] == s'.calls[..|s.calls|][op];
    }
  }

  lemma {:induction false} ArrivedPreviews(s: State, m: Request, uuid: string, now: int)
    requires Inv(s) && !s.disposed
    ensures var s' := HandleRequest(s, m, uuid, now);
            s'.enabled == s.enabled && (!s.enabled ==> s'.previews == [])
            && (s.enabled ==> exists p: Preview :: Arrived(s, KeyOf(m), p, s'))
  {
    var token := TokenOf(m, uuid);
    var b, call, busy := Begin(s, m, token, now), Call(m, KeyOf(m), token, [], []), BusyFor(s, m, now);
    BeginKeeps(s, m, token, now);
    BeginFields(s, m, token, now);
    var refusal := RefusalOf(b, m);
    assert b.previews == Without(s.previews, {busy.key}) + [busy] && b.enabled == s.enabled
           && busy.shade == BusyPreview;
    assert !b.enabled ==> refusal == Some(NotAvailable);
    hide Begin, BusyFor, RefusalOf, KeyOf, TokenOf, Inv;
    if refusal.Some? {
      RefusedPreviews(s, b, call, refusal.value, now, busy);
    } else {
      hide InvocationOf, Without;
      assert Arrived(s, busy.key, busy, HandleRequest(s, m, uuid, now));
    }
  }

  lemma {:induction false} RefusedPreviews(s: State, b: State, call: Call, why: Refusal, now: int, busy: Preview)
    requires TimersOk(b) && DeadlinesOk(b) && ShownOk(b) && b.latest == s.latest[call.key := call.token]
    requires b.previews == Without(s.previews, {busy.key}) + [busy] && busy.key == call.key
    ensures var s' := Refuse(b, call, why, now);
            s'.enabled == b.enabled && (!b.enabled ==> s'.previews == [])
            && (b.enabled ==> exists p: Preview :: Arrived(s, call.key, p, s'))
  {
    var a := Caught(Refused(why), true);
    FinishKeeps(b, call, a, now);
    FinishPreviews(b, call, a, now);
    if b.enabled {
      RefusedPreview(b, call, a, now, Without(s.previews, {busy.key}), busy);
      hide Finish, FinishedPreviews, TimersOk, DeadlinesOk, ShownOk, Without;
      var p: Preview :| p.key == call.key && p.shade != BusyPreview
                        && FinishedPreviews(b, call, a, now) == Without(s.previews, {busy.key}) + [p];
      assert Arrived(s, call.key, p, Refuse(b, call, why, now));
    }
  }

  lemma {:induction false} RefusedPreview(b: State, call: Call, a: Answer, now: int, others: seq<Preview>,
      busy: Preview)
    requires b.previews == others + [busy] && busy.key == call.key && IsLatest(b, call) && b.enabled && !Succeeded(a)
    requires forall i | 0 <= i < |others| :: others[i].key != call.key
    ensures exists p: Preview :: p.key == call.key && p.shade != BusyPreview
                                 && FinishedPreviews(b, call, a, now) == others + [p]
  {
    var current := Find(b.previews, call.key);
    assert current.Some? by {
      assert b.previews[|others|] == busy;
    }
    var p := CompletedFor(current.value, call.request, a, now);
    assert p.key == call.key && p.shade == FailedPreview;
    assert b.previews[..|others|] == others;
    WithoutNone(others, {call.key});
    assert FinishedPreviews(b, call, a, now) == others + [p];
  }

  lemma {:induction false} WithoutNone(previews: seq<Preview>, keys: set<string>)
    requires forall i | 0 <= i < |previews| :: previews[i].key !in keys
    ensures Without(previews, keys) == previews
  {
    if previews != [] {
      var n := |previews| - 1;
      assert forall i | 0 <= i < n :: previews[..n][i] == previews[i];
      WithoutNone(previews[..n], keys);
      assert previews == previews[..n] + [previews[n]];
    }
  }

  lemma {:induction false} ReturnStep(s: State, op: nat, returned: Option<Result>, thrown: string, now: int)
    requires Inv(s) && op < |s.calls| && InFlight(s.calls[op])
    ensures var s' := Complete(s, op, returned, thrown, now); Moves(s, s') && ShowsReturn(s, op, now, s')
  {
    var c := s.calls[op];
    var a := if returned.Some? then Native(returned.value) else Caught(Text(thrown), false);
    FinishKeeps(s, c, a, now);
    FinishPreviews(s, c, a, now);
    hide Finish, FinishedPreviews, Inv;
  }

  lemma {:induction false} FinishPreviews(s: State, c: Call, a: Answer, now: int)
    ensures var s' := Finish(s, c, a, now);
            s'.previews == FinishedPreviews(s, c, a, now) && s'.enabled == s.enabled
            && (!s.enabled ==> s'.previews == [])
            && (s.enabled && !IsLatest(s, c) ==> s'.previews == s.previews)
  {
    hide Succeeded, Described, ActionOf, FailureOf, Reason, Gui, AnyShade, LogsWithout, LastLogs, CompletedFor, Without,
         Find;
  }

  lemma {:induction false} BareSame(s: State, s': State)
    requires Bare(s) == Bare(s')
    ensures s.calls == s'.calls && s.latest == s'.latest && s.previews == s'.previews && s.generation == s'.generation
    ensures s.enabled == s'.enabled && s.disposed == s'.disposed
  {
    assert s.calls == Bare(s).calls == s'.calls;
    assert s.latest == Bare(s).latest == s'.latest;
    assert s.previews == Bare(s).previews == s'.previews;
    assert s.generation == Bare(s).generation == s'.generation;
    assert s.enabled == Bare(s).enabled == s'.enabled && s.disposed == Bare(s).disposed == s'.disposed;
  }

  lemma {:induction false} ReleaseStep(s: State, session: string, agent: Option<string>, all: bool, deadline: int)
    requires Inv(s)
    ensures var s' := Release(s, session, agent, all, deadline);
            Moves(s, s') && ShowsLess(s, s') && s'.enabled == s.enabled
  {
    var keys := if all then SessionKeys(s.previews, session) else [PreviewKey(Some(session), agent)];
    ScheduleEachTimers(s, keys, deadline);
    BareSame(s, ScheduleEach(s, keys, deadline));
  }

  lemma {:induction false} RegisterStep(s: State, available: bool, raws: Option<seq<Raw>>, now: int)
    requires Inv(s)
    ensures var s' := Register(s, available, raws, now); Moves(s, s') && ShowsRestored(s, raws, now, s')
  {
    var s0 := Register(s, available, None, now);
    if raws.Some? && s.enabled && Restored(raws.value, now) != [] {
      var restored, deadlines := Restored(raws.value, now), RestoredDeadlines(raws.value, now);
      RegisterKeeps(s, available, None, now);
      RestoredDeadlineKeys(raws.value, now);
      hide Restored, RestoredDeadlines, AnyShade, Reason;
      RestoreStep(s0, restored, deadlines);
      hide Inv, Without, KeysOf, Adopt;
    } else {
      hide Inv, Restored, AnyShade, Reason;
    }
  }

  lemma {:induction false} RestoreStep(s: State, restored: seq<Preview>, deadlines: seq<(string, int)>)
    requires Inv(s) && restored != [] && forall e | e in deadlines :: e.0 in KeysOf(restored)
    ensures var s' := ScheduleEntries(Adopt(s, restored), deadlines);
            s'.calls == s.calls && s'.latest == s.latest && s'.generation == s.generation
            && s'.enabled == s.enabled && s'.disposed == s.disposed
            && s'.previews == Without(s.previews, KeysOf(restored)) + restored
  {
    var a := Adopt(s, restored);
    AdoptKeeps(s, restored);
    hide Without, KeysOf, AnyShade, Freshest, CallsOk, LatestOk, ShownOk;
    ScheduleEntriesTimers(a, deadlines);
    BareSame(a, ScheduleEntries(a, deadlines));
  }

  lemma {:induction false} FireStep(s: State, timer: nat)
    requires timer in s.armed
    ensures var s' := Fire(s, timer); Moves(s, s') && ShowsLess(s, s') && s'.enabled == s.enabled
  {
    hide AnyShade, Without, Gui;
    assert s.disposed || Fire(s, timer).previews == Without(s.previews, {s.armed[timer]});
  }

  lemma {:induction false} RefreshStep(s: State, generation: nat, found: Capabilities, ready: bool)
    requires generation in s.refreshes
    ensures var s' := EndRefresh(s, generation, found, ready);
            Moves(s, s') && ShowsLess(s, s') && s'.enabled == s.enabled
  {
    var s0 := s.(refreshes := s.refreshes - {generation});
    ForgetFields(s0);
    hide AnyShade, Without, Replaced, Superseded, Forget, CallEvolves;
    assert forall op | 0 <= op < |s.calls| :: CallEvolves(s.calls[op], s.calls[op]) by { SameCalls(s.calls); }
  }

  lemma {:induction false} ForgetFields(s: State)
    ensures var s' := Forget(s);
            s'.previews == [] && s'.calls == s.calls && s'.generation == s.generation
            && s'.disposed == s.disposed && s'.enabled == s.enabled
  {
  }

  lemma {:induction false} SameCalls(calls: seq<Call>)
    ensures forall op | 0 <= op < |calls| :: CallEvolves(calls[op], calls[op])
  {
  }

  lemma {:induction false} EnableStep(s: State, enabled: bool, ready: bool)
    ensures var s' := SetEnabled(s, enabled, ready);
            Moves(s, s') && ShowsLess(s, s') && s'.enabled == enabled && (!enabled ==> s'.previews == [])
  {
    hide Without, Gui, Reason;
  }

  lemma {:induction false} OtherStep(s: State, e: Event)
    requires Enabled(s, e) && (e.RefreshStart? || e.RefreshClick? || e.Report? || e.Disposed?)
    ensures Moves(s, Next(s, e)) && ShowsLess(s, Next(s, e)) && Next(s, e).enabled == s.enabled
  {
    hide Without;
  }

  lemma {:induction false} NextStep(s: State, e: Event)
    requires Inv(s) && Enabled(s, e)
    ensures Moves(s, Next(s, e)) && Shows(s, e, Next(s, e))
  {
    hide Inv, HandleRequest, Complete, Release, Register, Moves, ShowsArrival, ShowsReturn, ShowsRestored, ShowsLess,
         Fire, SetEnabled, EndRefresh, Dispose, StartRefresh;
    match e
    case Arrive(m, uuid, now) => ArriveStep(s, m, uuid, now);
    case Return(op, returned, thrown, now) => ReturnStep(s, op, returned, thrown, now);
    case Released(session, agent, all, deadline) => ReleaseStep(s, session, agent, all, deadline);
    case Registered(available, raws, now) => RegisterStep(s, available, raws, now);
    case TimerFires(timer) => FireStep(s, timer);
    case Enable(enabled, ready) => EnableStep(s, enabled, ready);
    case RefreshEnd(generation, found, ready) => RefreshStep(s, generation, found, ready);
    case RefreshStart(_) | RefreshClick | Report(_, _) | Disposed => OtherStep(s, e);
  }

  lemma {:induction false} ExecutionMoves(vm: string, enabled: bool, events: seq<Event>, states: seq<State>, m: nat,
      n: nat)
    requires Execution(vm, enabled, events, states) && m <= n < |states|
    ensures Moves(states[m], states[n])
    decreases n
  {
    if m < n {
      ExecutionMoves(vm, enabled, events, states, m, n - 1);
      ExecutionStep(vm, enabled, events, states, n - 1);
      MovesOn(states[m], states[n - 1], states[n]);
    }
  }

  lemma {:induction false} MovesOn(a: State, b: State, c: State)
    requires Moves(a, b) && Moves(b, c)
    ensures Moves(a, c)
  {
    forall op | 0 <= op < |a.calls| ensures CallEvolves(a.calls[op], c.calls[op]) {
      assert CallEvolves(a.calls[op], b.calls[op]) && CallEvolves(b.calls[op], c.calls[op]);
    }
  }

  lemma {:induction false} ExecutionStep(vm: string, enabled: bool, events: seq<Event>, states: seq<State>, n: nat)
    requires Execution(vm, enabled, events, states) && n < |events|
    ensures Inv(states[n]) && Enabled(states[n], events[n]) && states[n + 1] == Next(states[n], events[n])
    ensures Moves(states[n], states[n + 1]) && Shows(states[n], events[n], states[n + 1])
  {
    ExecutionInv(vm, enabled, events, states, n);
    assert Linked(events, states, n);
    NextStep(states[n], events[n]);
  }

  /** From the moment a request arrived, nothing adds to what it asked of the native side: that
      is at most one call, within what the request allows. It is answered at most once, always
      if it was refused, and an error caught for it is called safe to retry exactly when the
      native side was never called. */
  lemma {:induction false} RequestsRunAtMostOnce(vm: string, enabled: bool, events: seq<Event>, states: seq<State>,
      m: nat, n: nat, op: nat)
    requires Execution(vm, enabled, events, states) && m <= n < |states| && op < |states[m].calls|
    ensures op < |states[n].calls|
    ensures var a, b := states[m].calls[op], states[n].calls[op];
            && b.invocations == a.invocations && |b.invocations| <= 1 && |b.answers| <= 1
            && (forall v | v in b.invocations :: InvocationOk(b.request, v))
            && (b.invocations == [] ==> b.answers != [])
            && (forall x | x in b.answers && x.Caught? :: x.retrySafe <==> b.invocations == [])
  {
    ExecutionMoves(vm, enabled, events, states, m, n);
    ExecutionInv(vm, enabled, events, states, n);
    assert CallEvolves(states[m].calls[op], states[n].calls[op]);
    assert CallOk(states[n].calls[op]);
  }

  // ----- late completions -----

  ghost predicate UniqueTokens(calls: seq<Call>) {
    forall i, j | 0 <= i < j < |calls| :: calls[i].token != calls[j].token
  }

  /** A completion of a request that is not the newest on its key touches no preview, unless
      the newest one is in flight under the very same id. */
  lemma {:induction false} LateCompletion(s: State, op: nat, returned: Option<Result>, thrown: string, now: int)
    requires Inv(s) && op < |s.calls| && InFlight(s.calls[op]) && s.enabled
    requires Newest(s.calls, s.calls[op].key) != Some(op)
    ensures var s', c, n := Complete(s, op, returned, thrown, now), s.calls[op], Newest(s.calls, s.calls[op].key);
            (s'.previews != s.previews || s'.latest != s.latest) ==>
              n.Some? && s.calls[n.value].token == c.token && InFlight(s.calls[n.value])
  {
    var c := s.calls[op];
    ReturnStep(s, op, returned, thrown, now);
    ReturnOfOther(s, op, now, Complete(s, op, returned, thrown, now));
    hide Complete, ShowsReturn, Moves, InFlight;
    if IsLatest(s, c) {
      assert LatestAt(s, c.key);
    }
  }

  lemma {:induction false} ReturnOfOther(s: State, op: nat, now: int, s': State)
    requires op < |s.calls| && ShowsReturn(s, op, now, s')
    ensures !IsLatest(s, s.calls[op]) ==> s'.latest == s.latest && s'.previews == if s.enabled then s.previews else []
  {
    hide Without, Find, CompletedFor;
  }

  /** With unique request ids, in any run: a request that a newer one on the same session and
      agent superseded leaves every preview alone when it completes, except that a disabled
      channel shows nothing. */
  lemma {:induction false} LateCompletionsNeverWin(vm: string, enabled: bool, events: seq<Event>, states: seq<State>,
      n: nat, op: nat, newer: nat)
    requires Execution(vm, enabled, events, states) && n < |events| && UniqueTokens(states[|events|].calls)
    requires events[n].Return? && events[n].op == op < newer < |states[n].calls|
    requires states[n].calls[op].key == states[n].calls[newer].key
    ensures states[n + 1].previews == (if states[n].enabled then states[n].previews else [])
    ensures states[n + 1].latest == states[n].latest
  {
    ExecutionStep(vm, enabled, events, states, n);
    ExecutionMoves(vm, enabled, events, states, n, |events|);
    var s := states[n];
    var newest := Newest(s.calls, s.calls[op].key);
    assert newest.Some? && newest.value >= newer;
    var last := states[|events|].calls;
    assert CallEvolves(s.calls[op], last[op]) && CallEvolves(s.calls[newest.value], last[newest.value]);
    ReturnOfOther(s, op, events[n].now, states[n + 1]);
    hide Next, FinishedPreviews, InFlight;
    LatestIsNewest(s, op, newest.value);
  }

  lemma {:induction false} LatestIsNewest(s: State, op: nat, newest: nat)
    requires LatestOk(s) && op < newest < |s.calls| && Newest(s.calls, s.calls[op].key) == Some(newest)
    requires s.calls[op].token != s.calls[newest].token
    ensures !IsLatest(s, s.calls[op])
  {
    if s.calls[op].key in s.latest {
      assert LatestAt(s, s.calls[op].key);
    }
  }

  // ----- a disabled channel, unique keys, busy previews -----

  ghost predicate UniqueKeys(previews: seq<Preview>) {
    forall i, j | 0 <= i < j < |previews| :: previews[i].key != previews[j].key
  }

  lemma {:induction false} WithoutUnique(previews: seq<Preview>, keys: set<string>)
    requires UniqueKeys(previews)
    ensures UniqueKeys(Without(previews, keys))
  {
    if previews != [] {
      var init := previews[..|previews| - 1];
      WithoutUnique(init, keys);
      forall i | 0 <= i < |Without(init, keys)| ensures Without(init, keys)[i].key != previews[|previews| - 1].key {
        var k :| 0 <= k < |init| && init[k] == Without(init, keys)[i];
        assert init[k] == previews[k];
      }
    }
  }

  lemma {:induction false} ReplacedUnique(previews: seq<Preview>, added: seq<Preview>)
    requires UniqueKeys(previews)
    ensures UniqueKeys(Without(previews, KeysOf(added)) + added) <==> UniqueKeys(added)
  {
    var kept := Without(previews, KeysOf(added));
    WithoutUnique(previews, KeysOf(added));
    var all := kept + added;
    if UniqueKeys(added) {
      forall i, j | 0 <= i < j < |all| ensures all[i].key != all[j].key {
        if i < |kept| <= j {
          assert kept[i].key !in KeysOf(added);
          assert added[j - |kept|] in added;
        }
      }
    }
    if UniqueKeys(all) {
      forall i, j | 0 <= i < j < |added| ensures added[i].key != added[j].key {
        assert all[|kept| + i].key != all[|kept| + j].key;
      }
    }
  }

  /** A registration leaves the preview keys unique exactly when the previews it restores have
      unique keys: two remembered entries of one session and agent both stay. */
  lemma {:induction false} RestoringUnique(s: State, available: bool, raws: seq<Raw>, now: int)
    requires Inv(s) && UniqueKeys(s.previews) && s.enabled
    ensures UniqueKeys(Register(s, available, Some(raws), now).previews) <==> UniqueKeys(Restored(raws, now))
  {
    RegisterStep(s, available, Some(raws), now);
    ReplacedUnique(s.previews, Restored(raws, now));
    hide Inv, Without, KeysOf, Register, Moves, Restored;
  }

  ghost predicate RestoresUnique(e: Event) {
    e.Registered? && e.raws.Some? ==> UniqueKeys(Restored(e.raws.value, e.now))
  }

  lemma {:induction false} SingleKey(previews: seq<Preview>, p: Preview)
    requires UniqueKeys(previews)
    ensures UniqueKeys(Without(previews, {p.key}) + [p])
  {
    assert KeysOf([p]) == {p.key} by {
      assert p in [p];
    }
    ReplacedUnique(previews, [p]);
  }

  lemma {:induction false} NextUnique(s: State, e: Event, s': State)
    requires Enabled(s, e) && Shows(s, e, s') && UniqueKeys(s.previews) && RestoresUnique(e)
    ensures UniqueKeys(s'.previews)
  {
    hide Without, Restored, FinishedPreviews, UniqueKeys, KeyOf;
    assert UniqueKeys([]) by { hide *; EmptyIsUnique(); }
    match e
    case Arrive(m, _, _) =>
      if s.enabled {
        var p: Preview :| Arrived(s, KeyOf(m), p, s');
        SingleKey(s.previews, p);
      }
    case Return(op, _, _, now) =>
      var a :| s'.previews == FinishedPreviews(s, s.calls[op], a, now);
      FinishedUnique(s, s.calls[op], a, now);
    case Registered(_, raws, now) =>
      if raws.Some? {
        ReplacedUnique(s.previews, Restored(raws.value, now));
      }
    case TimerFires(_) | Enable(_, _) | RefreshEnd(_, _, _) | RefreshStart(_) | RefreshClick | Report(_, _) | Disposed
         | Released(_, _, _, _) =>
      if s'.previews != [] && s'.previews != s.previews {
        var keys :| s'.previews == Without(s.previews, keys);
        WithoutUnique(s.previews, keys);
      }
  }

  lemma {:induction false} EmptyIsUnique()
    ensures UniqueKeys([])
  {
  }

  lemma {:induction false} FinishedUnique(s: State, c: Call, a: Answer, now: int)
    requires UniqueKeys(s.previews)
    ensures UniqueKeys(FinishedPreviews(s, c, a, now))
  {
    var current := Find(s.previews, c.key);
    if current.Some? {
      SingleKey(s.previews, CompletedFor(current.value, c.request, a, now));
    }
  }

  /** Every session and agent has at most one preview, as long as no registration brought two
      entries for the same one. */
  lemma {:induction false} PreviewKeysAreUnique(vm: string, enabled: bool, events: seq<Event>, states: seq<State>,
      n: nat)
    requires Execution(vm, enabled, events, states) && n < |states|
    requires forall i | 0 <= i < n :: RestoresUnique(events[i])
    ensures UniqueKeys(states[n].previews)
  {
    if n > 0 {
      PreviewKeysAreUnique(vm, enabled, events, states, n - 1);
      ExecutionStep(vm, enabled, events, states, n - 1);
      NextUnique(states[n - 1], events[n - 1], states[n]);
    }
  }

  /** A channel that is switched off shows nothing and has no release pending. */
  lemma {:induction false} DisabledShowsNothing(vm: string, enabled: bool, events: seq<Event>, states: seq<State>,
      n: nat)
    requires Execution(vm, enabled, events, states) && n < |states|
    ensures !states[n].enabled ==> states[n].previews == [] && states[n].timers == map[] && states[n].armed == map[]
  {
    ExecutionInv(vm, enabled, events, states, n);
    if n > 0 {
      DisabledShowsNothing(vm, enabled, events, states, n - 1);
      ExecutionStep(vm, enabled, events, states, n - 1);
      NextDisabled(states[n - 1], events[n - 1], states[n]);
    }
    if !states[n].enabled {
      NothingPending(states[n]);
    }
  }

  lemma {:induction false} NothingPending(s: State)
    requires Inv(s) && s.previews == []
    ensures s.timers == map[] && s.armed == map[]
  {
    assert KeysOf(s.previews) == {};
    assert s.timers.Keys == {};
  }

  lemma {:induction false} NextDisabled(s: State, e: Event, s': State)
    requires Enabled(s, e) && Shows(s, e, s') && (!s.enabled ==> s.previews == [])
    ensures !s'.enabled ==> s'.previews == []
  {
    hide Restored, KeyOf, Arrived;
  }

  /** What a listener and the platform can rely on between any two stretches. */
  ghost predicate Consistent(s: State) {
    && (s.active <==> s.previews != []) && |s.logs| <= LOG_LIMIT
    && (!s.disposed ==> s.timers.Keys == s.deadlines.Keys)
    && (forall t | t in s.armed :: s.armed[t] in s.timers && s.timers[s.armed[t]] == t)
    && (!s.enabled ==> s.previews == [] && s.timers == map[] && s.armed == map[])
  }

  lemma {:induction false} InvIsConsistent(s: State)
    requires Inv(s) && (!s.enabled ==> s.previews == [])
    ensures Consistent(s)
  {
    if !s.enabled {
      NothingPending(s);
    }
    hide CallsOk, LatestOk, KeysOf;
  }

  /** Every event keeps the invariant and leaves a consistent channel. */
  lemma {:induction false} EventKeeps(s: State, e: Event)
    requires Inv(s) && Consistent(s) && Enabled(s, e)
    ensures Inv(Next(s, e)) && Consistent(Next(s, e))
  {
    hide Inv, Next, Enabled, Moves, Shows;
    NextKeeps(s, e);
    NextStep(s, e);
    NextDisabled(s, e, Next(s, e));
    InvIsConsistent(Next(s, e));
  }

  // ----- busy previews -----

  ghost predicate BusyOwned(s: State) {
    !s.disposed ==>
      forall i | 0 <= i < |s.previews| && s.previews[i].shade == BusyPreview :: s.previews[i].key in s.latest
  }

  predicate RestoresBusy(e: Event) {
    e.Registered? && e.raws.Some? && AnyShade(Restored(e.raws.value, e.now), BusyPreview)
  }

  lemma {:induction false} WithoutBusy(s: State, keys: set<string>, latest: map<string, string>)
    requires BusyOwned(s) && !s.disposed && s.latest.Keys - keys <= latest.Keys
    ensures forall i | 0 <= i < |Without(s.previews, keys)| && Without(s.previews, keys)[i].shade == BusyPreview ::
              Without(s.previews, keys)[i].key in latest
  {
    var r := Without(s.previews, keys);
    forall i | 0 <= i < |r| && r[i].shade == BusyPreview ensures r[i].key in latest {
      var k :| 0 <= k < |s.previews| && s.previews[k] == r[i];
      assert r[i].key in s.latest.Keys - keys;
    }
  }

  lemma {:induction false} FinishedBusy(s: State, c: Call, a: Answer, now: int, latest: map<string, string>)
    requires BusyOwned(s) && !s.disposed
    requires latest == if IsLatest(s, c) then s.latest - {c.key} else s.latest
    ensures forall i | 0 <= i < |FinishedPreviews(s, c, a, now)|
            && FinishedPreviews(s, c, a, now)[i].shade == BusyPreview ::
              FinishedPreviews(s, c, a, now)[i].key in latest
  {
    var current := Find(s.previews, c.key);
    if IsLatest(s, c) {
      WithoutBusy(s, {c.key}, latest);
      if current.None? {
        forall i | 0 <= i < |s.previews| && s.previews[i].shade == BusyPreview ensures s.previews[i].key in latest {
          assert s.previews[i].key in s.latest;
        }
      } else {
        assert CompletedFor(current.value, c.request, a, now).shade != BusyPreview;
      }
    }
  }

  lemma {:induction false} NextBusy(s: State, e: Event, s': State)
    requires Enabled(s, e) && Moves(s, s') && Shows(s, e, s') && BusyOwned(s) && !RestoresBusy(e)
    ensures BusyOwned(s')
  {
    hide Without, Restored, FinishedPreviews, KeysOf, KeyOf, IsLatest, CallsEvolve;
    if s'.disposed || s'.previews == [] {
    } else {
      match e
      case Arrive(m, _, _) =>
        if s.enabled {
          var p: Preview :| Arrived(s, KeyOf(m), p, s');
          WithoutBusy(s, {p.key}, s'.latest);
        }
      case Return(op, _, _, now) =>
        var a :| s'.previews == FinishedPreviews(s, s.calls[op], a, now);
        FinishedBusy(s, s.calls[op], a, now, s'.latest);
      case Registered(_, raws, now) =>
        if s'.previews != s.previews {
          RestoredBusy(s, Restored(raws.value, now), s'.latest);
        }
      case TimerFires(_) | Enable(_, _) | RefreshEnd(_, _, _) | RefreshStart(_) | RefreshClick | Report(_, _) | Disposed
           | Released(_, _, _, _) =>
        if s'.previews != s.previews {
          var keys :| s'.previews == Without(s.previews, keys);
          WithoutBusy(s, keys, s'.latest);
        }
    }
  }

  lemma {:induction false} RestoredBusy(s: State, restored: seq<Preview>, latest: map<string, string>)
    requires BusyOwned(s) && !s.disposed && latest == s.latest && !AnyShade(restored, BusyPreview)
    ensures var all := Without(s.previews, KeysOf(restored)) + restored;
            forall i | 0 <= i < |all| && all[i].shade == BusyPreview :: all[i].key in latest
  {
    WithoutBusy(s, KeysOf(restored), latest);
    hide Without, KeysOf;
  }

  /** While the channel lives and the gateway restored no busy preview, a preview is busy only
      as long as the newest request of its session and agent is in flight: once nothing is in
      flight, nothing is busy. */
  lemma {:induction false} BusyMeansInFlight(vm: string, enabled: bool, events: seq<Event>, states: seq<State>,
      n: nat, i: nat)
    requires Execution(vm, enabled, events, states) && n < |states| && !states[n].disposed
    requires forall k | 0 <= k < n :: !RestoresBusy(events[k])
    requires i < |states[n].previews| && states[n].previews[i].shade == BusyPreview
    ensures var s := states[n];
            var newest := Newest(s.calls, s.previews[i].key);
            newest.Some? && InFlight(s.calls[newest.value])
  {
    ExecutionInv(vm, enabled, events, states, n);
    BusyAlongRun(vm, enabled, events, states, n);
    assert LatestAt(states[n], states[n].previews[i].key);
  }

  lemma {:induction false} BusyAlongRun(vm: string, enabled: bool, events: seq<Event>, states: seq<State>, n: nat)
    requires Execution(vm, enabled, events, states) && n < |states|
    requires forall k | 0 <= k < n :: !RestoresBusy(events[k])
    ensures BusyOwned(states[n])
  {
    if n > 0 {
      BusyAlongRun(vm, enabled, events, states, n - 1);
      ExecutionStep(vm, enabled, events, states, n - 1);
      NextBusy(states[n - 1], events[n - 1], states[n]);
    }
  }

  // ----- capability refreshes -----

  /** A refresh that a later one overtook, or that outlived the channel, changes nothing when it
      returns, however much later that is; neither does one that returns to a channel switched
      off. */
  lemma {:induction false} SupersededRefreshIsIgnored(vm: string, enabled: bool, events: seq<Event>,
      states: seq<State>, m: nat, n: nat)
    requires Execution(vm, enabled, events, states) && m <= n < |events| && events[n].RefreshEnd?
    requires events[n].generation < states[m].generation || states[m].disposed || !states[n].enabled
    ensures states[n + 1] == states[n].(refreshes := states[n].refreshes - {events[n].generation})
  {
    ExecutionMoves(vm, enabled, events, states, m, n);
    assert Linked(events, states, n);
  }

  // ----- releases -----

  /** A request takes back the release pending on its key: whatever timer ran before cannot
      remove the preview it shows. */
  lemma {:induction false} ArrivalStopsRelease(s: State, m: Request, uuid: string, now: int)
    requires Inv(s) && !s.disposed
    ensures var s' := HandleRequest(s, m, uuid, now);
            KeyOf(m) !in s'.deadlines && forall t | t in s'.armed :: s'.armed[t] != KeyOf(m)
  {
    var b, call := Begin(s, m, TokenOf(m, uuid), now), Call(m, KeyOf(m), TokenOf(m, uuid), [], []);
    BeginKeeps(s, m, TokenOf(m, uuid), now);
    var refusal := RefusalOf(b, m);
    assert KeyOf(m) !in b.deadlines && KeyOf(m) !in b.timers;
    ArriveKeeps(s, m, uuid, now);
    hide RefusalOf, KeyOf, TokenOf, Begin, InvocationOf;
    if refusal.Some? {
      var a := Caught(Refused(refusal.value), true);
      assert Reschedule(b, KeyOf(m)) == b;
      hide Succeeded, Described, ActionOf, FailureOf, Reason, Gui, AnyShade, LogsWithout, FinishedPreviews;
      assert Finish(b, call, a, now).deadlines.Keys <= b.deadlines.Keys;
    }
    hide Finish, Inv;
    var s' := HandleRequest(s, m, uuid, now);
    assert KeyOf(m) !in s'.deadlines.Keys;
    ArmedHaveDeadlines(s', KeyOf(m));
  }

  lemma {:induction false} ArmedHaveDeadlines(s: State, key: string)
    requires Inv(s) && key !in s.deadlines
    ensures forall t | t in s.armed :: s.armed[t] != key
  {
    hide KeysOf, CallsOk, LatestOk;
    assert key !in s.timers.Keys;
  }

  /** Timers and deadlines part exactly when a timer runs out on a disposed channel: it leaves
      its deadline, and the preview, where they were. */
  lemma {:induction false} FiringAfterDispose(s: State, id: nat)
    requires Inv(s) && id in s.armed
    ensures var s' := Fire(s, id);
            s.disposed <==> s'.deadlines.Keys != s'.timers.Keys && s.armed[id] in s'.deadlines
  {
    var key, s' := s.armed[id], Fire(s, id);
    assert key in s.timers.Keys;
    hide KeysOf, CallsOk, LatestOk, AnyShade, Without;
    assert s'.timers.Keys == s.timers.Keys - {key};
  }
}
