/** What holds in every state the Computer Use channel can reach, whatever order requests,
    completions, releases, timers, refreshes, enabling and disposal come in. */
module ChannelSafety {
  import opened Common
  import opened ChannelModel

  // ----- the invariant -----

  /** The platform's armed timers are exactly the channel's release timers. */
  ghost predicate TimersOk(s: State) {
    && (forall k | k in s.timers :: s.timers[k] in s.armed && s.armed[s.timers[k]] == k)
    && (forall t | t in s.armed :: t < s.nextTimer && s.armed[t] in s.timers && s.timers[s.armed[t]] == t)
  }

  ghost predicate DeadlinesOk(s: State) {
    && s.timers.Keys <= s.deadlines.Keys <= KeysOf(s.previews)
    && (!s.disposed ==> s.timers.Keys == s.deadlines.Keys)
  }

  ghost predicate ShownOk(s: State) {
    (s.active <==> s.previews != []) && |s.logs| <= LOG_LIMIT
  }

  /** What the native side was asked is something the request and the host allow. */
  predicate InvocationOk(m: Request, v: Invocation) {
    && (v.scope == AppWindow || v.scope == Desktop)
    && (v.policy == AllowForeground || (v.policy == StrictBackground && v.scope == AppWindow))
    && (v.mode == ForegroundDesktop <==> v.scope == Desktop)
    && (m.mode.Some? ==> m.mode.value == v.mode)
    && (UsesAx(m) ==> !v.onVm && v.scope == AppWindow)
    && (if v.onVm then v.instance != "" && m.instance == v.instance else m.environment == "")
  }

  ghost predicate CallOk(c: Call) {
    && c.key == KeyOf(c.request)
    && |c.invocations| <= 1 && |c.answers| <= 1
    && (c.invocations == [] ==> c.answers != [])
    && (forall v | v in c.invocations :: InvocationOk(c.request, v))
    && (forall a | a in c.answers :: a.Caught? ==> (a.retrySafe <==> c.invocations == []))
    && (forall a | a in c.answers :: a.Native? ==> c.invocations != [])
  }

  /** The newest request on a key. */
  function Newest(calls: seq<Call>, key: string): (n: Option<nat>)
    ensures n.Some? ==> n.value < |calls| && calls[n.value].key == key
                        && forall i | n.value < i < |calls| :: calls[i].key != key
    ensures n.None? ==> forall i | 0 <= i < |calls| :: calls[i].key != key
  {
    if calls == [] then None
    else if calls[|calls| - 1].key == key then Some(|calls| - 1)
    else Newest(calls[..|calls| - 1], key)
  }

  /** A key's latest request is the newest one that arrived for it, and it is in flight. */
  ghost predicate LatestAt(s: State, key: string)
    requires key in s.latest
  {
    var n := Newest(s.calls, key);
    n.Some? && InFlight(s.calls[n.value]) && s.calls[n.value].token == s.latest[key]
  }

  ghost predicate LatestOk(s: State) {
    (forall key | key in s.latest :: LatestAt(s, key)) && (s.disposed ==> s.latest == map[])
  }

  ghost predicate CallsOk(s: State) {
    && (forall op | 0 <= op < |s.calls| :: CallOk(s.calls[op]))
    && (forall g | g in s.refreshes :: g <= s.generation)
  }

  ghost predicate Inv(s: State) {
    TimersOk(s) && DeadlinesOk(s) && ShownOk(s) && CallsOk(s) && LatestOk(s)
  }

  lemma {:induction false} InitInv(vm: string, enabled: bool)
    ensures Inv(Init(vm, enabled))
  {
  }

  // ----- timers -----

  lemma {:induction false} CancelReleaseTimers(s: State, key: string)
    requires TimersOk(s)
    ensures TimersOk(CancelRelease(s, key))
  {
  }

  lemma {:induction false} CancelAllTimers(s: State)
    requires TimersOk(s)
    ensures TimersOk(CancelAll(s)) && CancelAll(s).armed == map[]
  {
    forall t | t in s.armed ensures t in s.timers.Values {
      assert s.timers[s.armed[t]] == t;
    }
  }

  lemma {:induction false} ScheduleTimers(s: State, key: string, deadline: int)
    requires TimersOk(s) && DeadlinesOk(s) && key in KeysOf(s.previews)
    ensures TimersOk(Schedule(s, key, deadline)) && DeadlinesOk(Schedule(s, key, deadline))
  {
    hide KeysOf;
  }

  /** Everything but the release timers. */
  function Bare(s: State): State {
    s.(armed := map[], timers := map[], deadlines := map[], nextTimer := 0)
  }

  lemma {:induction false} BareKeeps(s: State, s': State)
    requires Bare(s) == Bare(s')
    ensures ShownOk(s) == ShownOk(s') && CallsOk(s) == CallsOk(s') && s.previews == s'.previews
            && s.disposed == s'.disposed
    ensures LatestOk(s) == LatestOk(s')
  {
    assert s.latest == Bare(s).latest == s'.latest;
    assert s.calls == Bare(s).calls == s'.calls;
    assert s.previews == Bare(s).previews == s'.previews;
    assert s.logs == Bare(s).logs == s'.logs && s.active == Bare(s).active == s'.active;
    assert s.disposed == Bare(s).disposed == s'.disposed;
    assert s.refreshes == Bare(s).refreshes == s'.refreshes && s.generation == Bare(s).generation == s'.generation;
    forall k | k in s.latest ensures LatestAt(s, k) == LatestAt(s', k) {}
  }

  lemma {:induction false} ScheduleEachTimers(s: State, keys: seq<string>, deadline: int)
    requires TimersOk(s) && DeadlinesOk(s)
    ensures var s' := ScheduleEach(s, keys, deadline); TimersOk(s') && DeadlinesOk(s') && Bare(s') == Bare(s)
  {
    if keys != [] {
      ScheduleEachTimers(s, keys[..|keys| - 1], deadline);
      var s' := ScheduleEach(s, keys[..|keys| - 1], deadline);
      var key := keys[|keys| - 1];
      if Find(s'.previews, key).Some? {
        assert Find(s'.previews, key).value.key == key;
        ScheduleTimers(s', key, deadline);
      }
    }
  }

  lemma {:induction false} ScheduleEntriesTimers(s: State, entries: seq<(string, int)>)
    requires TimersOk(s) && DeadlinesOk(s)
    requires forall i | 0 <= i < |entries| :: entries[i].0 in KeysOf(s.previews)
    ensures var s' := ScheduleEntries(s, entries); TimersOk(s') && DeadlinesOk(s') && Bare(s') == Bare(s)
  {
    hide KeysOf;
    if entries != [] {
      var init, last := entries[..|entries| - 1], entries[|entries| - 1];
      ScheduleEntriesTimers(s, init);
      var s' := ScheduleEntries(s, init);
      assert s'.previews == Bare(s').previews == Bare(s).previews == s.previews;
      assert last.0 in KeysOf(s'.previews);
      ScheduleTimers(s', last.0, last.1);
    }
  }

  lemma {:induction false} ReleaseKeeps(s: State, session: string, agent: Option<string>, all: bool, deadline: int)
    requires Inv(s)
    ensures Inv(Release(s, session, agent, all, deadline))
  {
    var keys := if all then SessionKeys(s.previews, session) else [PreviewKey(Some(session), agent)];
    ScheduleEachTimers(s, keys, deadline);
    BareKeeps(s, ScheduleEach(s, keys, deadline));
  }

  lemma {:induction false} FireKeeps(s: State, id: nat)
    requires Inv(s) && id in s.armed
    ensures Inv(Fire(s, id))
  {
    var key, s' := s.armed[id], Fire(s, id);
    assert TimersOk(s');
    if !s.disposed {
      WithoutKeys(s.previews, {key});
    }
    forall k | k in s'.latest ensures LatestAt(s', k) {
      assert LatestAt(s, k);
    }
  }

  lemma {:induction false} WithoutKeys(previews: seq<Preview>, keys: set<string>)
    ensures KeysOf(Without(previews, keys)) == KeysOf(previews) - keys
  {
    var r := Without(previews, keys);
    forall k ensures k in KeysOf(r) <==> k in KeysOf(previews) - keys {
      if k in KeysOf(previews) - keys {
        var i :| 0 <= i < |previews| && previews[i].key == k;
        assert previews[i] in r;
      }
    }
  }

  lemma {:induction false} KeysOfConcat(a: seq<Preview>, b: seq<Preview>)
    ensures KeysOf(a + b) == KeysOf(a) + KeysOf(b)
  {
  }

  // ----- restored previews -----

  lemma {:induction false} InsertKeys(entries: seq<(string, int)>, key: string, value: int)
    ensures forall e | e in Insert(entries, key, value) :: e == (key, value) || e in entries
  {
    if entries != [] && entries[0].0 != key {
      InsertKeys(entries[1..], key, value);
    }
  }

  /** Every restored deadline belongs to a restored preview. */
  lemma {:induction false} RestoredDeadlineKeys(raws: seq<Raw>, now: int)
    ensures forall e | e in RestoredDeadlines(raws, now) :: e.0 in KeysOf(Restored(raws, now))
  {
    if raws != [] {
      var init, raw := raws[..|raws| - 1], raws[|raws| - 1];
      RestoredDeadlineKeys(init, now);
      var p := FromRaw(raw, now);
      if p.Some? {
        KeysOfConcat(Restored(init, now), [p.value]);
        assert p.value in [p.value];
        if raw.deadline.Some? {
          InsertKeys(RestoredDeadlines(init, now), p.value.key, raw.deadline.value);
        }
      }
    }
  }

  lemma {:induction false} AdoptKeeps(s: State, restored: seq<Preview>)
    requires Inv(s) && restored != []
    ensures Inv(Adopt(s, restored)) && KeysOf(restored) <= KeysOf(Adopt(s, restored).previews)
  {
    var s' := Adopt(s, restored);
    WithoutKeys(s.previews, KeysOf(restored));
    KeysOfConcat(Without(s.previews, KeysOf(restored)), restored);
    hide KeysOf, Without, Freshest, AnyShade;
    forall k | k in s'.latest ensures LatestAt(s', k) {
      assert LatestAt(s, k);
    }
  }

  lemma {:induction false} RegisterKeeps(s: State, available: bool, raws: Option<seq<Raw>>, now: int)
    requires Inv(s)
    ensures Inv(Register(s, available, raws, now))
  {
    var s' := Register(s, available, None, now);
    assert Inv(s') by {
      hide AnyShade, KeysOf, CallOk;
      forall k | k in s'.latest ensures LatestAt(s', k) {
        assert LatestAt(s, k);
      }
    }
    if raws.Some? && s.enabled && Restored(raws.value, now) != [] {
      AdoptKeeps(s', Restored(raws.value, now));
      RestoredDeadlineKeys(raws.value, now);
      var a := Adopt(s', Restored(raws.value, now));
      hide Adopt, Restored, RestoredDeadlines, KeysOf, Inv;
      RestoreTail(a, RestoredDeadlines(raws.value, now), KeysOf(Restored(raws.value, now)));
    }
  }

  lemma {:induction false} RestoreTail(a: State, entries: seq<(string, int)>, keys: set<string>)
    requires Inv(a) && keys <= KeysOf(a.previews)
    requires forall e | e in entries :: e.0 in keys
    ensures Inv(ScheduleEntries(a, entries))
  {
    hide KeysOf;
    ScheduleEntriesTimers(a, entries);
    BareKeeps(a, ScheduleEntries(a, entries));
  }

  // ----- requests -----

  lemma {:induction false} NewestSameKeys(calls: seq<Call>, calls': seq<Call>, key: string)
    requires |calls| == |calls'| && forall i | 0 <= i < |calls| :: calls[i].key == calls'[i].key
    ensures Newest(calls, key) == Newest(calls', key)
  {
    if calls != [] {
      NewestSameKeys(calls[..|calls| - 1], calls'[..|calls| - 1], key);
    }
  }

  lemma {:induction false} NewestAppended(calls: seq<Call>, c: Call, key: string)
    ensures Newest(calls + [c], key) == if c.key == key then Some(|calls|) else Newest(calls, key)
  {
    assert (calls + [c])[..|calls|] == calls;
  }

  lemma {:induction false} BeginKeeps(s: State, m: Request, token: string, now: int)
    requires TimersOk(s) && DeadlinesOk(s) && ShownOk(s)
    ensures var s' := Begin(s, m, token, now); TimersOk(s') && DeadlinesOk(s') && ShownOk(s')
    ensures KeyOf(m) in KeysOf(Begin(s, m, token, now).previews)
  {
    var key, s', busy := KeyOf(m), Begin(s, m, token, now), BusyFor(s, m, now);
    CancelReleaseTimers(s, key);
    WithoutKeys(s.previews, {key});
    KeysOfConcat(Without(s.previews, {key}), [busy]);
    assert busy in [busy] && busy.key == key;
    assert KeysOf([busy]) == {key};
    hide KeysOf, Without, BusyFor, TimersOk;
    assert TimersOk(s') by { TimersAlike(CancelRelease(s, key), s'); }
  }

  lemma {:induction false} TimersAlike(s: State, s': State)
    requires TimersOk(s) && s'.timers == s.timers && s'.armed == s.armed && s'.nextTimer == s.nextTimer
    ensures TimersOk(s')
  {
  }

  /** Before the re-arming step of a completion: the previews changed, the timers did not. */
  lemma {:induction false} FinishedKeys(s: State, c: Call, a: Answer, now: int)
    requires s.enabled
    ensures KeysOf(FinishedPreviews(s, c, a, now)) == KeysOf(s.previews)
  {
    var current := Find(s.previews, c.key);
    if IsLatest(s, c) && current.Some? {
      var p := CompletedFor(current.value, c.request, a, now);
      WithoutKeys(s.previews, {c.key});
      KeysOfConcat(Without(s.previews, {c.key}), [p]);
      assert current.value in s.previews;
      assert KeysOf([p]) == {c.key} by {
        assert p in [p] && p.key == c.key;
      }
    }
  }

  /** The re-arming at the end of a completion never does anything while the channel lives. */
  lemma {:induction false} ReschedulingIsIdle(s: State, key: string)
    requires DeadlinesOk(s)
    ensures Reschedule(s, key) != s ==> s.disposed
    ensures key in s.deadlines && key !in s.timers <==> Reschedule(s, key) != s
  {
    hide KeysOf;
    if Reschedule(s, key) != s {
      assert key in s.deadlines.Keys && key !in s.timers.Keys;
    }
    if key in s.deadlines && key !in s.timers {
      assert Reschedule(s, key).nextTimer != s.nextTimer;
    }
  }

  /** A completion up to and without its last cancellation. */
  lemma {:induction false} FinishKeeps(s: State, c: Call, a: Answer, now: int)
    requires TimersOk(s) && DeadlinesOk(s) && ShownOk(s)
    ensures var s' := Finish(s, c, a, now);
            TimersOk(s') && DeadlinesOk(s') && ShownOk(s') && s'.calls == s.calls && s'.disposed == s.disposed
            && s'.refreshes == s.refreshes && s'.generation == s.generation
            && s'.latest == if IsLatest(s, c) then s.latest - {c.key} else s.latest
  {
    var previews := FinishedPreviews(s, c, a, now);
    hide FinishedPreviews, Succeeded, Described, ActionOf, FailureOf, Reason, Gui, AnyShade, LogsWithout;
    var f := Finish(s.(enabled := true), c, a, now);
    if s.enabled {
      assert s == s.(enabled := true);
      FinishedKeys(s, c, a, now);
      FinishEnabled(s, c, a, now);
    } else {
      FinishDisabled(s, c, a, now);
    }
  }

  lemma {:induction false} FinishEnabled(s: State, c: Call, a: Answer, now: int)
    requires TimersOk(s) && DeadlinesOk(s) && ShownOk(s) && s.enabled
    requires KeysOf(FinishedPreviews(s, c, a, now)) == KeysOf(s.previews)
    ensures var s' := Finish(s, c, a, now);
            TimersOk(s') && DeadlinesOk(s') && ShownOk(s') && s'.calls == s.calls && s'.disposed == s.disposed
            && s'.refreshes == s.refreshes && s'.generation == s.generation
            && s'.latest == if IsLatest(s, c) then s.latest - {c.key} else s.latest
  {
    hide FinishedPreviews, Succeeded, Described, ActionOf, FailureOf, Reason, Gui, AnyShade, LogsWithout, KeysOf,
         IsLatest;
    if c.key in s.deadlines && c.key !in s.timers {
      ScheduleTimers(s, c.key, s.deadlines[c.key]);
      assert c.key in s.deadlines.Keys;
    }
  }

  lemma {:induction false} FinishDisabled(s: State, c: Call, a: Answer, now: int)
    requires TimersOk(s) && DeadlinesOk(s) && ShownOk(s) && !s.enabled
    ensures var s' := Finish(s, c, a, now);
            TimersOk(s') && DeadlinesOk(s') && ShownOk(s') && s'.calls == s.calls && s'.disposed == s.disposed
            && s'.refreshes == s.refreshes && s'.generation == s.generation
            && s'.latest == if IsLatest(s, c) then s.latest - {c.key} else s.latest
  {
    hide Succeeded, Described, ActionOf, FailureOf, Reason, Gui, AnyShade, LogsWithout, KeysOf, IsLatest;
    var s' := Finish(s, c, a, now);
    assert FinishedPreviews(s, c, a, now) == [];
    assert s'.armed == map[] by {
      if c.key in s.deadlines && c.key !in s.timers {
        ScheduleTimers(s, c.key, s.deadlines[c.key]);
        CancelAllTimers(Schedule(s, c.key, s.deadlines[c.key]));
      } else {
        CancelAllTimers(s);
      }
    }
  }

  /** The native side is called exactly when the checks pass, and what it is asked then respects
      the request's scope and delivery policy and the host's binding. */
  lemma {:induction false} AdmittedIsAllowed(s: State, m: Request)
    requires RefusalOf(s, m).None?
    ensures s.enabled && Gui(s) && InvocationOk(m, InvocationOf(s, m))
  {
    hide UsesAx;
  }

  lemma {:induction false} ArriveKeeps(s: State, m: Request, uuid: string, now: int)
    requires Inv(s) && !s.disposed
    ensures Inv(HandleRequest(s, m, uuid, now))
  {
    BeginKeeps(s, m, TokenOf(m, uuid), now);
    ArrivedFields(s, m, uuid, now);
    hide HandleRequest, Begin, KeyOf, TokenOf, DeadlinesOk, TimersOk, CallsOk, LatestOk, CallOk;
    ArrivedCalls(s, HandleRequest(s, m, uuid, now), TokenOf(m, uuid));
  }

  lemma {:induction false} RefuseFields(b: State, call: Call, why: Refusal, now: int)
    requires TimersOk(b) && DeadlinesOk(b) && ShownOk(b) && call.invocations == [] && call.key == KeyOf(call.request)
    requires IsLatest(b, call)
    ensures var s' := Refuse(b, call, why, now);
            TimersOk(s') && DeadlinesOk(s') && ShownOk(s')
            && s'.disposed == b.disposed && s'.refreshes == b.refreshes && s'.generation == b.generation
            && s'.latest == b.latest - {call.key}
            && s'.calls == b.calls + [call.(answers := [Caught(Refused(why), true)])]
            && CallOk(s'.calls[|b.calls|]) && !InFlight(s'.calls[|b.calls|])
  {
    FinishKeeps(b, call, Caught(Refused(why), true), now);
    hide TimersOk, DeadlinesOk, Finish, InvocationOk, KeyOf;
    var s' := Refuse(b, call, why, now);
    var f := Finish(b, call, Caught(Refused(why), true), now);
    TimersAlike(f, s') by { hide *; }
    DeadlinesAlike(f, s') by { hide *; }
  }

  lemma {:induction false} DeadlinesAlike(s: State, s': State)
    requires DeadlinesOk(s) && s'.timers == s.timers && s'.deadlines == s.deadlines
    requires s'.previews == s.previews && s'.disposed == s.disposed
    ensures DeadlinesOk(s')
  {
  }

  lemma {:induction false} AdmitFields(b: State, call: Call)
    requires TimersOk(b) && DeadlinesOk(b) && ShownOk(b) && call.answers == [] && call.key == KeyOf(call.request)
    requires RefusalOf(b, call.request).None?
    ensures var s' := Admit(b, call);
            TimersOk(s') && DeadlinesOk(s') && ShownOk(s')
            && s'.calls == b.calls + [call.(invocations := [InvocationOf(b, call.request)])]
            && CallOk(s'.calls[|b.calls|]) && InFlight(s'.calls[|b.calls|])
  {
    AdmittedIsAllowed(b, call.request);
    hide RefusalOf, InvocationOf, InvocationOk, KeyOf, TimersOk, DeadlinesOk;
    var s' := Admit(b, call);
    TimersAlike(b, s') by { hide *; }
    DeadlinesAlike(b, s') by { hide *; }
  }

  lemma {:induction false} BeginFields(s: State, m: Request, token: string, now: int)
    ensures var b := Begin(s, m, token, now);
            b.calls == s.calls && b.disposed == s.disposed && b.refreshes == s.refreshes && b.generation == s.generation
            && b.latest == s.latest[KeyOf(m) := token] && RefusalOf(b, m) == RefusalOf(s, m)
  {
    hide BusyFor, KeyOf, ModeOf, DeliveryOf, Without, UsesAx, ReadsOnly;
  }

  /** What an arrival does to the handler table and to the latest requests. */
  lemma {:induction false} ArrivedFields(s: State, m: Request, uuid: string, now: int)
    requires var b := Begin(s, m, TokenOf(m, uuid), now); TimersOk(b) && DeadlinesOk(b) && ShownOk(b)
    ensures var s' := HandleRequest(s, m, uuid, now);
            TimersOk(s') && DeadlinesOk(s') && ShownOk(s')
            && s'.disposed == s.disposed && s'.refreshes == s.refreshes && s'.generation == s.generation
            && |s'.calls| == |s.calls| + 1 && s'.calls[..|s.calls|] == s.calls
            && var c := s'.calls[|s.calls|];
               c.token == TokenOf(m, uuid) && c.key == KeyOf(m) && CallOk(c)
               && (InFlight(c) <==> RefusalOf(s, m).None?)
               && s'.latest == (if InFlight(c) then s.latest[c.key := c.token] else s.latest - {c.key})
  {
    var token := TokenOf(m, uuid);
    var b, call := Begin(s, m, token, now), Call(m, KeyOf(m), token, [], []);
    BeginFields(s, m, token, now);
    hide TokenOf, Begin, RefusalOf, KeyOf, TimersOk, DeadlinesOk, ShownOk, CallOk, InFlight, InvocationOf;
    var refusal := RefusalOf(b, m);
    if refusal.Some? {
      RefuseFields(b, call, refusal.value, now);
      assert s.latest[KeyOf(m) := token] - {KeyOf(m)} == s.latest - {KeyOf(m)};
      hide Refuse;
    } else {
      AdmitFields(b, call);
    }
  }

  lemma {:induction false} ArrivedCalls(s: State, s': State, token: string)
    requires CallsOk(s) && LatestOk(s) && !s.disposed && s'.disposed == s.disposed
    requires s'.refreshes == s.refreshes && s'.generation == s.generation
    requires |s'.calls| == |s.calls| + 1 && s'.calls[..|s.calls|] == s.calls
    requires var c := s'.calls[|s.calls|];
             c.token == token && CallOk(c)
             && s'.latest == (if InFlight(c) then s.latest[c.key := token] else s.latest - {c.key})
    ensures CallsOk(s') && LatestOk(s')
  {
    var c := s'.calls[|s.calls|];
    assert s'.calls == s.calls + [c];
    hide CallOk;
    forall k | k in s'.latest ensures LatestAt(s', k) {
      NewestAppended(s.calls, c, k);
      if k != c.key {
        assert LatestAt(s, k);
      }
    }
  }

  lemma {:induction false} ReturnKeeps(s: State, op: nat, returned: Option<Result>, thrown: string, now: int)
    requires Inv(s) && op < |s.calls| && InFlight(s.calls[op])
    ensures Inv(Complete(s, op, returned, thrown, now))
  {
    var c, s' := s.calls[op], Complete(s, op, returned, thrown, now);
    var a := if returned.Some? then Native(returned.value) else Caught(Text(thrown), false);
    FinishKeeps(s, c, a, now);
    hide Finish, TimersOk, DeadlinesOk, InvocationOk;
    ReturnedCalls(s, s', op, a);
  }

  lemma {:induction false} ReturnedCalls(s: State, s': State, op: nat, a: Answer)
    requires CallsOk(s) && LatestOk(s) && op < |s.calls| && InFlight(s.calls[op])
    requires s'.disposed == s.disposed && s'.refreshes == s.refreshes && s'.generation == s.generation
    requires a.Caught? ==> !a.retrySafe
    requires var c := s.calls[op];
             s'.calls == s.calls[op := c.(answers := c.answers + [a])]
             && s'.latest == if IsLatest(s, c) then s.latest - {c.key} else s.latest
    ensures CallsOk(s') && LatestOk(s')
  {
    var c := s.calls[op];
    assert CallOk(c);
    assert CallOk(s'.calls[op]) by {
      hide InvocationOk;
      assert s'.calls[op].answers == [a];
    }
    hide CallOk;
    forall k | k in s'.latest ensures LatestAt(s', k) {
      assert LatestAt(s, k);
      NewestSameKeys(s.calls, s'.calls, k);
    }
  }

  // ----- refresh, enable, dispose -----

  lemma {:induction false} ForgetKeeps(s: State)
    requires Inv(s)
    ensures Inv(Forget(s))
  {
    CancelAllTimers(s);
    hide CallOk;
  }

  lemma {:induction false} RefreshKeeps(s: State, generation: nat, found: Capabilities, ready: bool)
    requires Inv(s) && generation in s.refreshes
    ensures Inv(EndRefresh(s, generation, found, ready))
  {
    var s0 := s.(refreshes := s.refreshes - {generation});
    SameShownKeeps(s, s0);
    hide Inv, Replaced, Take;
    if !Superseded(s, generation) && !(s.refreshes[generation] && s.capabilities == Some(found)) {
      TakeKeeps(s0, if s.vm != "" then found.(environment := s.vm) else found, s.refreshes[generation], ready);
    }
  }

  lemma {:induction false} TakeKeeps(s: State, c: Capabilities, background: bool, ready: bool)
    requires Inv(s)
    ensures Inv(Take(s, c, background, ready))
  {
    ForgetKeeps(s);
    hide FoundStatus, Forget, Replaced, Inv;
    SameShownKeeps(if Replaced(s, c) then Forget(s) else s, Take(s, c, background, ready)) by {
      hide *;
      TakeShown(s, c, background, ready);
    }
  }

  lemma {:induction false} TakeShown(s: State, c: Capabilities, background: bool, ready: bool)
    ensures var s', t := if Replaced(s, c) then Forget(s) else s, Take(s, c, background, ready);
            t == s'.(capabilities := t.capabilities, status := t.status, error := t.error)
  {
    hide FoundStatus, Forget, Replaced;
  }

  /** Fields outside the invariant do not matter. */
  lemma {:induction false} SameShownKeeps(s: State, s': State)
    requires Inv(s)
    requires s'.timers == s.timers && s'.armed == s.armed && s'.nextTimer == s.nextTimer && s'.deadlines == s.deadlines
    requires s'.previews == s.previews && s'.active == s.active && s'.logs == s.logs && s'.disposed == s.disposed
    requires s'.calls == s.calls && s'.latest == s.latest
    requires s'.generation >= s.generation && forall g | g in s'.refreshes :: g in s.refreshes || g <= s'.generation
    ensures Inv(s')
  {
    hide CallOk;
    forall k | k in s'.latest ensures LatestAt(s', k) {
      assert LatestAt(s, k);
    }
  }

  lemma {:induction false} SetEnabledKeeps(s: State, enabled: bool, ready: bool)
    requires Inv(s)
    ensures Inv(SetEnabled(s, enabled, ready))
  {
    if enabled {
      hide Inv, Gui, Reason;
      SameShownKeeps(s, SetEnabled(s, enabled, ready));
    } else {
      CancelAllTimers(s);
      hide CallOk;
      var s' := SetEnabled(s, enabled, ready);
      forall k | k in s'.latest ensures LatestAt(s', k) {
        assert LatestAt(s, k);
      }
    }
  }

  lemma {:induction false} DisposeKeeps(s: State)
    requires Inv(s)
    ensures Inv(Dispose(s))
  {
    CancelAllTimers(s);
    hide CallOk;
  }

  lemma {:induction false} NextKeeps(s: State, e: Event)
    requires Inv(s) && Enabled(s, e)
    ensures Inv(Next(s, e))
  {
    hide Inv, HandleRequest, Complete, Release, Fire, Register, SetEnabled, EndRefresh, Dispose;
    match e
    case Arrive(m, uuid, now) => ArriveKeeps(s, m, uuid, now);
    case Return(op, returned, thrown, now) => ReturnKeeps(s, op, returned, thrown, now);
    case Released(session, agent, all, deadline) => ReleaseKeeps(s, session, agent, all, deadline);
    case TimerFires(timer) => FireKeeps(s, timer);
    case Registered(available, raws, now) => RegisterKeeps(s, available, raws, now);
    case Enable(enabled, ready) => SetEnabledKeeps(s, enabled, ready);
    case RefreshEnd(generation, found, ready) => RefreshKeeps(s, generation, found, ready);
    case Disposed => DisposeKeeps(s);
    case RefreshStart(_) | RefreshClick | Report(_, _) => SameShownKeeps(s, Next(s, e));
  }
}
