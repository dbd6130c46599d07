/** The channel object. Each method is one await-free stretch of the source's class and moves
    the state exactly as the model says. */
module Channel {
  import opened Common
  import opened ChannelModel
  import opened ChannelSafety
  import opened ChannelTheorems

  /** What the channel publishes to its listener: one value, replaced as a whole. */
  datatype Shown = Shown(active: bool, mode: Mode, policy: Option<Policy>, status: ChannelStatus, error: Option<Line>,
                         previews: seq<Preview>, logs: seq<Log>)

  class ComputerUseChannel {
    const vm: string
    var enabled: bool
    var disposed: bool
    var shown: Shown
    var capabilities: Option<Capabilities>
    var generation: nat
    var refreshes: map<nat, bool>
    var timers: map<string, nat>
    var deadlines: map<string, int>
    var latest: map<string, string>
    var armed: map<nat, string>
    var nextTimer: nat
    var calls: seq<Call>

    function View(): State
      reads this
    {
      State(vm, enabled, disposed, shown.active, shown.mode, shown.policy, shown.status, shown.error, shown.previews,
            shown.logs, capabilities, generation, refreshes, timers, deadlines, latest, armed, nextTimer, calls)
    }

    /** What holds in every reachable state: the timers are the armed ones, deadlines and timers
        agree, activity means previews, at most 100 log lines, a disabled channel shows nothing,
        and every request was run and answered at most once. */
    ghost predicate Valid()
      reads this
    {
      Inv(View()) && Consistent(View())
    }

    constructor (vm: string, enabled: bool)
      ensures Valid() && View() == Init(vm, enabled)
      ensures !disposed && shown.previews == [] && shown.logs == [] && calls == []
      ensures shown.status == if enabled then Connecting else Disabled
      ensures !shown.active && shown.mode == BackgroundApp && shown.policy == Some(AllowForeground)
    {
      this.vm := vm;
      this.enabled, disposed, capabilities := enabled, false, None;
      shown := Shown(false, BackgroundApp, Some(AllowForeground), if enabled then Connecting else Disabled,
                     None, [], []);
      generation, refreshes, nextTimer := 0, map[], 0;
      timers, deadlines, latest, armed := map[], map[], map[], map[];
      calls := [];
      new;
      InitInv(vm, enabled);
    }

    // ----- release timers -----

    method CancelRelease(key: string)
      modifies this`armed, this`timers, this`deadlines
      ensures View() == ChannelModel.CancelRelease(old(View()), key)
    {
      if key in timers {
        armed := armed - {timers[key]};
      }
      timers := timers - {key};
      deadlines := deadlines - {key};
    }

    method CancelAllReleases()
      modifies this`armed, this`timers, this`deadlines
      ensures View() == CancelAll(old(View()))
    {
      var rest := timers.Keys;
      ghost var before, cleared: set<nat> := armed, {};
      while rest != {}
        invariant rest <= timers.Keys && timers == old(timers) && deadlines == old(deadlines)
        invariant armed == before - cleared
        invariant cleared <= timers.Values
        invariant forall k | k in timers && k !in rest :: timers[k] in cleared
        decreases rest
      {
        var key :| key in rest;
        armed := armed - {timers[key]};
        cleared := cleared + {timers[key]};
        rest := rest - {key};
      }
      assert cleared == timers.Values;
      timers, deadlines := map[], map[];
    }

    method ScheduleRelease(key: string, deadline: int)
      modifies this`armed, this`timers, this`deadlines, this`nextTimer
      ensures View() == Schedule(old(View()), key, deadline)
    {
      if key in timers {
        armed := armed - {timers[key]};
      }
      deadlines := deadlines[key := deadline];
      armed := armed[nextTimer := key];
      timers := timers[key := nextTimer];
      nextTimer := nextTimer + 1;
    }

    /** On a live channel the released preview is gone. */
    method TimerFires(id: nat)
      requires Valid() && id in armed
      modifies this`armed, this`timers, this`deadlines, this`shown
      ensures Valid() && View() == Next(old(View()), Event.TimerFires(id))
      ensures id !in armed
      ensures !disposed ==> shown.previews == Without(old(shown.previews), {old(armed[id])})
    {
      hide Inv, Consistent, Without;
      EventKeeps(View(), Event.TimerFires(id));
      ReleasePreview(id);
    }

    method ReleasePreview(id: nat)
      requires id in armed
      modifies this`armed, this`timers, this`deadlines, this`shown
      ensures View() == Fire(old(View()), id)
    {
      var key := armed[id];
      armed := armed - {id};
      timers := timers - {key};
      if disposed {
        return;
      }
      deadlines := deadlines - {key};
      var previews := Without(shown.previews, {key});
      hide AnyShade, Without, Gui;
      var status := if AnyShade(previews, BusyPreview) then Busy
                    else if AnyShade(previews, FailedPreview) then Failed
                    else if enabled && Gui(View()) then Ready else shown.status;
      shown := shown.(active := previews != [], previews := previews, status := status);
    }

    /** After the native side let go of the session. */
    method ReleaseMessage(session: string, agent: Option<string>, all: bool, deadline: int)
      requires Valid()
      modifies this`armed, this`timers, this`deadlines, this`nextTimer
      ensures Valid() && View() == Next(old(View()), Released(session, agent, all, deadline))
    {
      hide Inv, Consistent;
      EventKeeps(View(), Released(session, agent, all, deadline));
      var keys := [PreviewKey(Some(session), agent)];
      if all {
        keys := [];
        var i := 0;
        var previews := shown.previews;
        while i < |previews|
          invariant i <= |previews| && keys == SessionKeys(previews[..i], session)
        {
          assert previews[..i + 1][..i] == previews[..i];
          if previews[i].session == Some(session) {
            keys := keys + [previews[i].key];
          }
          i := i + 1;
        }
        assert previews[..i] == previews;
      }
      ScheduleAll(keys, deadline);
    }

    method ScheduleAll(keys: seq<string>, deadline: int)
      modifies this`armed, this`timers, this`deadlines, this`nextTimer
      ensures View() == ScheduleEach(old(View()), keys, deadline)
    {
      var i := 0;
      while i < |keys|
        invariant i <= |keys| && View() == ScheduleEach(old(View()), keys[..i], deadline)
      {
        assert keys[..i + 1][..i] == keys[..i];
        if Find(shown.previews, keys[i]).Some? {
          ScheduleRelease(keys[i], deadline);
        }
        i := i + 1;
      }
      assert keys[..i] == keys;
    }

    // ----- restored previews -----

    static method CollectRestored(raws: seq<Raw>, now: int) returns (restored: seq<Preview>, entries: seq<(string,
        int)>)
      ensures restored == Restored(raws, now) && entries == RestoredDeadlines(raws, now)
    {
      restored, entries := [], [];
      var i := 0;
      while i < |raws|
        invariant i <= |raws|
        invariant restored == Restored(raws[..i], now) && entries == RestoredDeadlines(raws[..i], now)
      {
        assert raws[..i + 1][..i] == raws[..i];
        var p := FromRaw(raws[i], now);
        if p.Some? {
          restored := restored + [p.value];
          if raws[i].deadline.Some? {
            entries := Insert(entries, p.value.key, raws[i].deadline.value);
          }
        }
        i := i + 1;
      }
      assert raws[..i] == raws;
    }

    method RestorePreviews(raws: seq<Raw>, now: int)
      modifies this`shown, this`armed, this`timers, this`deadlines, this`nextTimer
      ensures View() == ChannelModel.RestorePreviews(old(View()), raws, now)
    {
      if !enabled {
        return;
      }
      var restored, entries := CollectRestored(raws, now);
      if restored == [] {
        return;
      }
      AdoptRestored(restored);
      hide Adopt, Restored, RestoredDeadlines;
      ScheduleListed(entries);
    }

    method AdoptRestored(restored: seq<Preview>)
      requires restored != []
      modifies this`shown
      ensures View() == Adopt(old(View()), restored)
    {
      hide AnyShade, Without, Freshest;
      var previews := Without(shown.previews, KeysOf(restored)) + restored;
      var freshest := Freshest(previews);
      var status := if AnyShade(previews, BusyPreview) then Busy
                    else if AnyShade(previews, FailedPreview) then Failed else shown.status;
      shown := shown.(active := true, mode := freshest.mode, policy := freshest.policy, previews := previews,
                      status := status);
    }

    method ScheduleListed(entries: seq<(string, int)>)
      modifies this`armed, this`timers, this`deadlines, this`nextTimer
      ensures View() == ScheduleEntries(old(View()), entries)
    {
      var i := 0;
      while i < |entries|
        invariant i <= |entries| && View() == ScheduleEntries(old(View()), entries[..i])
      {
        assert entries[..i + 1][..i] == entries[..i];
        ScheduleRelease(entries[i].0, entries[i].1);
        i := i + 1;
      }
      assert entries[..i] == entries;
    }

    /** With unique keys in what the gateway remembers, the previews keep unique keys, and only
        then. */
    method Registered(available: bool, raws: Option<seq<Raw>>, now: int)
      requires Valid() && !disposed
      modifies this`shown, this`armed, this`timers, this`deadlines, this`nextTimer
      ensures Valid() && View() == Next(old(View()), Event.Registered(available, raws, now))
      ensures enabled && raws.Some? && UniqueKeys(old(shown.previews)) ==>
                (UniqueKeys(shown.previews) <==> UniqueKeys(Restored(raws.value, now)))
    {
      hide Inv, Consistent, UniqueKeys;
      EventKeeps(View(), Event.Registered(available, raws, now));
      if enabled && raws.Some? && UniqueKeys(shown.previews) {
        RestoringUnique(View(), available, raws.value, now);
      }
      TakeRegistration(available, raws, now);
    }

    method TakeRegistration(available: bool, raws: Option<seq<Raw>>, now: int)
      modifies this`shown, this`armed, this`timers, this`deadlines, this`nextTimer
      ensures View() == Register(old(View()), available, raws, now)
    {
      hide AnyShade, ChannelModel.RestorePreviews, Reason;
      var status := if !enabled then Disabled else if AnyShade(shown.previews, BusyPreview) then Busy
                    else if available then Ready else Unavailable;
      shown := shown.(status := status, error := Reason(View()));
      if raws.Some? {
        RestorePreviews(raws.value, now);
      }
    }

    // ----- requests -----

    /** A request arrives: refused on the spot, or handed to the native side once, as it allows.
        Nothing will release its preview any more. */
    method Arrive(m: Request, uuid: string, now: int)
      requires Valid() && !disposed
      modifies this
      ensures Valid() && View() == Next(old(View()), Event.Arrive(m, uuid, now))
      ensures KeyOf(m) !in deadlines && forall t | t in armed :: armed[t] != KeyOf(m)
    {
      hide Inv, Consistent, HandleRequest;
      EventKeeps(View(), Event.Arrive(m, uuid, now));
      ArrivalStopsRelease(View(), m, uuid, now);
      TakeRequest(m, uuid, now);
    }

    method TakeRequest(m: Request, uuid: string, now: int)
      modifies this
      ensures View() == HandleRequest(old(View()), m, uuid, now)
    {
      var token := TokenOf(m, uuid);
      var call := Call(m, KeyOf(m), token, [], []);
      BeginRequest(m, token, now);
      hide Begin, RefusalOf;
      var refusal := RefusalOf(View(), m);
      if refusal.Some? {
        var answer := Caught(Refused(refusal.value), true);
        hide Finish;
        FinishRequest(call, answer, now);
        calls := calls + [call.(answers := [answer])];
      } else {
        calls := calls + [call.(invocations := [InvocationOf(View(), m)])];
      }
    }

    method BeginRequest(m: Request, token: string, now: int)
      modifies this`shown, this`armed, this`timers, this`deadlines, this`latest
      ensures View() == Begin(old(View()), m, token, now)
    {
      hide BusyFor, KeyOf, ModeOf, DeliveryOf, Without, LastLogs;
      var busy := BusyFor(View(), m, now);
      latest := latest[KeyOf(m) := token];
      CancelRelease(KeyOf(m));
      shown := Shown(true, ModeOf(m), Some(DeliveryOf(m)), Busy, None,
                     Without(shown.previews, {KeyOf(m)}) + [busy],
                     LastLogs(shown.logs + [Log(token, now, m.name, Text("Executing…"), true)]));
    }

    /** The native call returned or threw: one answer, and a request that is not the latest on
        its key leaves every preview alone. */
    method Return(op: nat, returned: Option<Result>, thrown: string, now: int)
      requires Valid() && op < |calls| && InFlight(calls[op])
      modifies this
      ensures Valid() && View() == Next(old(View()), Event.Return(op, returned, thrown, now))
      ensures !IsLatest(old(View()), old(calls[op])) ==> latest == old(latest) && shown.previews == old(shown.previews)
    {
      hide Inv, Consistent, Complete, IsLatest;
      ghost var s := View();
      EventKeeps(s, Event.Return(op, returned, thrown, now));
      NextStep(s, Event.Return(op, returned, thrown, now));
      LateReturn(s, op, now, Complete(s, op, returned, thrown, now));
      TakeAnswer(op, returned, thrown, now);
    }

    static lemma {:induction false} LateReturn(s: State, op: nat, now: int, s': State)
      requires op < |s.calls| && ShowsReturn(s, op, now, s') && Consistent(s)
      ensures !IsLatest(s, s.calls[op]) ==> s'.latest == s.latest && s'.previews == s.previews
    {
      ReturnOfOther(s, op, now, s');
      hide IsLatest, ShowsReturn;
    }

    method TakeAnswer(op: nat, returned: Option<Result>, thrown: string, now: int)
      requires op < |calls| && InFlight(calls[op])
      modifies this
      ensures View() == Complete(old(View()), op, returned, thrown, now)
    {
      var call := calls[op];
      var answer := if returned.Some? then Native(returned.value) else Caught(Text(thrown), false);
      FinishRequest(call, answer, now);
      hide Finish;
      calls := calls[op := call.(answers := call.answers + [answer])];
    }

    method FinishRequest(call: Call, answer: Answer, now: int)
      modifies this`shown, this`armed, this`timers, this`deadlines, this`nextTimer, this`latest
      ensures View() == Finish(old(View()), call, answer, now)
    {
      var previews, failed := CompletePreview(call, answer, now);
      PublishFinished(call, answer, now, previews, failed);
      hide FinishShown, FinishedPreviews, IsLatest, Find, Succeeded;
      if call.key in deadlines && call.key !in timers {
        ScheduleRelease(call.key, deadlines[call.key]);
      }
      if !enabled {
        CancelAllReleases();
      }
    }

    method PublishFinished(call: Call, answer: Answer, now: int, previews: seq<Preview>, failed: bool)
      requires previews == FinishedPreviews(View(), call, answer, now)
      requires failed == (IsLatest(View(), call) && Find(shown.previews, call.key).Some? && !Succeeded(answer))
      modifies this`shown, this`latest
      ensures View() == FinishShown(old(View()), call, answer, now)
    {
      hide Succeeded, FinishedError, LogsWithout, LastLogs, Find, IsLatest, FinishedPreviews, FinishedStatus, Entry;
      var isCurrent := IsLatest(View(), call);
      shown := shown.(active := previews != [], status := FinishedStatus(View(), previews, failed),
                      error := FinishedError(View(), answer, failed), previews := previews,
                      logs := LastLogs(LogsWithout(shown.logs, call.token) + [Entry(call, answer, now)]));
      latest := if isCurrent then latest - {call.key} else latest;
    }

    /** The previews after the request; only the latest one on its key may replace a preview. */
    method CompletePreview(call: Call, answer: Answer, now: int) returns (previews: seq<Preview>, failed: bool)
      ensures previews == FinishedPreviews(View(), call, answer, now)
      ensures failed == (IsLatest(View(), call) && Find(shown.previews, call.key).Some? && !Succeeded(answer))
    {
      hide Succeeded, CompletedFor, Without, Find, IsLatest;
      var current := Find(shown.previews, call.key);
      var shouldPublish := IsLatest(View(), call) && current.Some?;
      failed := shouldPublish && !Succeeded(answer);
      if !enabled {
        previews := [];
      } else if shouldPublish {
        previews := Without(shown.previews, {call.key}) + [CompletedFor(current.value, call.request, answer, now)];
      } else {
        previews := shown.previews;
      }
    }

    // ----- capabilities, enable and dispose -----

    method RefreshStart(background: bool)
      modifies this`generation, this`refreshes
      ensures View() == StartRefresh(old(View()), background)
    {
      generation := generation + 1;
      refreshes := refreshes[generation := background];
    }

    /** Only the newest refresh of a live, enabled channel is applied; any other is forgotten
        and changes nothing. */
    method RefreshEnd(started: nat, found: Capabilities, ready: bool) returns (applied: bool)
      requires Valid() && started in refreshes
      modifies this`shown, this`armed, this`timers, this`deadlines, this`latest, this`capabilities, this`refreshes
      ensures Valid() && View() == Next(old(View()), Event.RefreshEnd(started, found, ready))
      ensures applied ==> !Superseded(old(View()), started) && capabilities.Some?
      ensures !applied ==> View() == old(View()).(refreshes := refreshes) && refreshes == old(refreshes) - {started}
    {
      hide Inv, Consistent;
      EventKeeps(View(), Event.RefreshEnd(started, found, ready));
      applied := TakeRefresh(started, found, ready);
    }

    method TakeRefresh(started: nat, found: Capabilities, ready: bool) returns (applied: bool)
      requires started in refreshes
      modifies this`shown, this`armed, this`timers, this`deadlines, this`latest, this`capabilities, this`refreshes
      ensures View() == EndRefresh(old(View()), started, found, ready)
      ensures applied ==> !Superseded(old(View()), started) && capabilities.Some?
      ensures !applied ==> View() == old(View()).(refreshes := refreshes) && refreshes == old(refreshes) - {started}
    {
      var background := refreshes[started];
      refreshes := refreshes - {started};
      if disposed || !enabled || started != generation {
        return false;
      }
      if background && capabilities == Some(found) {
        return false;
      }
      hide Take;
      TakeCapabilities(if vm != "" then found.(environment := vm) else found, background, ready);
      applied := true;
    }

    method TakeCapabilities(c: Capabilities, background: bool, ready: bool)
      modifies this`shown, this`armed, this`timers, this`deadlines, this`latest, this`capabilities
      ensures View() == Take(old(View()), c, background, ready) && capabilities == Some(c)
    {
      hide FoundStatus, Forget, Replaced;
      ForgetReplaced(c);
      shown := shown.(status := FoundStatus(View(), c, background, ready),
                      error := if c.reason.Some? then Some(Text(c.reason.value)) else None);
      capabilities := Some(c);
    }

    /** Nothing shown or pending outlives the native component it came from. */
    method ForgetReplaced(c: Capabilities)
      modifies this`shown, this`armed, this`timers, this`deadlines, this`latest
      ensures View() == if Replaced(old(View()), c) then Forget(old(View())) else old(View())
    {
      if Replaced(View(), c) {
        CancelAllReleases();
        latest := map[];
        shown := shown.(active := false, previews := []);
      }
    }

    /** Switching off clears the previews and every pending release. */
    method Enable(enable: bool, ready: bool)
      requires Valid()
      modifies this`enabled, this`shown, this`armed, this`timers, this`deadlines, this`generation, this`refreshes
      ensures Valid() && View() == Next(old(View()), Event.Enable(enable, ready))
      ensures enabled == enable && (!enable ==> shown.previews == [] && timers == map[] && armed == map[])
    {
      hide Inv, Gui, Reason;
      EventKeeps(View(), Event.Enable(enable, ready));
      SetSwitch(enable, ready);
    }

    method SetSwitch(enable: bool, ready: bool)
      modifies this`enabled, this`shown, this`armed, this`timers, this`deadlines, this`generation, this`refreshes
      ensures View() == SetEnabled(old(View()), enable, ready)
    {
      hide Gui, Reason, CancelAll;
      if !enable {
        SwitchOff();
      } else if !enabled {
        enabled := true;
        shown := shown.(status := Connecting, error := None);
        RefreshStart(false);
      } else {
        shown := shown.(status := if Gui(View()) then (if ready then Ready else Connecting) else Unavailable,
                        error := Reason(View()));
      }
    }

    method SwitchOff()
      modifies this`enabled, this`shown, this`armed, this`timers, this`deadlines
      ensures forall ready :: View() == SetEnabled(old(View()), false, ready)
    {
      hide CancelAll;
      enabled := false;
      shown := shown.(status := Disabled, error := None, active := false, previews := []);
      CancelAllReleases();
    }

    method Refresh()
      requires Valid() && enabled && !disposed
      modifies this`shown, this`generation, this`refreshes
      ensures Valid() && View() == Next(old(View()), RefreshClick)
      ensures shown.status == Connecting && shown.error == None && shown.previews == old(shown).previews
      ensures generation == old(generation) + 1 && refreshes == old(refreshes)[generation := false]
    {
      hide Inv, Consistent;
      EventKeeps(View(), RefreshClick);
      shown := shown.(status := Connecting, error := None);
      RefreshStart(false);
    }

    /** No platform timer outlives the channel. */
    method DisposeChannel()
      requires Valid()
      modifies this`disposed, this`armed, this`timers, this`deadlines, this`latest
      ensures Valid() && View() == Next(old(View()), Disposed)
      ensures disposed && armed == map[] && timers == map[] && latest == map[]
    {
      DisposedIsSilent(View());
      hide Inv, Consistent, Dispose;
      EventKeeps(View(), Disposed);
      DropAll();
    }

    static lemma {:induction false} DisposedIsSilent(s: State)
      requires Inv(s)
      ensures var s' := Dispose(s); s'.disposed && s'.armed == map[] && s'.timers == map[] && s'.latest == map[]
    {
      CancelAllTimers(s);
    }

    method DropAll()
      modifies this`disposed, this`armed, this`timers, this`deadlines, this`latest
      ensures View() == Dispose(old(View()))
    {
      disposed := true;
      CancelAllReleases();
      latest := map[];
    }
  }
}
