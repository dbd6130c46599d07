/** What a request leaves to be seen on the channel, told from the request, the result of the
    native side and what was shown before. */
module ChannelOutcome {
  import opened Common
  import opened ChannelModel
  import opened ChannelSafety
  import opened ChannelTheorems

  // ----- a list without some keys -----

  ghost predicate InOrder<T>(r: seq<T>, x: T, y: T) {
    exists a, b :: 0 <= a < b < |r| && r[a] == x && r[b] == y
  }

  lemma {:induction false} InOrderMore<T>(r: seq<T>, last: T, x: T, y: T)
    ensures InOrder(r, x, y) ==> InOrder(r + [last], x, y)
    ensures x in r ==> InOrder(r + [last], x, last)
  {
    if InOrder(r, x, y) {
      var a, b :| 0 <= a < b < |r| && r[a] == x && r[b] == y;
      assert (r + [last])[a] == x && (r + [last])[b] == y;
    }
    if x in r {
      var a :| 0 <= a < |r| && r[a] == x;
      assert (r + [last])[a] == x && (r + [last])[|r|] == last;
    }
  }

  /** What is kept stays in its order. */
  lemma {:induction false} KeptInOrder(previews: seq<Preview>, keys: set<string>, i: nat, j: nat)
    requires i < j < |previews| && previews[i].key !in keys && previews[j].key !in keys
    ensures InOrder(Without(previews, keys), previews[i], previews[j])
  {
    var n := |previews| - 1;
    var init, r := previews[..n], Without(previews[..n], keys);
    assert Without(previews, keys) == if previews[n].key in keys then r else r + [previews[n]];
    assert init[i] == previews[i];
    hide InOrder;
    if j < n {
      KeptInOrder(init, keys, i, j);
    } else {
      assert init[i] in r;
    }
    hide Without;
    InOrderMore(r, previews[n], previews[i], previews[j]);
  }

  /** The first preview with this key. */
  ghost predicate FirstWith(previews: seq<Preview>, k: nat, key: string) {
    k < |previews| && previews[k].key == key && forall i | 0 <= i < k :: previews[i].key != key
  }

  lemma {:induction false} FindsFirst(previews: seq<Preview>, k: nat, key: string)
    requires FirstWith(previews, k, key)
    ensures Find(previews, key) == Some(previews[k])
  {
    if k > 0 {
      FindsFirst(previews[1..], k - 1, key);
    }
  }

  /** One preview is replaced and moves to the end; the others stay as they are and in order. */
  ghost predicate Replaces(before: seq<Preview>, after: seq<Preview>, key: string, p: Preview) {
    && after != [] && after[|after| - 1] == p
    && (forall q :: q in after[..|after| - 1] <==> q in before && q.key != key)
    && (forall i, j | 0 <= i < j < |before| && before[i].key != key && before[j].key != key ::
          InOrder(after, before[i], before[j]))
  }

  lemma {:induction false} WithoutReplaces(before: seq<Preview>, key: string, p: Preview)
    ensures Replaces(before, Without(before, {key}) + [p], key, p)
  {
    var kept := Without(before, {key});
    var after := kept + [p];
    assert after[..|kept|] == kept;
    forall q ensures q in kept <==> q in before && q.key != key {
    }
    forall i, j | 0 <= i < j < |before| && before[i].key != key && before[j].key != key
      ensures InOrder(after, before[i], before[j])
    {
      KeptInOrder(before, {key}, i, j);
      InOrderMore(kept, p, before[i], before[j]);
    }
    hide Without, InOrder;
  }

  // ----- the log -----

  lemma {:induction false} OtherLogs(logs: seq<Log>, id: string, x: Log)
    ensures x in LogsWithout(logs, id) <==> x in logs && x.id != id
  {
    if logs != [] {
      OtherLogs(logs[1..], id, x);
      assert logs == [logs[0]] + logs[1..];
      hide LogsWithout;
    }
  }

  /** The entry is the newest and the only one under its id; at most 100 are kept, the newest. */
  ghost predicate Logs(before: seq<Log>, after: seq<Log>, entry: Log) {
    && after != [] && after[|after| - 1] == entry && |after| <= 100
    && (forall x | x in after[..|after| - 1] :: x in before && x.id != entry.id)
    && (|before| < 100 ==> forall x | x in before && x.id != entry.id :: x in after)
  }

  lemma {:induction false} LoggedAnew(before: seq<Log>, entry: Log)
    ensures Logs(before, LastLogs(LogsWithout(before, entry.id) + [entry]), entry)
  {
    var kept := LogsWithout(before, entry.id);
    var after := LastLogs(kept + [entry]);
    forall x ensures x in kept <==> x in before && x.id != entry.id {
      OtherLogs(before, entry.id, x);
    }
    hide LogsWithout;
    if |kept| + 1 <= 100 {
      assert after[..|after| - 1] == kept;
    } else {
      assert after[..|after| - 1] == kept[|kept| - 99..];
    }
  }

  // ----- a request that returns -----

  /** The native side threw, or its result says so. */
  predicate Fails(returned: Option<Result>) {
    returned.None? || returned.value.ok == Some(false)
  }

  function FirstOf<T>(a: Option<T>, b: Option<T>): Option<T> {
    match a
    case Some(_) => a
    case None => b
  }

  /** A call that is still the one recorded for its key returns. */
  predicate NewestReturns(s: State, e: Event) {
    e.Return? && e.op < |s.calls| && s.calls[e.op].key in s.latest && s.latest[s.calls[e.op].key] == s.calls[e.op].token
  }

  lemma {:induction false} FinishFields(s: State, c: Call, a: Answer, now: int)
    ensures Finish(s, c, a, now).previews == FinishShown(s, c, a, now).previews
    ensures Finish(s, c, a, now).logs == FinishShown(s, c, a, now).logs
    ensures Finish(s, c, a, now).status == FinishShown(s, c, a, now).status
    ensures Finish(s, c, a, now).error == FinishShown(s, c, a, now).error
    ensures Finish(s, c, a, now).calls == s.calls
  {
    hide FinishedPreviews, FinishedStatus, FinishedError, LogsWithout, Entry;
    var shown := FinishShown(s, c, a, now);
    if c.key in shown.deadlines && c.key !in shown.timers {
      if s.enabled {} else {}
    } else {
      if s.enabled {} else {}
    }
  }

  /** A desktop request drives the whole screen, any other one window. */
  function ShownMode(m: Request): Mode {
    if m.scope == Some(Desktop) || (m.scope.None? && m.mode == Some(ForegroundDesktop)) then ForegroundDesktop
    else BackgroundApp
  }

  function ShownPolicy(m: Request): Policy {
    if m.policy == Some(StrictBackground) then StrictBackground else AllowForeground
  }

  function FirstText(a: string, b: string, c: string): string {
    if a != "" then a else if b != "" then b else c
  }

  /** The preview of a request that returned: failed or ready, and with the newest picture there is. */
  ghost predicate Completed(p: Preview, before: Preview, m: Request, returned: Option<Result>, thrown: string,
                            now: int) {
    && p.key == before.key && p.session == m.session && p.agent == m.agent
    && p.mode == ShownMode(m) && p.policy == Some(ShownPolicy(m)) && p.updatedAt == now
    && p.shade == (if Fails(returned) then FailedPreview else ReadyPreview)
    && match returned
       case Some(r) =>
         && p.action == FirstText(r.action, m.name, "") && p.summary == Text(FirstText(r.summary, r.error, m.name))
         && p.frame == FirstOf(FirstOf(r.screenshot, r.monitor), before.frame)
         && p.frameAt == (if r.screenshot.Some? || r.monitor.Some? then Some(now) else before.frameAt)
         && p.cursor == FirstOf(r.cursor, before.cursor)
         && Observed(p, before, r)
       case None =>
         && p.action == m.name && p.summary == Text(FirstText(thrown, m.name, ""))
         && p.frame == before.frame && p.frameAt == before.frameAt && p.cursor == before.cursor
         && p.kind == before.kind && p.axCount == before.axCount

  }

  /** What was observed last: a result without screenshot and tree leaves it as it was. */
  predicate Observed(p: Preview, before: Preview, r: Result) {
    match (r.ax, r.screenshot)
    case (None, None) => p.kind == FirstOf(r.kind, before.kind) && p.axCount == before.axCount
    case (None, Some(_)) => p.kind == FirstOf(r.kind, Some(ScreenshotKind)) && p.axCount == None
    case (Some(ax), None) => p.kind == FirstOf(r.kind, Some(AxKind)) && p.axCount == FirstOf(ax.count, ax.elements)
    case (Some(ax), Some(_)) =>
      p.kind == FirstOf(r.kind, Some(AxAndScreenshot)) && p.axCount == FirstOf(ax.count, ax.elements)
  }

  function AnswerOf(returned: Option<Result>, thrown: string): Answer {
    match returned
    case Some(r) => Native(r)
    case None => Caught(Text(thrown), false)
  }

  lemma {:induction false} NativeObserved(p: Preview, m: Request, r: Result, now: int)
    ensures Observed(CompletedFor(p, m, Native(r), now), p, r)
  {
    match (r.ax, r.screenshot)
    case (None, None) =>
    case (None, Some(_)) =>
    case (Some(ax), None) =>
    case (Some(ax), Some(_)) =>
  }

  lemma {:induction false} CompletedIs(p: Preview, m: Request, returned: Option<Result>, thrown: string, now: int)
    ensures Completed(CompletedFor(p, m, AnswerOf(returned, thrown), now), p, m, returned, thrown, now)
  {
    match returned
    case Some(r) => NativeObserved(p, m, r, now); hide Observed; if r.screenshot.Some? {} else if r.monitor.Some? {}
        else {}
    case None =>
  }

  /** The newest request on a key returns on a channel that is switched on and still shows the key:
      its preview is failed exactly if the native side threw or its result says so, and ready
      otherwise; it carries the new picture, or else the one shown before. Nothing else changes. */
  lemma {:induction false} ReturnIsShown(vm: string, enabled: bool, events: seq<Event>, states: seq<State>, n: nat,
                                         k: nat)
    requires Execution(vm, enabled, events, states) && n < |events| && NewestReturns(states[n], events[n])
    requires states[n].enabled && FirstWith(states[n].previews, k, states[n].calls[events[n].op].key)
    ensures var s, c, after := states[n], states[n].calls[events[n].op], states[n + 1].previews;
            && after != []
            && Completed(after[|after| - 1], s.previews[k], c.request, events[n].returned, events[n].thrown,
                         events[n].now)
            && Replaces(s.previews, after, c.key, after[|after| - 1])
  {
    var s, e := states[n], events[n];
    assert Linked(events, states, n);
    var c, a := s.calls[e.op], AnswerOf(e.returned, e.thrown);
    FindsFirst(s.previews, k, c.key);
    CompletedIs(s.previews[k], c.request, e.returned, e.thrown, e.now);
    WithoutReplaces(s.previews, c.key, CompletedFor(s.previews[k], c.request, a, e.now));
    CompletePreviews(s, e.op, e.returned, e.thrown, e.now);
    hide Completed, Replaces, CompletedFor, Complete, Without, Find;
    assert states[n + 1].previews == Without(s.previews, {c.key}) + [CompletedFor(s.previews[k], c.request, a, e.now)];
  }

  lemma {:induction false} CompletePreviews(s: State, op: nat, returned: Option<Result>, thrown: string, now: int)
    requires op < |s.calls|
    ensures Complete(s, op, returned, thrown, now).previews
            == FinishedPreviews(s, s.calls[op], AnswerOf(returned, thrown), now)
    ensures Complete(s, op, returned, thrown, now).logs
            == LastLogs(LogsWithout(s.logs, s.calls[op].token) + [Entry(s.calls[op], AnswerOf(returned, thrown), now)])
  {
    FinishFields(s, s.calls[op], AnswerOf(returned, thrown), now);
    hide FinishedPreviews, FinishedStatus, FinishedError, LogsWithout, Entry, LastLogs, Finish;
  }

  /** Every request that returns is logged under its id, as failed exactly if it failed. */
  lemma {:induction false} ReturnIsLogged(vm: string, enabled: bool, events: seq<Event>, states: seq<State>, n: nat)
    requires Execution(vm, enabled, events, states) && n < |events| && events[n].Return?
    ensures events[n].op < |states[n].calls| && states[n + 1].logs != []
    ensures var s, c, e := states[n], states[n].calls[events[n].op], events[n];
            var entry := states[n + 1].logs[|states[n + 1].logs| - 1];
            && Logs(s.logs, states[n + 1].logs, entry)
            && entry.id == c.token && entry.time == e.now && entry.ok == !Fails(e.returned)
            && entry.action == (if e.returned.Some? then FirstText(e.returned.value.action, c.request.name, "")
                                else c.request.name)
            && entry.summary == Text(if e.returned.Some?
                                     then FirstText(e.returned.value.summary, e.returned.value.error, c.request.name)
                                     else FirstText(e.thrown, c.request.name, ""))
  {
    var s, e := states[n], events[n];
    assert Linked(events, states, n);
    var c, a := s.calls[e.op], AnswerOf(e.returned, e.thrown);
    CompletePreviews(s, e.op, e.returned, e.thrown, e.now);
    LoggedAnew(s.logs, Entry(c, a, e.now));
    EntrySays(c, e.returned, e.thrown, e.now);
    hide Logs, Entry, Complete, LogsWithout, LastLogs, FinishedPreviews;
    assert Logs(s.logs, states[n + 1].logs, Entry(c, a, e.now));
    LastEntry(s.logs, states[n + 1].logs, Entry(c, a, e.now));
  }

  lemma {:induction false} LastEntry(before: seq<Log>, after: seq<Log>, entry: Log)
    requires Logs(before, after, entry)
    ensures after != [] && after[|after| - 1] == entry
  {
  }

  lemma {:induction false} EntrySays(c: Call, returned: Option<Result>, thrown: string, now: int)
    ensures Entry(c, AnswerOf(returned, thrown), now)
            == Log(c.token, now,
                   if returned.Some? then FirstText(returned.value.action, c.request.name, "") else c.request.name,
                   Text(if returned.Some? then FirstText(returned.value.summary, returned.value.error, c.request.name)
                        else FirstText(thrown, c.request.name, "")), !Fails(returned))
  {
    match returned
    case Some(r) =>
    case None =>
  }

  /** What the channel says of itself after a request returned: busy while any preview is, else the
      failure of the newest request, else whether the host is available. */
  predicate Settled(s: State, failed: bool, failure: Line) {
    && s.status == (if exists i :: 0 <= i < |s.previews| && s.previews[i].shade == BusyPreview then Busy
                    else if failed then Failed
                    else if s.capabilities.Some? && s.capabilities.value.gui then Ready else Unavailable)
    && s.error == (if failed then Some(failure)
                   else match s.capabilities
                        case Some(c) => (match c.reason case Some(reason) => Some(Text(reason)) case None => None)
                        case None => None)
  }

  lemma {:induction false} FinishedIsSettled(s: State, c: Call, a: Answer, now: int, failed: bool)
    requires s.enabled && failed == (IsLatest(s, c) && Find(s.previews, c.key).Some? && !Succeeded(a))
    ensures Settled(FinishShown(s, c, a, now), failed, FailureOf(a))
  {
    var shown := FinishShown(s, c, a, now);
    ShownStatus(s, c, a, now, failed);
    StatusSays(s, shown.previews, failed);
    ErrorSays(s, a, failed);
    hide FinishedStatus, FinishedError, FinishShown, FailureOf, Find, IsLatest, Succeeded;
    if failed {} else {}
  }

  lemma {:induction false} ShownStatus(s: State, c: Call, a: Answer, now: int, failed: bool)
    requires failed == (IsLatest(s, c) && Find(s.previews, c.key).Some? && !Succeeded(a))
    ensures FinishShown(s, c, a, now).status == FinishedStatus(s, FinishShown(s, c, a, now).previews, failed)
    ensures FinishShown(s, c, a, now).error == FinishedError(s, a, failed)
    ensures FinishShown(s, c, a, now).capabilities == s.capabilities
  {
    hide FinishedPreviews, FinishedStatus, FinishedError, LogsWithout, LastLogs, Entry;
  }

  lemma {:induction false} StatusSays(s: State, previews: seq<Preview>, failed: bool)
    requires s.enabled
    ensures FinishedStatus(s, previews, failed)
            == if exists i :: 0 <= i < |previews| && previews[i].shade == BusyPreview then Busy
               else if failed then Failed
               else if s.capabilities.Some? && s.capabilities.value.gui then Ready else Unavailable
  {
  }

  lemma {:induction false} ErrorSays(s: State, a: Answer, failed: bool)
    ensures FinishedError(s, a, failed)
            == if failed then Some(FailureOf(a))
               else match s.capabilities
                    case Some(c) => (match c.reason case Some(reason) => Some(Text(reason)) case None => None)
                    case None => None
  {
    hide FailureOf;
  }

  lemma {:induction false} SameFields(s: State, c: Call, a: Answer, now: int)
    ensures FinishShown(s, c, a, now).capabilities == s.capabilities
    ensures Finish(s, c, a, now).capabilities == s.capabilities
  {
    hide FinishedPreviews, FinishedStatus, FinishedError, LogsWithout, Entry;
    var shown := FinishShown(s, c, a, now);
    if c.key in shown.deadlines && c.key !in shown.timers {
      if s.enabled {} else {}
    } else {
      if s.enabled {} else {}
    }
  }

  /** The status and the error shown after a return on a channel that is switched on: a failure is
      shown only if it is that of the newest request on a key still shown. */
  lemma {:induction false} ReturnSettles(vm: string, enabled: bool, events: seq<Event>, states: seq<State>, n: nat)
    requires Execution(vm, enabled, events, states) && n < |events| && events[n].Return? && states[n].enabled
    ensures var s, e := states[n], events[n];
            e.op < |s.calls|
            && Settled(states[n + 1],
                       NewestReturns(s, e) && Fails(e.returned)
                       && (exists k :: 0 <= k < |s.previews| && s.previews[k].key == s.calls[e.op].key),
                       Text(FirstText(if e.returned.Some? then e.returned.value.error else e.thrown,
                                      "Computer Use action failed", "")))
  {
    var s, e := states[n], events[n];
    assert Linked(events, states, n);
    var c, a := s.calls[e.op], AnswerOf(e.returned, e.thrown);
    var failed := IsLatest(s, c) && Find(s.previews, c.key).Some? && !Succeeded(a);
    FinishedIsSettled(s, c, a, e.now, failed);
    FinishFields(s, c, a, e.now);
    SameFields(s, c, a, e.now);
    FailureSays(e.returned, e.thrown);
    FoundIff(s.previews, c.key);
    assert failed <==> NewestReturns(s, e) && Fails(e.returned)
                       && exists k :: 0 <= k < |s.previews| && s.previews[k].key == c.key;
    hide FinishShown, Finish, FailureOf, Find, Fails, NewestReturns, Linked;
    SettledAlike(FinishShown(s, c, a, e.now), states[n + 1], failed, FailureOf(a));
  }

  lemma {:induction false} SettledAlike(s: State, s': State, failed: bool, failure: Line)
    requires s'.status == s.status && s'.error == s.error && s'.previews == s.previews
             && s'.capabilities == s.capabilities
    ensures Settled(s, failed, failure) ==> Settled(s', failed, failure)
  {
  }

  lemma {:induction false} FailureSays(returned: Option<Result>, thrown: string)
    ensures FailureOf(AnswerOf(returned, thrown))
            == Text(FirstText(if returned.Some? then returned.value.error
                              else thrown, "Computer Use action failed", ""))
    ensures Succeeded(AnswerOf(returned, thrown)) <==> !Fails(returned)
  {
    match returned
    case Some(r) =>
    case None =>
  }

  lemma {:induction false} FoundIff(previews: seq<Preview>, key: string)
    ensures Find(previews, key).Some? <==> exists k :: 0 <= k < |previews| && previews[k].key == key
  {
  }

  /** The answer of a request is what the native side returned, or the error it threw, which is never
      called safe to retry. */
  lemma {:induction false} ReturnIsAnswered(vm: string, enabled: bool, events: seq<Event>, states: seq<State>, n: nat)
    requires Execution(vm, enabled, events, states) && n < |events| && events[n].Return?
    ensures var s, e := states[n], events[n];
            e.op < |s.calls|
            && states[n + 1].calls == s.calls[e.op := s.calls[e.op].(answers := [
                 if e.returned.Some? then Native(e.returned.value) else Caught(Text(e.thrown), false)])]
  {
    var s, e := states[n], events[n];
    assert Linked(events, states, n);
    FinishFields(s, s.calls[e.op], AnswerOf(e.returned, e.thrown), e.now);
    hide Finish;
    assert [] + [AnswerOf(e.returned, e.thrown)] == [AnswerOf(e.returned, e.thrown)];
  }

  // ----- a request that arrives -----

  predicate OnDesktop(m: Request) {
    m.scope == Some(Desktop) || (m.scope.None? && m.mode == Some(ForegroundDesktop))
  }

  predicate Looks(name: string) {
    name == "observe" || name == "list_windows" || name == "list_displays" || name == "wait"
  }

  predicate NeedsTree(m: Request) {
    m.name == "press" || m.name == "set_value" || m.name == "perform_action" || m.axKeys
  }

  /** What a refusal says, and that it is so. */
  predicate Applies(why: Refusal, s: State, m: Request) {
    match why
    case NotAvailable => !s.enabled || s.capabilities.None? || !s.capabilities.value.gui
    case BadScope => m.scope.Some? && m.scope.value != AppWindow && m.scope.value != Desktop
    case BadPolicy => m.policy.Some? && m.policy.value != StrictBackground && m.policy.value != AllowForeground
    case StrictDesktop => OnDesktop(m) && m.policy == Some(StrictBackground)
    case ModeConflict => m.mode.Some? && m.mode.value != (if OnDesktop(m) then ForegroundDesktop else BackgroundApp)
    case OldHost => !Looks(m.name) && s.capabilities.Some? && s.capabilities.value.policyVersion != 1
    case NoAx =>
      NeedsTree(m) && s.capabilities.Some?
      && (s.vm != "" || OnDesktop(m) || s.capabilities.value.axProtocol != 1 || !s.capabilities.value.axAvailable)
    case VmChanged =>
      s.vm != "" && s.capabilities.Some?
      && (m.environment != s.vm || s.capabilities.value.instance == "" || m.instance != s.capabilities.value.instance)
    case VmOnHost => s.vm == "" && m.environment != ""
    case NoSession =>
      s.vm == "" && s.capabilities.Some? && s.capabilities.value.axProtocol == 1
      && (m.session.None? || m.session.value == "")
  }

  lemma {:induction false} RefusalApplies(s: State, m: Request)
    ensures RefusalOf(s, m).Some? ==> Applies(RefusalOf(s, m).value, s, m)
  {
    if !s.enabled || !Gui(s) {} else if RefusalOf(s, m).Some? {
      match RefusalOf(s, m).value
      case NotAvailable =>
      case BadScope =>
      case BadPolicy =>
      case StrictDesktop =>
      case ModeConflict =>
      case OldHost =>
      case NoAx =>
      case VmChanged =>
      case VmOnHost =>
      case NoSession =>
    }
  }

  /** A refusal that applies keeps the request out, whichever of them is given as the reason. */
  lemma {:induction false} AnyRefuses(s: State, m: Request, why: Refusal)
    requires Applies(why, s, m)
    ensures RefusalOf(s, m).Some?
  {
    match why
    case NotAvailable =>
    case BadScope =>
    case BadPolicy =>
    case StrictDesktop =>
    case ModeConflict =>
    case OldHost =>
    case NoAx =>
    case VmChanged =>
    case VmOnHost =>
    case NoSession =>
  }

  /** The handler's record of a request: what it asks of the native side, or why it was refused. */
  ghost predicate Recorded(c: Call, s: State, m: Request, uuid: string) {
    && c.request == m && c.key == PreviewKey(m.session, m.agent)
       && c.token == (if m.requestId == "" then uuid else m.requestId)
    && if exists why :: Applies(why, s, m) then
         c.invocations == [] && exists why :: Applies(why, s, m) && c.answers == [Caught(Refused(why), true)]
       else
         && c.answers == [] && s.capabilities.Some?
         && c.invocations == [Invocation(s.vm != "", if OnDesktop(m) then Desktop else AppWindow,
                                         if OnDesktop(m) then ForegroundDesktop else BackgroundApp,
                                         if m.policy.Some? then m.policy.value else AllowForeground,
                                         s.capabilities.value.instance, m.session)]
  }

  lemma {:induction false} InvocationSays(s: State, m: Request)
    requires RefusalOf(s, m).None?
    ensures s.capabilities.Some?
    ensures InvocationOf(s, m)
            == Invocation(s.vm != "", if OnDesktop(m) then Desktop else AppWindow,
                          if OnDesktop(m) then ForegroundDesktop else BackgroundApp,
                          if m.policy.Some? then m.policy.value else AllowForeground,
                          s.capabilities.value.instance, m.session)
  {
    match m.scope
    case Some(scope) =>
    case None => if m.mode == Some(ForegroundDesktop) {} else {}
  }

  lemma {:induction false} NewRecord(s: State, m: Request, uuid: string, now: int)
    ensures var calls := HandleRequest(s, m, uuid, now).calls;
            |calls| == |s.calls| + 1 && calls[..|s.calls|] == s.calls
            && calls[|s.calls|] == Call(m, KeyOf(m), TokenOf(m, uuid),
                                        if RefusalOf(s, m).Some? then [] else [InvocationOf(s, m)],
                                        if RefusalOf(s, m).Some? then [Caught(Refused(RefusalOf(s, m).value), true)]
                                            else [])
  {
    var token := TokenOf(m, uuid);
    var b, call := Begin(s, m, token, now), Call(m, KeyOf(m), TokenOf(m, uuid), [], []);
    BeginFields(s, m, token, now);
    SameInvocation(s, m, token, now);
    hide Begin, RefusalOf, KeyOf, TokenOf, InvocationOf, Finish;
    if RefusalOf(s, m).Some? {
      FinishFields(b, call, Caught(Refused(RefusalOf(s, m).value), true), now);
    } else {
    }
  }

  lemma {:induction false} SameInvocation(s: State, m: Request, token: string, now: int)
    ensures InvocationOf(Begin(s, m, token, now), m) == InvocationOf(s, m)
  {
    hide BusyFor, KeyOf, ModeOf, DeliveryOf, Without, ScopeOf, PolicyOf;
  }

  /** Every request that arrives is recorded once; it goes to the native side exactly if no reason to
      refuse it applies, with the scope, mode and policy it names or the defaults, and is answered at
      once, as safe to retry, otherwise. */
  lemma {:induction false} ArrivalIsRecorded(vm: string, enabled: bool, events: seq<Event>, states: seq<State>, n: nat)
    requires Execution(vm, enabled, events, states) && n < |events| && events[n].Arrive?
    ensures var s, calls := states[n], states[n + 1].calls;
            |calls| == |s.calls| + 1 && calls[..|s.calls|] == s.calls
            && Recorded(calls[|s.calls|], s, events[n].request, events[n].uuid)
  {
    assert Linked(events, states, n);
    var s, m := states[n], events[n].request;
    NewRecord(s, m, events[n].uuid, events[n].now);
    RefusalApplies(s, m);
    forall why | Applies(why, s, m) ensures RefusalOf(s, m).Some? {
      AnyRefuses(s, m, why);
    }
    if RefusalOf(s, m).None? {
      InvocationSays(s, m);
    }
    hide HandleRequest, RefusalOf, Applies, InvocationOf, PreviewKey, OnDesktop;
  }

  /** What a request that arrives shows: busy if it was admitted, failed if it was refused, with the
      picture that was there before. */
  ghost predicate Begun(p: Preview, before: Option<Preview>, m: Request, now: int, why: Option<Refusal>) {
    && p.key == PreviewKey(m.session, m.agent) && p.session == m.session && p.agent == m.agent
    && p.mode == ShownMode(m) && p.policy == Some(ShownPolicy(m)) && p.action == m.name && p.updatedAt == now
    && p.shade == (if why.None? then BusyPreview else FailedPreview)
    && p.summary == (if why.None? then Text("Executing…") else Refused(why.value))
    && match before
       case Some(q) =>
         p.frame == q.frame && p.frameAt == q.frameAt && p.kind == q.kind && p.axCount == q.axCount
             && p.cursor == q.cursor
       case None =>
         p.frame == None && p.frameAt == None && p.kind == None && p.axCount == None && p.cursor == None
  }

  /** The preview shown for a key, if any. */
  ghost predicate ShownFor(previews: seq<Preview>, key: string, p: Option<Preview>) {
    match p
    case Some(q) => exists k: nat :: FirstWith(previews, k, key) && previews[k] == q
    case None => forall k | 0 <= k < |previews| :: previews[k].key != key
  }

  lemma {:induction false} FindIsShownFor(previews: seq<Preview>, key: string)
    ensures ShownFor(previews, key, Find(previews, key))
  {
    if Find(previews, key).Some? {
      var k := FirstIndex(previews, key);
      FindsFirst(previews, k, key);
    }
  }

  lemma {:induction false} FirstIndex(previews: seq<Preview>, key: string) returns (k: nat)
    requires Find(previews, key).Some?
    ensures FirstWith(previews, k, key)
  {
    if previews[0].key == key {
      k := 0;
    } else {
      var j := FirstIndex(previews[1..], key);
      k := j + 1;
      assert forall i | 0 < i < k :: previews[i] == previews[1..][i - 1];
    }
  }

  lemma {:induction false} BusyIsBegun(s: State, m: Request, now: int)
    ensures Begun(BusyFor(s, m, now), Find(s.previews, KeyOf(m)), m, now, None)
  {
    hide Find, PreviewKey;
    match m.scope
    case Some(scope) => if Find(s.previews, KeyOf(m)).Some? {} else {}
    case None => if Find(s.previews, KeyOf(m)).Some? {} else {}
  }

  lemma {:induction false} RefusedIsBegun(busy: Preview, before: Option<Preview>, m: Request, now: int, why: Refusal)
    requires Begun(busy, before, m, now, None)
    ensures Begun(CompletedFor(busy, m, Caught(Refused(why), true), now), before, m, now, Some(why))
  {
    hide PreviewKey;
    match m.scope
    case Some(scope) =>
    case None =>
  }

  lemma {:induction false} BeginShows(s: State, m: Request, token: string, now: int)
    ensures Begin(s, m, token, now).previews == Without(s.previews, {KeyOf(m)}) + [BusyFor(s, m, now)]
    ensures Begin(s, m, token, now).logs == LastLogs(s.logs + [Log(token, now, m.name, Text("Executing…"), true)])
    ensures Begin(s, m, token, now).enabled == s.enabled && Begin(s, m, token, now).capabilities == s.capabilities
    ensures Begin(s, m, token, now).status == Busy && Begin(s, m, token, now).error == None
    ensures Begin(s, m, token, now).mode == ShownMode(m) && Begin(s, m, token, now).policy == Some(ShownPolicy(m))
    ensures IsLatest(Begin(s, m, token, now), Call(m, KeyOf(m), token, [], []))
  {
    hide BusyFor, KeyOf, Without, LastLogs;
    match m.scope
    case Some(scope) =>
    case None =>
  }

  lemma {:induction false} LastIsFound(previews: seq<Preview>, p: Preview)
    requires forall i | 0 <= i < |previews| :: previews[i].key != p.key
    ensures Find(previews + [p], p.key) == Some(p)
    ensures Without(previews + [p], {p.key}) == previews
  {
    assert FirstWith(previews + [p], |previews|, p.key);
    FindsFirst(previews + [p], |previews|, p.key);
    assert (previews + [p])[..|previews|] == previews;
    WithoutNone(previews, {p.key});
  }

  lemma {:induction false} RefusalShows(b: State, others: seq<Preview>, busy: Preview, call: Call, why: Refusal,
                                        now: int)
    requires b.enabled && IsLatest(b, call) && b.previews == others + [busy] && busy.key == call.key
    requires forall i | 0 <= i < |others| :: others[i].key != busy.key
    ensures Refuse(b, call, why, now).previews
            == others + [CompletedFor(busy, call.request, Caught(Refused(why), true), now)]
    ensures Refuse(b, call, why, now).logs
            == LastLogs(LogsWithout(b.logs, call.token) + [Entry(call, Caught(Refused(why), true), now)])
    ensures Settled(Refuse(b, call, why, now), true, Refused(why))
  {
    var a := Caught(Refused(why), true);
    LastIsFound(others, busy);
    FinishFields(b, call, a, now);
    SameFields(b, call, a, now);
    FinishedIsSettled(b, call, a, now, true);
    hide Finish, FinishedStatus, FinishedError, LogsWithout, Entry, LastLogs, CompletedFor, Find, Without, IsLatest,
         Settled;
    SettledAlike(FinishShown(b, call, a, now), Refuse(b, call, why, now), true, Refused(why));
  }

  /** The last preview is that of the request, and the channel speaks of it. */
  ghost predicate ArrivalShown(s: State, s': State, m: Request, now: int, before: Option<Preview>,
                               why: Option<Refusal>) {
    && ShownFor(s.previews, PreviewKey(m.session, m.agent), before)
    && (if why.Some? then Applies(why.value, s, m) else forall w :: !Applies(w, s, m))
    && s'.previews != []
    && Replaces(s.previews, s'.previews, PreviewKey(m.session, m.agent), s'.previews[|s'.previews| - 1])
    && Begun(s'.previews[|s'.previews| - 1], before, m, now, why)
    && (if why.Some? then Settled(s', true, Refused(why.value))
        else s'.status == Busy && s'.error == None && s'.mode == ShownMode(m) && s'.policy == Some(ShownPolicy(m)))
  }

  /** On a channel that is switched on every request shows at once, in place of what was shown for its
      session and agent: busy if it goes to the native side, failed if it was refused. */
  lemma {:induction false} ArrivalIsShown(vm: string, enabled: bool, events: seq<Event>, states: seq<State>, n: nat)
    requires Execution(vm, enabled, events, states) && n < |events| && events[n].Arrive? && states[n].enabled
    ensures var s, s', m, now := states[n], states[n + 1], events[n].request, events[n].now;
            exists before: Option<Preview>, why: Option<Refusal> :: ArrivalShown(s, s', m, now, before, why)
  {
    assert Linked(events, states, n);
    var s, m, uuid, now := states[n], events[n].request, events[n].uuid, events[n].now;
    hide ArrivalShown, HandleRequest, RefusalOf, Applies;
    var why := RefusalOf(s, m);
    if why.Some? {
      RefusedArrival(s, m, uuid, now, why.value);
    } else {
      AdmittedArrival(s, m, uuid, now);
    }
    assert ArrivalShown(s, states[n + 1], m, now, Find(s.previews, KeyOf(m)), why);
  }

  lemma {:induction false} AdmittedArrival(s: State, m: Request, uuid: string, now: int)
    requires RefusalOf(s, m).None?
    ensures ArrivalShown(s, HandleRequest(s, m, uuid, now), m, now, Find(s.previews, KeyOf(m)), None)
  {
    var token := TokenOf(m, uuid);
    BeginFields(s, m, token, now);
    BeginShows(s, m, token, now);
    BusyIsBegun(s, m, now);
    FindIsShownFor(s.previews, KeyOf(m));
    WithoutReplaces(s.previews, KeyOf(m), BusyFor(s, m, now));
    forall w ensures !Applies(w, s, m) {
      if Applies(w, s, m) {
        AnyRefuses(s, m, w);
      }
    }
    hide Begin, BusyFor, InvocationOf, Replaces, Begun, ShownFor, Find, Without, RefusalOf, Applies, TokenOf,
         PreviewKey;
  }

  lemma {:induction false} RefusedArrival(s: State, m: Request, uuid: string, now: int, why: Refusal)
    requires RefusalOf(s, m) == Some(why) && s.enabled
    ensures ArrivalShown(s, HandleRequest(s, m, uuid, now), m, now, Find(s.previews, KeyOf(m)), Some(why))
  {
    var token, key := TokenOf(m, uuid), KeyOf(m);
    var b, call, busy, others := Begin(s, m, token, now), Call(m, key, token, [], []), BusyFor(s, m, now),
                                 Without(s.previews, {key});
    BeginFields(s, m, token, now);
    BeginShows(s, m, token, now);
    BusyIsBegun(s, m, now);
    FindIsShownFor(s.previews, key);
    RefusalApplies(s, m);
    assert busy.key == key;
    RefusedIsBegun(busy, Find(s.previews, key), m, now, why);
    RefusalShows(b, others, busy, call, why, now);
    WithoutReplaces(s.previews, key, CompletedFor(busy, m, Caught(Refused(why), true), now));
    hide Refuse, Begin, BusyFor, CompletedFor, Replaces, Begun, ShownFor, Find, Without, RefusalOf, Applies, Settled,
         TokenOf, PreviewKey;
  }

  /** And it is logged: as going on while it does, as failed if it was refused. */
  lemma {:induction false} ArrivalIsLogged(vm: string, enabled: bool, events: seq<Event>, states: seq<State>, n: nat)
    requires Execution(vm, enabled, events, states) && n < |events| && events[n].Arrive? && states[n + 1].logs != []
    ensures var s, m, logs := states[n], events[n].request, states[n + 1].logs;
            var last := logs[|logs| - 1];
            && last.id == (if m.requestId == "" then events[n].uuid else m.requestId)
            && last.time == events[n].now && last.action == m.name
            && (last.ok <==> forall w :: !Applies(w, s, m))
            && (last.ok ==> last.summary == Text("Executing…"))
            && (!last.ok ==> exists w :: Applies(w, s, m) && last.summary == Refused(w))
            && (|s.logs| < 99 ==> forall x | x in s.logs && (last.ok || x.id != last.id) :: x in logs)
            && |logs| <= 100 && forall x | x in logs[..|logs| - 1] :: x in s.logs
  {
    assert Linked(events, states, n);
    var s, m, uuid, now := states[n], events[n].request, events[n].uuid, events[n].now;
    hide HandleRequest, RefusalOf, Applies;
    if RefusalOf(s, m).Some? {
      RefusedLog(s, m, uuid, now, RefusalOf(s, m).value);
      RefusalApplies(s, m);
    } else {
      AdmittedLog(s, m, uuid, now);
      forall w ensures !Applies(w, s, m) {
        if Applies(w, s, m) {
          AnyRefuses(s, m, w);
        }
      }
    }
  }

  lemma {:induction false} AdmittedLog(s: State, m: Request, uuid: string, now: int)
    requires RefusalOf(s, m).None?
    ensures var logs := HandleRequest(s, m, uuid, now).logs;
            logs != [] && logs[|logs| - 1] == Log(TokenOf(m, uuid), now, m.name, Text("Executing…"), true)
            && |logs| <= 100 && (forall x | x in logs[..|logs| - 1] :: x in s.logs)
            && (|s.logs| < 99 ==> forall x | x in s.logs :: x in logs)
  {
    BeginFields(s, m, TokenOf(m, uuid), now);
    BeginShows(s, m, TokenOf(m, uuid), now);
    hide Begin, RefusalOf, InvocationOf, TokenOf;
    LoggedLast(s.logs, Log(TokenOf(m, uuid), now, m.name, Text("Executing…"), true));
  }

  lemma {:induction false} LoggedLast(logs: seq<Log>, entry: Log)
    ensures var after := LastLogs(logs + [entry]);
            after != [] && after[|after| - 1] == entry && |after| <= 100
                && (forall x | x in after[..|after| - 1] :: x in logs)
            && (|logs| < 100 ==> after == logs + [entry])
  {
    var after := LastLogs(logs + [entry]);
    if |logs| < 100 {
      assert after[..|after| - 1] == logs;
    } else {
      assert after[..|after| - 1] == logs[|logs| - 99..];
    }
  }

  lemma {:induction false} RefusedLog(s: State, m: Request, uuid: string, now: int, why: Refusal)
    requires RefusalOf(s, m) == Some(why)
    ensures var logs := HandleRequest(s, m, uuid, now).logs;
            logs != [] && logs[|logs| - 1] == Log(TokenOf(m, uuid), now, m.name, Refused(why), false)
            && |logs| <= 100 && (forall x | x in logs[..|logs| - 1] :: x in s.logs)
            && (|s.logs| < 99 ==> forall x | x in s.logs && x.id != TokenOf(m, uuid) :: x in logs)
  {
    var token := TokenOf(m, uuid);
    var b, call, a := Begin(s, m, token, now), Call(m, KeyOf(m), token, [], []), Caught(Refused(why), true);
    BeginFields(s, m, token, now);
    BeginShows(s, m, token, now);
    FinishFields(b, call, a, now);
    var first := Log(token, now, m.name, Text("Executing…"), true);
    var entry := Log(token, now, m.name, Refused(why), false);
    assert Entry(call, a, now) == entry;
    hide Begin, RefusalOf, TokenOf, KeyOf, Entry, Finish;
    LoggedAnew(b.logs, entry);
    LoggedLast(s.logs, first);
    hide FinishedPreviews, FinishedStatus, FinishedError;
    LoggedTwice(s.logs, b.logs, HandleRequest(s, m, uuid, now).logs, first, entry);
  }

  lemma {:induction false} LoggedTwice(logs: seq<Log>, middle: seq<Log>, after: seq<Log>, first: Log, entry: Log)
    requires Logs(middle, after, entry) && first.id == entry.id && middle != [] && middle[|middle| - 1] == first
    requires forall x | x in middle[..|middle| - 1] :: x in logs
    requires |logs| < 100 ==> middle == logs + [first]
    ensures after != [] && after[|after| - 1] == entry && |after| <= 100
    ensures forall x | x in after[..|after| - 1] :: x in logs
    ensures |logs| < 99 ==> forall x | x in logs && x.id != entry.id :: x in after
  {
    forall x | x in after[..|after| - 1] ensures x in logs {
      assert x in middle && x.id != first.id;
      assert x in middle[..|middle| - 1] by {
        assert middle == middle[..|middle| - 1] + [first];
      }
    }
  }
}
