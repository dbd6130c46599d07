/** The Computer Use channel: its state and what each await-free stretch of its handlers does.
    A request that is refused finishes in the stretch that received it; an admitted one is
    handed to the native side and finishes in a later stretch, after anything else. */
module ChannelModel {
  import opened Common

  datatype Scope = AppWindow | Desktop | OtherScope(name: string)
  datatype Mode = BackgroundApp | ForegroundDesktop | OtherMode(name: string)
  datatype Policy = StrictBackground | AllowForeground | OtherPolicy(name: string)
  datatype Kind = AxKind | ScreenshotKind | AxAndScreenshot | OtherKind(name: string)
  datatype Shade = BusyPreview | ReadyPreview | FailedPreview
  datatype ChannelStatus = Connecting | Disabled | Busy | Ready | Failed | Unavailable

  /** What the native component reports; "" stands for a missing instance or environment. */
  datatype Capabilities = Capabilities(gui: bool, instance: string, axProtocol: int, axAvailable: bool,
                                       policyVersion: int, reason: Option<string>, environment: string, rest: string)

  datatype Refusal = NotAvailable | BadScope | BadPolicy | StrictDesktop | ModeConflict | OldHost | NoAx
                   | VmChanged | VmOnHost | NoSession

  datatype Line = Text(text: string) | Refused(why: Refusal)

  datatype Preview = Preview(key: string, session: Option<string>, agent: Option<string>, mode: Mode,
                             policy: Option<Policy>, shade: Shade, action: string, summary: Line,
                             frame: Option<string>, frameAt: Option<int>, kind: Option<Kind>, axCount: Option<nat>,
                             cursor: Option<string>, updatedAt: int)

  datatype Log = Log(id: string, time: int, action: string, summary: Line, ok: bool)

  /** A `computer_use_request`; "" stands for a missing request, environment or instance id. */
  datatype Request = Request(requestId: string, name: string, axKeys: bool, scope: Option<Scope>, mode: Option<Mode>,
                             policy: Option<Policy>, session: Option<string>, agent: Option<string>,
                             environment: string, instance: string)

  datatype Ax = Ax(count: Option<nat>, elements: Option<nat>)
  datatype Result = Result(ok: Option<bool>, action: string, summary: string, error: string,
                           screenshot: Option<string>, monitor: Option<string>, ax: Option<Ax>,
                           kind: Option<Kind>, cursor: Option<string>)

  /** What is sent back: the native result, or the error the handler caught. */
  datatype Answer = Native(result: Result) | Caught(error: Line, retrySafe: bool)

  datatype Invocation = Invocation(onVm: bool, scope: Scope, mode: Mode, policy: Policy, instance: string,
                                   session: Option<string>)

  /** One run of the request handler: its locals, what it asked the native side to do, and
      what it sent back. */
  datatype Call = Call(request: Request, key: string, token: string, invocations: seq<Invocation>, answers: seq<Answer>)

  /** A preview the gateway remembers. */
  datatype Raw = NotAnObject
               | Raw(session: Option<string>, agent: Option<string>, busy: bool, failed: bool, foreground: bool,
                     policy: Option<Policy>, deadline: Option<int>, action: string, summary: string,
                     frame: Option<string>, frameAt: Option<int>, kind: Option<Kind>, axCount: Option<nat>,
                     cursor: Option<string>, updatedAt: Option<int>)

  datatype State = State(vm: string, enabled: bool, disposed: bool, active: bool, mode: Mode, policy: Option<Policy>,
                         status: ChannelStatus, error: Option<Line>, previews: seq<Preview>, logs: seq<Log>,
                         capabilities: Option<Capabilities>, generation: nat, refreshes: map<nat, bool>,
                         timers: map<string, nat>, deadlines: map<string, int>, latest: map<string, string>,
                         armed: map<nat, string>, nextTimer: nat, calls: seq<Call>)

  const LOG_LIMIT := 100

  function Init(vm: string, enabled: bool): State {
    State(vm, enabled, false, false, BackgroundApp, Some(AllowForeground), if enabled then Connecting else Disabled,
          None, [], [], None, 0, map[], map[], map[], map[], map[], 0, [])
  }

  // ----- previews and logs -----

  function PreviewKey(session: Option<string>, agent: Option<string>): string {
    "session:" + (if session.None? || session.value == "" then "unknown" else session.value)
    + ":agent:" + (if agent.None? || agent.value == "" then "main" else agent.value)
  }

  function Without(previews: seq<Preview>, keys: set<string>): (r: seq<Preview>)
    ensures forall i | 0 <= i < |r| :: r[i] in previews && r[i].key !in keys
    ensures forall i | 0 <= i < |previews| && previews[i].key !in keys :: previews[i] in r
  {
    if previews == [] then []
    else
      var init, last := previews[..|previews| - 1], previews[|previews| - 1];
      if last.key in keys then Without(init, keys) else Without(init, keys) + [last]
  }

  function Find(previews: seq<Preview>, key: string): (r: Option<Preview>)
    ensures r.Some? ==> r.value in previews && r.value.key == key
    ensures r.None? ==> forall i | 0 <= i < |previews| :: previews[i].key != key
  {
    if previews == [] then None
    else if previews[0].key == key then Some(previews[0])
    else Find(previews[1..], key)
  }

  function KeysOf(previews: seq<Preview>): set<string> {
    set p | p in previews :: p.key
  }

  predicate AnyShade(previews: seq<Preview>, shade: Shade) {
    exists i | 0 <= i < |previews| :: previews[i].shade == shade
  }

  function LastLogs(logs: seq<Log>): seq<Log> {
    if |logs| <= LOG_LIMIT then logs else logs[|logs| - LOG_LIMIT..]
  }

  function LogsWithout(logs: seq<Log>, id: string): (r: seq<Log>)
    ensures |r| <= |logs|
  {
    if logs == [] then []
    else if logs[0].id == id then LogsWithout(logs[1..], id)
    else [logs[0]] + LogsWithout(logs[1..], id)
  }

  /** The first preview with the greatest update time. */
  function Freshest(previews: seq<Preview>): Preview
    requires previews != []
  {
    if |previews| == 1 then previews[0]
    else
      var a, b := Freshest(previews[..|previews| - 1]), previews[|previews| - 1];
      if b.updatedAt > a.updatedAt then b else a
  }

  // ----- release timers -----

  function CancelRelease(s: State, key: string): State {
    s.(armed := if key in s.timers then s.armed - {s.timers[key]} else s.armed,
       timers := s.timers - {key}, deadlines := s.deadlines - {key})
  }

  function CancelAll(s: State): State {
    s.(armed := s.armed - s.timers.Values, timers := map[], deadlines := map[])
  }

  function Schedule(s: State, key: string, deadline: int): State {
    s.(armed := (if key in s.timers then s.armed - {s.timers[key]} else s.armed)[s.nextTimer := key],
       deadlines := s.deadlines[key := deadline], timers := s.timers[key := s.nextTimer], nextTimer := s.nextTimer + 1)
  }

  /** A release timer runs out. */
  function Fire(s: State, id: nat): State
    requires id in s.armed
  {
    var key := s.armed[id];
    var s' := s.(armed := s.armed - {id}, timers := s.timers - {key});
    if s.disposed then s'
    else
      var previews := Without(s.previews, {key});
      s'.(deadlines := s.deadlines - {key}, previews := previews, active := previews != [],
          status := if AnyShade(previews, BusyPreview) then Busy
                    else if AnyShade(previews, FailedPreview) then Failed
                    else if s.enabled && Gui(s) then Ready else s.status)
  }

  /** The part of a release message after the native side let go: arm a timer for every key
      that has a preview. */
  function ScheduleEach(s: State, keys: seq<string>, deadline: int): State {
    if keys == [] then s
    else
      var s' := ScheduleEach(s, keys[..|keys| - 1], deadline);
      var key := keys[|keys| - 1];
      if Find(s'.previews, key).Some? then Schedule(s', key, deadline) else s'
  }

  function SessionKeys(previews: seq<Preview>, session: string): seq<string> {
    if previews == [] then []
    else
      var rest := SessionKeys(previews[..|previews| - 1], session);
      if previews[|previews| - 1].session == Some(session) then rest + [previews[|previews| - 1].key] else rest
  }

  function Release(s: State, session: string, agent: Option<string>, all: bool, deadline: int): State {
    ScheduleEach(s, if all then SessionKeys(s.previews, session) else [PreviewKey(Some(session), agent)], deadline)
  }

  // ----- restored previews -----

  function FromRaw(raw: Raw, now: int): Option<Preview> {
    if raw.NotAnObject? || raw.session.None? || raw.session.value == "" then None
    else if raw.deadline.Some? && raw.deadline.value <= now then None
    else
      var shade := if raw.busy then BusyPreview else if raw.failed then FailedPreview else ReadyPreview;
      Some(Preview(PreviewKey(raw.session, raw.agent), raw.session, raw.agent,
                   if raw.foreground then ForegroundDesktop else BackgroundApp, raw.policy, shade, raw.action,
                   Text(raw.summary), raw.frame, raw.frameAt, raw.kind, raw.axCount, raw.cursor,
                   if raw.updatedAt.Some? then raw.updatedAt.value else now))
  }

  function Restored(raws: seq<Raw>, now: int): seq<Preview> {
    if raws == [] then []
    else
      var rest := Restored(raws[..|raws| - 1], now);
      match FromRaw(raws[|raws| - 1], now)
      case None => rest
      case Some(p) => rest + [p]
  }

  /** An insertion-ordered map: a key that is already there keeps its place. */
  function Insert(entries: seq<(string, int)>, key: string, value: int): seq<(string, int)> {
    if entries == [] then [(key, value)]
    else if entries[0].0 == key then [(key, value)] + entries[1..]
    else [entries[0]] + Insert(entries[1..], key, value)
  }

  function RestoredDeadlines(raws: seq<Raw>, now: int): seq<(string, int)> {
    if raws == [] then []
    else
      var rest, raw := RestoredDeadlines(raws[..|raws| - 1], now), raws[|raws| - 1];
      match FromRaw(raw, now)
      case None => rest
      case Some(p) => if raw.deadline.Some? then Insert(rest, p.key, raw.deadline.value) else rest
  }

  function ScheduleEntries(s: State, entries: seq<(string, int)>): State {
    if entries == [] then s
    else
      var s' := ScheduleEntries(s, entries[..|entries| - 1]);
      Schedule(s', entries[|entries| - 1].0, entries[|entries| - 1].1)
  }

  function Adopt(s: State, restored: seq<Preview>): State
    requires restored != []
  {
    var previews := Without(s.previews, KeysOf(restored)) + restored;
    var freshest := Freshest(previews);
    s.(active := true, mode := freshest.mode, policy := freshest.policy, previews := previews,
       status := if AnyShade(previews, BusyPreview) then Busy
                 else if AnyShade(previews, FailedPreview) then Failed else s.status)
  }

  function RestorePreviews(s: State, raws: seq<Raw>, now: int): State {
    if !s.enabled || Restored(raws, now) == [] then s
    else ScheduleEntries(Adopt(s, Restored(raws, now)), RestoredDeadlines(raws, now))
  }

  /** The gateway accepted the registration, or acknowledged a state report. */
  function Register(s: State, available: bool, raws: Option<seq<Raw>>, now: int): State {
    var s' := s.(status := if !s.enabled then Disabled else if AnyShade(s.previews, BusyPreview) then Busy
                           else if available then Ready else Unavailable,
                 error := Reason(s));
    if raws.Some? then RestorePreviews(s', raws.value, now) else s'
  }

  // ----- requests -----

  predicate Gui(s: State) {
    s.capabilities.Some? && s.capabilities.value.gui
  }

  function Reason(s: State): Option<Line> {
    if s.capabilities.Some? && s.capabilities.value.reason.Some? then Some(Text(s.capabilities.value.reason.value))
    else None
  }

  function ScopeOf(m: Request): Scope {
    if m.scope.Some? then m.scope.value else if m.mode == Some(ForegroundDesktop) then Desktop else AppWindow
  }

  function ModeOf(m: Request): Mode {
    if ScopeOf(m) == Desktop then ForegroundDesktop else BackgroundApp
  }

  function PolicyOf(m: Request): Policy {
    if m.policy.Some? then m.policy.value else AllowForeground
  }

  function DeliveryOf(m: Request): Policy {
    if PolicyOf(m) == StrictBackground then StrictBackground else AllowForeground
  }

  predicate ReadsOnly(name: string) {
    name == "observe" || name == "list_windows" || name == "list_displays" || name == "wait"
  }

  predicate NamesAx(name: string) {
    name == "press" || name == "set_value" || name == "perform_action"
  }

  predicate UsesAx(m: Request) {
    NamesAx(m.name) || m.axKeys
  }

  /** The checks before the native call, in order. */
  function RefusalOf(s: State, m: Request): Option<Refusal> {
    if !s.enabled || !Gui(s) then Some(NotAvailable)
    else
      var c, scope, policy := s.capabilities.value, ScopeOf(m), PolicyOf(m);
      if scope != AppWindow && scope != Desktop then Some(BadScope)
      else if policy != StrictBackground && policy != AllowForeground then Some(BadPolicy)
      else if scope == Desktop && policy == StrictBackground then Some(StrictDesktop)
      else if m.mode.Some? && m.mode.value != ModeOf(m) then Some(ModeConflict)
      else if !ReadsOnly(m.name) && c.policyVersion != 1 then Some(OldHost)
      else if UsesAx(m) && (s.vm != "" || scope != AppWindow || c.axProtocol != 1 || !c.axAvailable) then Some(NoAx)
      else if s.vm != "" then
        if m.environment != s.vm || c.instance == "" || m.instance != c.instance then Some(VmChanged) else None
      else if m.environment != "" then Some(VmOnHost)
      else if c.axProtocol == 1 && (m.session.None? || m.session.value == "") then Some(NoSession)
      else None
  }

  function InvocationOf(s: State, m: Request): Invocation {
    Invocation(s.vm != "", ScopeOf(m), ModeOf(m), PolicyOf(m),
               if s.capabilities.Some? then s.capabilities.value.instance else "", m.session)
  }

  function TokenOf(m: Request, uuid: string): string {
    if m.requestId != "" then m.requestId else uuid
  }

  function KeyOf(m: Request): string {
    PreviewKey(m.session, m.agent)
  }

  function BusyFor(s: State, m: Request, now: int): Preview {
    var prev := Find(s.previews, KeyOf(m));
    Preview(KeyOf(m), m.session, m.agent, ModeOf(m), Some(DeliveryOf(m)), BusyPreview, m.name, Text("Executing…"),
            if prev.Some? then prev.value.frame else None, if prev.Some? then prev.value.frameAt else None,
            if prev.Some? then prev.value.kind else None, if prev.Some? then prev.value.axCount else None,
            if prev.Some? then prev.value.cursor else None, now)
  }

  /** A request arrives: it becomes the latest on its key and its preview turns busy. */
  function Begin(s: State, m: Request, token: string, now: int): State {
    var s' := CancelRelease(s, KeyOf(m));
    s'.(latest := s.latest[KeyOf(m) := token], status := Busy, active := true, mode := ModeOf(m),
        policy := Some(DeliveryOf(m)), error := None,
        previews := Without(s.previews, {KeyOf(m)}) + [BusyFor(s, m, now)],
        logs := LastLogs(s.logs + [Log(token, now, m.name, Text("Executing…"), true)]))
  }

  function Refuse(b: State, call: Call, why: Refusal, now: int): State {
    var answer := Caught(Refused(why), true);
    Finish(b, call, answer, now).(calls := b.calls + [call.(answers := [answer])])
  }

  function Admit(b: State, call: Call): State {
    b.(calls := b.calls + [call.(invocations := [InvocationOf(b, call.request)])])
  }

  function HandleRequest(s: State, m: Request, uuid: string, now: int): State {
    var token := TokenOf(m, uuid);
    var b, call := Begin(s, m, token, now), Call(m, KeyOf(m), token, [], []);
    var refusal := RefusalOf(b, m);
    if refusal.Some? then Refuse(b, call, refusal.value, now) else Admit(b, call)
  }

  predicate InFlight(c: Call) {
    c.invocations != [] && c.answers == []
  }

  /** The native call returned or threw. */
  function Complete(s: State, op: nat, returned: Option<Result>, thrown: string, now: int): State
    requires op < |s.calls|
  {
    var answer := if returned.Some? then Native(returned.value) else Caught(Text(thrown), false);
    var called := s.calls[op].(answers := s.calls[op].answers + [answer]);
    Finish(s, s.calls[op], answer, now).(calls := s.calls[op := called])
  }

  predicate Succeeded(a: Answer) {
    a.Native? && a.result.ok != Some(false)
  }

  function Described(a: Answer, name: string): Line {
    match a
    case Native(r) => Text(if r.summary != "" then r.summary else if r.error != "" then r.error else name)
    case Caught(Refused(why), _) => Refused(why)
    case Caught(Text(text), _) => Text(if text != "" then text else name)
  }

  function ActionOf(a: Answer, name: string): string {
    if a.Native? && a.result.action != "" then a.result.action else name
  }

  function FailureOf(a: Answer): Line {
    match a
    case Native(r) => Text(if r.error != "" then r.error else "Computer Use action failed")
    case Caught(Refused(why), _) => Refused(why)
    case Caught(Text(text), _) => Text(if text != "" then text else "Computer Use action failed")
  }

  function OrElse<T>(a: Option<T>, b: Option<T>): Option<T> {
    if a.Some? then a else b
  }

  /** The preview a finished request leaves; an observation without a new screenshot or tree
      keeps what was shown before. */
  function CompletedFor(current: Preview, m: Request, a: Answer, now: int): Preview {
    var base := current.(session := m.session, agent := m.agent, mode := ModeOf(m), policy := Some(DeliveryOf(m)),
                         shade := if Succeeded(a) then ReadyPreview else FailedPreview,
                         action := ActionOf(a, m.name), summary := Described(a, m.name), updatedAt := now);
    if a.Caught? then base
    else
      var r := a.result;
      var frame := OrElse(r.screenshot, r.monitor);
      var keep := r.ax.None? && r.screenshot.None?;
      base.(frame := OrElse(frame, current.frame), frameAt := if frame.Some? then Some(now) else current.frameAt,
            kind := OrElse(r.kind, if keep then current.kind
                                   else if r.ax.None? then Some(ScreenshotKind)
                                   else if r.screenshot.Some? then Some(AxAndScreenshot) else Some(AxKind)),
            axCount := if r.ax.Some? then OrElse(r.ax.value.count, r.ax.value.elements)
                       else if keep then current.axCount else None,
            cursor := OrElse(r.cursor, current.cursor))
  }

  predicate IsLatest(s: State, c: Call) {
    c.key in s.latest && s.latest[c.key] == c.token
  }

  /** The previews after a request finishes. */
  function FinishedPreviews(s: State, c: Call, a: Answer, now: int): seq<Preview> {
    var current := Find(s.previews, c.key);
    if !s.enabled then []
    else if IsLatest(s, c) && current.Some? then
      Without(s.previews, {c.key}) + [CompletedFor(current.value, c.request, a, now)]
    else s.previews
  }

  function Reschedule(s: State, key: string): State {
    if key in s.deadlines && key !in s.timers then Schedule(s, key, s.deadlines[key]) else s
  }

  function FinishedStatus(s: State, previews: seq<Preview>, failed: bool): ChannelStatus {
    if !s.enabled then Disabled else if AnyShade(previews, BusyPreview) then Busy
    else if failed then Failed else if Gui(s) then Ready else Unavailable
  }

  function FinishedError(s: State, a: Answer, failed: bool): Option<Line> {
    if failed then Some(FailureOf(a)) else Reason(s)
  }

  function Entry(c: Call, a: Answer, now: int): Log {
    Log(c.token, now, ActionOf(a, c.request.name), Described(a, c.request.name), Succeeded(a))
  }

  /** What a finished request publishes. */
  function FinishShown(s: State, c: Call, a: Answer, now: int): State {
    var previews := FinishedPreviews(s, c, a, now);
    var failed := IsLatest(s, c) && Find(s.previews, c.key).Some? && !Succeeded(a);
    s.(latest := if IsLatest(s, c) then s.latest - {c.key} else s.latest,
       previews := previews, active := previews != [],
       status := FinishedStatus(s, previews, failed),
       error := FinishedError(s, a, failed),
       logs := LastLogs(LogsWithout(s.logs, c.token) + [Entry(c, a, now)]))
  }

  function Finish(s: State, c: Call, a: Answer, now: int): State {
    var s' := Reschedule(FinishShown(s, c, a, now), c.key);
    if s.enabled then s' else CancelAll(s')
  }

  // ----- capabilities, enable and dispose -----

  function StartRefresh(s: State, background: bool): State {
    s.(generation := s.generation + 1, refreshes := s.refreshes[s.generation + 1 := background])
  }

  /** The native component was replaced: nothing shown or pending belongs to the new one. */
  function Forget(s: State): State {
    CancelAll(s).(latest := map[], active := false, previews := [])
  }

  predicate Replaced(s: State, c: Capabilities) {
    && s.capabilities.Some? && s.capabilities.value.instance != "" && s.capabilities.value.instance != c.instance
    && (s.vm != "" || c.instance != "")
  }

  predicate Superseded(s: State, generation: nat) {
    s.disposed || !s.enabled || generation != s.generation
  }

  function FoundStatus(s: State, c: Capabilities, background: bool, ready: bool): ChannelStatus {
    if background && AnyShade(s.previews, BusyPreview) then Busy
    else if c.gui then (if ready then Ready else Connecting) else Unavailable
  }

  /** Take over newly found capabilities. */
  function Take(s: State, c: Capabilities, background: bool, ready: bool): State {
    var s' := if Replaced(s, c) then Forget(s) else s;
    s'.(capabilities := Some(c), status := FoundStatus(s', c, background, ready),
        error := if c.reason.Some? then Some(Text(c.reason.value)) else None)
  }

  function EndRefresh(s: State, generation: nat, found: Capabilities, ready: bool): State
    requires generation in s.refreshes
  {
    var background := s.refreshes[generation];
    var s' := s.(refreshes := s.refreshes - {generation});
    if Superseded(s, generation) || (background && s.capabilities == Some(found)) then s'
    else Take(s', if s.vm != "" then found.(environment := s.vm) else found, background, ready)
  }

  function SetEnabled(s: State, enabled: bool, ready: bool): State {
    var s' := s.(enabled := enabled);
    if enabled && !s.enabled then StartRefresh(s'.(status := Connecting, error := None), false)
    else if enabled then
      s'.(status := if Gui(s) then (if ready then Ready else Connecting) else Unavailable, error := Reason(s))
    else CancelAll(s'.(status := Disabled, active := false, previews := [], error := None))
  }

  function Dispose(s: State): State {
    CancelAll(s).(disposed := true, latest := map[])
  }

  // ----- runs -----

  datatype Event =
    | Arrive(request: Request, uuid: string, now: int)
    | Return(op: nat, returned: Option<Result>, thrown: string, now: int)
    | Released(session: string, agent: Option<string>, all: bool, deadline: int)
    | TimerFires(timer: nat)
    | Registered(available: bool, raws: Option<seq<Raw>>, now: int)
    | Enable(enabled: bool, ready: bool)
    | RefreshStart(background: bool)
    | RefreshClick
    | RefreshEnd(generation: nat, found: Capabilities, ready: bool)
    | Report(status: ChannelStatus, error: Option<Line>)
    | Disposed

  /** Messages reach the channel only until it is disposed; what awaited them goes on. */
  predicate Enabled(s: State, e: Event) {
    match e
    case Arrive(_, _, _) => !s.disposed
    case Registered(_, _, _) => !s.disposed
    case Return(op, _, _, _) => op < |s.calls| && InFlight(s.calls[op])
    case TimerFires(timer) => timer in s.armed
    case RefreshEnd(generation, _, _) => generation in s.refreshes
    case RefreshClick => s.enabled && !s.disposed
    case _ => true
  }

  function Next(s: State, e: Event): State
    requires Enabled(s, e)
  {
    match e
    case Arrive(m, uuid, now) => HandleRequest(s, m, uuid, now)
    case Return(op, returned, thrown, now) => Complete(s, op, returned, thrown, now)
    case Released(session, agent, all, deadline) => Release(s, session, agent, all, deadline)
    case TimerFires(timer) => Fire(s, timer)
    case Registered(available, raws, now) => Register(s, available, raws, now)
    case Enable(enabled, ready) => SetEnabled(s, enabled, ready)
    case RefreshStart(background) => StartRefresh(s, background)
    case RefreshClick => StartRefresh(s.(status := Connecting, error := None), false)
    case RefreshEnd(generation, found, ready) => EndRefresh(s, generation, found, ready)
    case Report(status, error) => s.(status := status, error := error)
    case Disposed => Dispose(s)
  }
}
