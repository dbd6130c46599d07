/** Whom a preview belongs to, when it goes, what comes back after a reconnect, and what the channel
    says about the host: told from the events and from what was there before. */
module ChannelShown {
  import opened Common
  import opened ChannelModel
  import opened ChannelSafety
  import opened ChannelTheorems
  import opened ChannelOutcome

  // ----- whom a preview belongs to -----

  function SessionName(session: Option<string>): string {
    match session
    case Some(name) => if name == "" then "unknown" else name
    case None => "unknown"
  }

  function AgentName(agent: Option<string>): string {
    match agent
    case Some(name) => if name == "" then "main" else name
    case None => "main"
  }

  /** The first session name swallows the agent part of the second. */
  ghost predicate Swallows(s1: string, a1: string, s2: string, a2: string) {
    (exists x: string :: s1 == s2 + ":agent:" + x && a2 == x + ":agent:" + a1)
    || (s1 == s2 + ":agent" && a2 == "agent:" + a1)
  }

  lemma {:induction false} JoinedApart(s1: string, a1: string, s2: string, a2: string)
    requires s1 + ":agent:" + a1 == s2 + ":agent:" + a2 && |s1| > |s2|
    ensures Swallows(s1, a1, s2, a2)
  {
    var whole, tag := s1 + ":agent:" + a1, ":agent:";
    var n, d := |s2|, |s1| - |s2|;
    assert s2 == whole[..n] == s1[..n];
    assert whole[n..n + 7] == tag && whole[|s1|..|s1| + 7] == tag;
    assert whole[n + 7..] == a2 && whole[|s1| + 7..] == a1;
    if d >= 7 {
      var x := s1[n + 7..];
      assert s1[n..n + 7] == whole[n..n + 7];
      assert s1 == s2 + tag + x;
      assert a2 == whole[n + 7..] == x + tag + a1;
    } else {
      assert whole[|s1|] == tag[d] && tag[d] == tag[0];
      assert d == 6;
      assert s1 == s2 + ":agent";
      assert a2 == "agent:" + a1;
    }
  }

  lemma {:induction false} SwallowedAlike(s1: string, a1: string, s2: string, a2: string)
    requires Swallows(s1, a1, s2, a2)
    ensures s1 + ":agent:" + a1 == s2 + ":agent:" + a2 && s1 != s2
  {
    if s1 == s2 + ":agent" && a2 == "agent:" + a1 {
      assert ":agent" + ":agent:" == ":agent:" + "agent:";
      assert s1 + ":agent:" + a1 == s2 + (":agent" + ":agent:") + a1;
    } else {
      var x: string :| s1 == s2 + ":agent:" + x && a2 == x + ":agent:" + a1;
      assert |s1| > |s2|;
    }
  }

  lemma {:induction false} KeyReads(session: Option<string>, agent: Option<string>)
    ensures PreviewKey(session, agent) == "session:" + (SessionName(session) + ":agent:" + AgentName(agent))
  {
    assert "session:" + (SessionName(session) + ":agent:" + AgentName(agent))
           == "session:" + SessionName(session) + ":agent:" + AgentName(agent);
  }

  lemma {:induction false} SameRest(a: string, b: string, x: string, y: string)
    requires a + x == b + y && |a| == |b|
    ensures a == b && x == y
  {
    assert a == (a + x)[..|a|] && b == (b + y)[..|b|];
    assert x == (a + x)[|a|..] && y == (b + y)[|b|..];
  }

  /** Two sessions and agents share a preview exactly if they have the same names, a missing session
      being "unknown" and a missing agent "main", or if one session name ends in what looks like an
      agent. Without a colon in the session names that cannot be. */
  lemma {:induction false} PreviewIsSharedIff(session1: Option<string>, agent1: Option<string>,
      session2: Option<string>, agent2: Option<string>)
    ensures var s1, a1, s2, a2 := SessionName(session1), AgentName(agent1), SessionName(session2), AgentName(agent2);
            && (PreviewKey(session1, agent1) == PreviewKey(session2, agent2) <==>
                  (s1 == s2 && a1 == a2) || Swallows(s1, a1, s2, a2) || Swallows(s2, a2, s1, a1))
            && (Swallows(s1, a1, s2, a2) ==> ':' in s1)
  {
    var s1, a1, s2, a2 := SessionName(session1), AgentName(agent1), SessionName(session2), AgentName(agent2);
    KeyReads(session1, agent1);
    KeyReads(session2, agent2);
    hide SessionName, AgentName, PreviewKey;
    NamesShared(s1, a1, s2, a2);
    if Swallows(s1, a1, s2, a2) {
      SwallowsColon(s1, a1, s2, a2);
    }
    if PreviewKey(session1, agent1) == PreviewKey(session2, agent2) {
      SameRest("session:", "session:", s1 + ":agent:" + a1, s2 + ":agent:" + a2);
    }
  }

  lemma {:induction false} SwallowsColon(s1: string, a1: string, s2: string, a2: string)
    requires Swallows(s1, a1, s2, a2)
    ensures ':' in s1
  {
    assert s1[|s2|] == ':';
  }

  lemma {:induction false} NamesShared(s1: string, a1: string, s2: string, a2: string)
    ensures s1 + ":agent:" + a1 == s2 + ":agent:" + a2 <==>
            (s1 == s2 && a1 == a2) || Swallows(s1, a1, s2, a2) || Swallows(s2, a2, s1, a1)
  {
    if s1 + ":agent:" + a1 == s2 + ":agent:" + a2 {
      if |s1| == |s2| {
        SameRest(s1 + ":agent:", s2 + ":agent:", a1, a2);
        SameRest(s1, s2, ":agent:", ":agent:");
      } else if |s1| > |s2| {
        JoinedApart(s1, a1, s2, a2);
      } else {
        JoinedApart(s2, a2, s1, a1);
      }
    }
    if Swallows(s1, a1, s2, a2) {
      SwallowedAlike(s1, a1, s2, a2);
    } else if Swallows(s2, a2, s1, a1) {
      SwallowedAlike(s2, a2, s1, a1);
    }
    hide Swallows;
  }

  /** Two different sessions do share a preview. */
  lemma {:induction false} PreviewIsShared()
    ensures PreviewKey(Some("a:agent:b"), Some("c")) == PreviewKey(Some("a"), Some("b:agent:c"))
  {
    assert "a:agent:b" == "a" + ":agent:" + "b" && "b:agent:c" == "b" + ":agent:" + "c";
    assert Swallows("a:agent:b", "c", "a", "b:agent:c");
    PreviewIsSharedIff(Some("a:agent:b"), Some("c"), Some("a"), Some("b:agent:c"));
    hide Swallows, PreviewKey;
  }

  // ----- releases -----

  /** A release message concerns the previews of one session, or of one of its agents. */
  function Concerned(s: State, session: string, agent: Option<string>, all: bool): set<string> {
    set p | p in s.previews && (if all then p.session == Some(session)
                                else p.key == PreviewKey(Some(session), agent)) ::
      p.key
  }

  /** Which keys have a release pending, and until when. */
  ghost predicate Armed(s: State, s': State, concerned: set<string>, deadline: int) {
    forall key :: if key in concerned then key in s'.deadlines && s'.deadlines[key] == deadline && key in s'.timers
                  else (key in s'.deadlines <==> key in s.deadlines) && (key in s'.timers <==> key in s.timers)
                       && (key in s.deadlines ==> s'.deadlines[key] == s.deadlines[key])
                       && (key in s.timers ==> s'.timers[key] == s.timers[key])
  }

  lemma {:induction false} ArmOne(s: State, s': State, concerned: set<string>, key: string, deadline: int)
    requires Armed(s, s', concerned, deadline)
    ensures Armed(s, Schedule(s', key, deadline), concerned + {key}, deadline)
  {
  }

  /** The keys that have a preview. */
  function ShownAmong(s: State, keys: seq<string>): set<string> {
    set p | p in s.previews && p.key in keys :: p.key
  }

  lemma {:induction false} ShownMore(s: State, init: seq<string>, last: string)
    ensures ShownAmong(s, init + [last])
            == ShownAmong(s, init) + if Find(s.previews, last).Some? then {last} else {}
  {
    FoundIff(s.previews, last);
  }

  lemma {:induction false} ArmEach(s: State, keys: seq<string>, deadline: int)
    ensures Armed(s, ScheduleEach(s, keys, deadline), ShownAmong(s, keys), deadline)
    ensures ScheduleEach(s, keys, deadline).previews == s.previews
  {
    hide Armed, ShownAmong, Find;
    if keys == [] {
      ArmNone(s, deadline);
    } else {
      var init, last := keys[..|keys| - 1], keys[|keys| - 1];
      ArmEach(s, init, deadline);
      assert keys == init + [last];
      ShownMore(s, init, last);
      ArmOne(s, ScheduleEach(s, init, deadline), ShownAmong(s, init), last, deadline);
      if Find(s.previews, last).Some? {} else {
        assert ShownAmong(s, keys) == ShownAmong(s, init);
      }
    }
  }

  lemma {:induction false} ArmNone(s: State, deadline: int)
    ensures Armed(s, s, ShownAmong(s, []), deadline)
  {
    assert ShownAmong(s, []) == {};
  }

  lemma {:induction false} SessionKeysExactly(previews: seq<Preview>, session: string, key: string)
    ensures key in SessionKeys(previews, session)
            <==> exists p :: p in previews && p.key == key && p.session == Some(session)
  {
    if previews != [] {
      var n := |previews| - 1;
      SessionKeysExactly(previews[..n], session, key);
      assert previews == previews[..n] + [previews[n]];
    }
  }

  /** After a release message exactly the previews it concerns, of the whole session or of the one
      agent, have a release pending for its deadline; every other release stays as it was. */
  lemma {:induction false} ReleaseIsPending(vm: string, enabled: bool, events: seq<Event>, states: seq<State>, n: nat)
    requires Execution(vm, enabled, events, states) && n < |events| && events[n].Released?
    ensures var s, e := states[n], events[n];
            Armed(s, states[n + 1], Concerned(s, e.session, e.agent, e.all), e.deadline)
    ensures states[n + 1].previews == states[n].previews
  {
    assert Linked(events, states, n);
    var s, e := states[n], events[n];
    var keys := if e.all then SessionKeys(s.previews, e.session) else [PreviewKey(Some(e.session), e.agent)];
    ArmEach(s, keys, e.deadline);
    hide Armed, PreviewKey, ScheduleEach;
    var a, b := ShownAmong(s, keys), Concerned(s, e.session, e.agent, e.all);
    forall key ensures key in a <==> key in b {
      if e.all {
        SessionKeysExactly(s.previews, e.session, key);
      }
    }
    assert a == b;
  }

  /** What the channel says of itself when previews went or came by themselves: busy while any is, else
      that one failed, else the given status. */
  ghost predicate Speaks(s: State, otherwise: ChannelStatus) {
    s.status == if exists i :: 0 <= i < |s.previews| && s.previews[i].shade == BusyPreview then Busy
                else if exists i :: 0 <= i < |s.previews| && s.previews[i].shade == FailedPreview then Failed
                else otherwise
  }

  /** Previews of one key are taken away, and nothing else; the rest stays in order. */
  ghost predicate Drops(before: seq<Preview>, after: seq<Preview>, key: string) {
    (forall q :: q in after <==> q in before && q.key != key)
    && (forall i, j | 0 <= i < j < |before| && before[i].key != key && before[j].key != key ::
          InOrder(after, before[i], before[j]))
  }

  lemma {:induction false} WithoutDrops(before: seq<Preview>, key: string)
    ensures Drops(before, Without(before, {key}), key)
  {
    forall q ensures q in Without(before, {key}) <==> q in before && q.key != key {
    }
    forall i, j | 0 <= i < j < |before| && before[i].key != key && before[j].key != key
      ensures InOrder(Without(before, {key}), before[i], before[j])
    {
      KeptInOrder(before, {key}, i, j);
    }
    hide Without, InOrder;
  }

  /** When a release falls due on a live channel the preview of its key goes, and what is left decides
      what the channel says of itself. */
  lemma {:induction false} ReleaseFallsDue(vm: string, enabled: bool, events: seq<Event>, states: seq<State>, n: nat)
    requires Execution(vm, enabled, events, states) && n < |events| && events[n].TimerFires? && !states[n].disposed
    ensures var s, s' := states[n], states[n + 1];
            events[n].timer in s.armed && Drops(s.previews, s'.previews, s.armed[events[n].timer])
            && s.armed[events[n].timer] !in s'.deadlines && s.armed[events[n].timer] !in s'.timers
            && Speaks(s', if s.enabled && s.capabilities.Some? && s.capabilities.value.gui then Ready else s.status)
            && s'.error == s.error
  {
    assert Linked(events, states, n);
    var s := states[n];
    var key := s.armed[events[n].timer];
    WithoutDrops(s.previews, key);
    hide Without, Drops;
    FiredSpeaks(s, events[n].timer);
  }

  lemma {:induction false} FiredSpeaks(s: State, timer: nat)
    requires timer in s.armed && !s.disposed
    ensures Speaks(Fire(s, timer), if s.enabled && s.capabilities.Some? && s.capabilities.value.gui then Ready
                   else s.status)
  {
    hide Without;
    var s' := Fire(s, timer);
    assert AnyShade(s'.previews, BusyPreview)
           <==> exists i :: 0 <= i < |s'.previews| && s'.previews[i].shade == BusyPreview;
    assert AnyShade(s'.previews, FailedPreview)
           <==> exists i :: 0 <= i < |s'.previews| && s'.previews[i].shade == FailedPreview;
    hide AnyShade;
    if s.capabilities.Some? {} else {}
  }

  // ----- what comes back after a reconnect -----

  /** A remembered entry is taken back if it names a session and its release is not overdue. */
  predicate TakenBack(raw: Raw, now: int) {
    raw.Raw? && (match raw.session case Some(name) => name != "" case None => false)
    && (match raw.deadline case Some(deadline) => deadline > now case None => true)
  }

  predicate Remembers(p: Preview, raw: Raw, now: int)
    requires raw.Raw?
  {
    && p.key == PreviewKey(raw.session, raw.agent) && p.session == raw.session && p.agent == raw.agent
    && p.mode == (if raw.foreground then ForegroundDesktop else BackgroundApp) && p.policy == raw.policy
    && p.shade == (if raw.busy then BusyPreview else if raw.failed then FailedPreview else ReadyPreview)
    && p.action == raw.action && p.summary == Text(raw.summary) && p.frame == raw.frame && p.frameAt == raw.frameAt
    && p.kind == raw.kind && p.axCount == raw.axCount && p.cursor == raw.cursor
    && p.updatedAt == (match raw.updatedAt case Some(time) => time case None => now)
  }

  /** How many of the first n entries are taken back. */
  function TakenBefore(raws: seq<Raw>, now: int, n: nat): nat
    requires n <= |raws|
  {
    if n == 0 then 0 else TakenBefore(raws, now, n - 1) + if TakenBack(raws[n - 1], now) then 1 else 0
  }

  lemma {:induction false} FromRawIs(raw: Raw, now: int)
    ensures FromRaw(raw, now).Some? <==> TakenBack(raw, now)
    ensures FromRaw(raw, now).Some? ==> Remembers(FromRaw(raw, now).value, raw, now)
  {
    hide PreviewKey;
    match raw
    case NotAnObject =>
    case Raw(_, _, _, _, _, _, _, _, _, _, _, _, _, _, _) => if raw.session.Some? {} else {}
  }

  lemma {:induction false} SamePrefix(raws: seq<Raw>, now: int, n: nat, m: nat)
    requires n <= m <= |raws|
    ensures TakenBefore(raws[..m], now, n) == TakenBefore(raws, now, n)
  {
    if n > 0 {
      SamePrefix(raws, now, n - 1, m);
    }
  }

  lemma {:induction false} RestoredMore(raws: seq<Raw>, now: int)
    requires raws != []
    ensures var n := |raws| - 1;
            Restored(raws, now)
            == Restored(raws[..n], now) + if TakenBack(raws[n], now) then [FromRaw(raws[n], now).value] else []
    ensures TakenBefore(raws, now, |raws| - 1) == TakenBefore(raws[..|raws| - 1], now, |raws| - 1)
  {
    FromRawIs(raws[|raws| - 1], now);
    SamePrefix(raws, now, |raws| - 1, |raws| - 1);
    hide FromRaw, TakenBack, Remembers;
  }

  lemma {:induction false} RestoredCount(raws: seq<Raw>, now: int)
    ensures |Restored(raws, now)| == TakenBefore(raws, now, |raws|)
  {
    if raws != [] {
      RestoredCount(raws[..|raws| - 1], now);
      RestoredMore(raws, now);
      hide Restored, FromRaw, TakenBack;
    }
  }

  /** A remembered entry that is taken back becomes a preview, as it was and at its place. */
  lemma {:induction false} RestoredExactly(raws: seq<Raw>, now: int, i: nat)
    requires i < |raws| && TakenBack(raws[i], now)
    ensures RestoredAt(raws, now, i)
  {
    var n := |raws| - 1;
    RestoredMore(raws, now);
    FromRawIs(raws[n], now);
    hide Restored, FromRaw, TakenBack, Remembers;
    if i < n {
      assert raws[..n][i] == raws[i];
      RestoredExactly(raws[..n], now, i);
      SamePrefix(raws, now, i, n);
    } else {
      RestoredCount(raws[..n], now);
    }
  }

  /** Entry i is shown at its place among those taken back. */
  ghost predicate RestoredAt(raws: seq<Raw>, now: int, i: nat)
    requires i < |raws| && TakenBack(raws[i], now)
  {
    TakenBefore(raws, now, i) < |Restored(raws, now)|
    && Remembers(Restored(raws, now)[TakenBefore(raws, now, i)], raws[i], now)
  }

  /** The release an entry that is taken back brings. */
  function ReleaseOf(raw: Raw, now: int): Option<(string, int)> {
    if TakenBack(raw, now) && raw.deadline.Some? then Some((PreviewKey(raw.session, raw.agent), raw.deadline.value))
        else None
  }

  /** Entry i brings this release, and no later one brings another for its key. */
  ghost predicate BringsLast(raws: seq<Raw>, now: int, i: nat, e: (string, int)) {
    i < |raws| && ReleaseOf(raws[i], now) == Some(e)
    && forall j | i < j < |raws| :: ReleaseOf(raws[j], now).Some? ==> ReleaseOf(raws[j], now).value.0 != e.0
  }

  lemma {:induction false} InsertedExactly(entries: seq<(string, int)>, key: string, value: int, e: (string, int))
    requires forall i, j | 0 <= i < j < |entries| :: entries[i].0 != entries[j].0
    ensures e in Insert(entries, key, value) <==> if e.0 == key then e.1 == value else e in entries
    ensures forall i, j | 0 <= i < j < |Insert(entries, key, value)| ::
              Insert(entries, key, value)[i].0 != Insert(entries, key, value)[j].0
  {
    if entries != [] {
      assert entries == [entries[0]] + entries[1..];
      InsertedExactly(entries[1..], key, value, e);
      InsertedKeys(entries[1..], key, value);
    }
  }

  lemma {:induction false} InsertedKeys(entries: seq<(string, int)>, key: string, value: int)
    ensures forall i | 0 <= i < |Insert(entries, key, value)| ::
              Insert(entries, key, value)[i].0 == key
              || exists j :: 0 <= j < |entries| && entries[j].0 == Insert(entries, key, value)[i].0
  {
    if entries != [] {
      InsertedKeys(entries[1..], key, value);
      var r := Insert(entries, key, value);
      forall i | 0 <= i < |r| ensures r[i].0 == key || exists j :: 0 <= j < |entries| && entries[j].0 == r[i].0 {
        if entries[0].0 == key {
          if i > 0 {
            assert entries[i].0 == r[i].0;
          }
        } else if i == 0 {
          assert entries[0].0 == r[0].0;
        } else {
          assert r[i] == Insert(entries[1..], key, value)[i - 1];
          if r[i].0 != key {
            var j :| 0 <= j < |entries[1..]| && entries[1..][j].0 == r[i].0;
            assert entries[j + 1].0 == r[i].0;
          }
        }
      }
    }
  }

  /** The deadlines to be armed: for each key that of the last entry that gives one. */
  lemma {:induction false} DeadlinesExactly(raws: seq<Raw>, now: int, e: (string, int))
    ensures forall i, j | 0 <= i < j < |RestoredDeadlines(raws, now)| ::
              RestoredDeadlines(raws, now)[i].0 != RestoredDeadlines(raws, now)[j].0
    ensures e in RestoredDeadlines(raws, now) <==> exists i: nat :: BringsLast(raws, now, i, e)
  {
    if raws != [] {
      var n := |raws| - 1;
      DeadlinesExactly(raws[..n], now, e);
      DeadlinesMore(raws, now);
      if ReleaseOf(raws[n], now).Some? {
        var (key, value) := ReleaseOf(raws[n], now).value;
        InsertedExactly(RestoredDeadlines(raws[..n], now), key, value, e);
      }
      hide ReleaseOf, Insert, RestoredDeadlines;
      LastRelease(raws, now, e);
    }
  }

  lemma {:induction false} DeadlinesMore(raws: seq<Raw>, now: int)
    requires raws != []
    ensures RestoredDeadlines(raws, now)
            == match ReleaseOf(raws[|raws| - 1], now)
               case Some(e) => Insert(RestoredDeadlines(raws[..|raws| - 1], now), e.0, e.1)
               case None => RestoredDeadlines(raws[..|raws| - 1], now)
  {
    FromRawIs(raws[|raws| - 1], now);
    hide FromRaw, TakenBack, PreviewKey, Insert;
  }

  lemma {:induction false} LastRelease(raws: seq<Raw>, now: int, e: (string, int))
    requires raws != []
    ensures var n := |raws| - 1;
            (exists i: nat :: BringsLast(raws, now, i, e)) <==>
            match ReleaseOf(raws[n], now)
            case Some(r) => r == e || (r.0 != e.0 && exists i: nat :: BringsLast(raws[..n], now, i, e))
            case None => exists i: nat :: BringsLast(raws[..n], now, i, e)
  {
    var n := |raws| - 1;
    hide ReleaseOf;
    if ReleaseOf(raws[n], now) == Some(e) {
      assert BringsLast(raws, now, n, e);
    } else if ReleaseOf(raws[n], now).Some? && ReleaseOf(raws[n], now).value.0 == e.0 {
    } else {
      forall i: nat ensures BringsLast(raws, now, i, e) <==> BringsLast(raws[..n], now, i, e) {
        assert i < n ==> raws[..n][i] == raws[i];
        assert forall j | i < j < n :: raws[..n][j] == raws[j];
      }
    }
  }

  predicate SameRelease(s: State, s': State, key: string) {
    (key in s'.deadlines <==> key in s.deadlines) && (key in s'.timers <==> key in s.timers)
    && (key in s.deadlines ==> s'.deadlines[key] == s.deadlines[key])
    && (key in s.timers ==> s'.timers[key] == s.timers[key])
  }

  predicate PendingUntil(s: State, key: string, deadline: int) {
    key in s.deadlines && s.deadlines[key] == deadline && key in s.timers
  }

  lemma {:induction false} ScheduledOne(s: State, key: string, deadline: int, other: string)
    ensures PendingUntil(Schedule(s, key, deadline), key, deadline)
    ensures other != key ==> SameRelease(s, Schedule(s, key, deadline), other)
  {
  }

  lemma {:induction false} PendingStays(s: State, s': State, key: string, deadline: int)
    requires SameRelease(s, s', key) && PendingUntil(s, key, deadline)
    ensures PendingUntil(s', key, deadline)
  {
  }

  lemma {:induction false} ScheduledEntries(s: State, entries: seq<(string, int)>)
    requires forall i, j | 0 <= i < j < |entries| :: entries[i].0 != entries[j].0
    ensures forall i | 0 <= i < |entries| :: PendingUntil(ScheduleEntries(s, entries), entries[i].0, entries[i].1)
    ensures forall key | (forall i | 0 <= i < |entries| :: entries[i].0 != key) ::
              SameRelease(s, ScheduleEntries(s, entries), key)
  {
    if entries != [] {
      var n := |entries| - 1;
      var init, last := entries[..n], entries[n];
      var before, after := ScheduleEntries(s, init), ScheduleEntries(s, entries);
      ScheduledEntries(s, init);
      hide PendingUntil, SameRelease;
      forall i | 0 <= i < |entries| ensures PendingUntil(after, entries[i].0, entries[i].1) {
        ScheduledOne(before, last.0, last.1, entries[i].0);
        if i < n {
          assert init[i] == entries[i];
          PendingStays(before, after, entries[i].0, entries[i].1);
        }
      }
      forall key | (forall i | 0 <= i < |entries| :: entries[i].0 != key) ensures SameRelease(s, after, key) {
        assert forall i | 0 <= i < n :: init[i] == entries[i];
        ScheduledOne(before, last.0, last.1, key);
        SameReleaseOn(s, before, after, key);
      }
    }
  }

  lemma {:induction false} SameReleaseOn(a: State, b: State, c: State, key: string)
    requires SameRelease(a, b, key) && SameRelease(b, c, key)
    ensures SameRelease(a, c, key)
  {
  }

  lemma {:induction false} RegisterReleases(s: State, available: bool, raws: seq<Raw>, now: int)
    requires s.enabled && Restored(raws, now) != []
    ensures var s' := Register(s, available, Some(raws), now);
            && (forall e | e in RestoredDeadlines(raws, now) :: PendingUntil(s', e.0, e.1))
            && (forall key | (forall e | e in RestoredDeadlines(raws, now) :: e.0 != key) :: SameRelease(s, s', key))
  {
    var entries := RestoredDeadlines(raws, now);
    DeadlinesExactly(raws, now, ("", 0));
    var s0 := Adopt(Register(s, available, None, now), Restored(raws, now));
    assert s0.timers == s.timers && s0.deadlines == s.deadlines by { hide AnyShade, Freshest, Without, KeysOf, Reason; }
    hide Adopt, AnyShade, Restored, RestoredDeadlines, PendingUntil, Reason;
    ScheduledEntries(s0, entries);
    hide ScheduleEntries;
    var after := ScheduleEntries(s0, entries);
    assert Register(s, available, Some(raws), now) == after;
    hide Register;
    forall key | (forall e | e in entries :: e.0 != key) ensures SameRelease(s, after, key) {
      forall i | 0 <= i < |entries| ensures entries[i].0 != key {
        assert entries[i] in entries;
      }
      assert SameRelease(s0, after, key);
    }
  }

  /** After a registration a release is pending for the deadline of the last entry taken back that
      brought one for its key; every other release stays as it was. */
  lemma {:induction false} DeadlinesComeBack(vm: string, enabled: bool, events: seq<Event>, states: seq<State>, n: nat,
      key: string)
    requires Execution(vm, enabled, events, states) && n < |events| && events[n].Registered? && events[n].raws.Some?
    requires states[n].enabled && TakenBefore(events[n].raws.value, events[n].now, |events[n].raws.value|) > 0
    ensures var raws, now := events[n].raws.value, events[n].now;
            && (forall i: nat, deadline | BringsLast(raws, now, i, (key, deadline)) ::
                  PendingUntil(states[n + 1], key, deadline))
            && ((forall i: nat, deadline :: !BringsLast(raws, now, i, (key, deadline))) ==>
                  SameRelease(states[n], states[n + 1], key))
  {
    assert Linked(events, states, n);
    var raws, now := events[n].raws.value, events[n].now;
    RestoredCount(raws, now);
    RegisterReleases(states[n], events[n].available, raws, now);
    hide Register, RestoredDeadlines, PendingUntil, SameRelease, BringsLast, Restored, TakenBefore, TakenBack;
    forall i: nat, deadline | BringsLast(raws, now, i, (key, deadline))
        ensures PendingUntil(states[n + 1], key, deadline) {
      DeadlinesExactly(raws, now, (key, deadline));
    }
    if forall i: nat, deadline :: !BringsLast(raws, now, i, (key, deadline)) {
      forall e | e in RestoredDeadlines(raws, now) ensures e.0 != key {
        DeadlinesExactly(raws, now, e);
        var i: nat :| BringsLast(raws, now, i, e);
        assert e == (e.0, e.1);
      }
    }
  }

  /** Some remembered entry that is taken back has this key. */
  ghost predicate KeyTaken(raws: seq<Raw>, now: int, key: string) {
    exists i :: 0 <= i < |raws| && TakenBack(raws[i], now) && key == PreviewKey(raws[i].session, raws[i].agent)
  }

  /** The last previews are those of the entries taken back, each as it was and in their order; the
      ones in front of them are those of before that they do not replace. */
  ghost predicate ComesBack(before: seq<Preview>, after: seq<Preview>, raws: seq<Raw>, now: int) {
    var count := TakenBefore(raws, now, |raws|);
    && count <= |after|
    && (forall i | 0 <= i < |raws| && TakenBack(raws[i], now) ::
          TakenBefore(raws, now, i) < count
          && Remembers(after[|after| - count + TakenBefore(raws, now, i)], raws[i], now))
    && (forall q :: q in after[..|after| - count] <==> q in before && !KeyTaken(raws, now, q.key))
  }

  /** On a channel that is switched on the previews the gateway remembers come back. */
  lemma {:induction false} PreviewsComeBack(vm: string, enabled: bool, events: seq<Event>, states: seq<State>, n: nat)
    requires Execution(vm, enabled, events, states) && n < |events| && events[n].Registered? && events[n].raws.Some?
    requires states[n].enabled
    ensures ComesBack(states[n].previews, states[n + 1].previews, events[n].raws.value, events[n].now)
  {
    ExecutionStep(vm, enabled, events, states, n);
    var raws, now := events[n].raws.value, events[n].now;
    hide Next, Inv, Enabled, Moves, Restored, TakenBefore, ComesBack, Execution, Without, KeysOf;
    RestoredComeBack(states[n].previews, states[n + 1].previews, raws, now);
  }

  lemma {:induction false} RestoredComeBack(before: seq<Preview>, after: seq<Preview>, raws: seq<Raw>, now: int)
    requires Restored(raws, now) == [] ==> after == before
    requires Restored(raws, now) != [] ==>
               after == Without(before, KeysOf(Restored(raws, now))) + Restored(raws, now)
    ensures ComesBack(before, after, raws, now)
  {
    hide Restored, Remembers, TakenBack, TakenBefore, KeyTaken, KeysOf, Without;
    RestoredCount(raws, now);
    CutRestored(before, Restored(raws, now), after);
    OthersStay(before, after, raws, now);
    EachRemembered(after, raws, now);
  }

  lemma {:induction false} EachRemembered(after: seq<Preview>, raws: seq<Raw>, now: int)
    requires |Restored(raws, now)| == TakenBefore(raws, now, |raws|) <= |after|
    requires forall j | 0 <= j < |Restored(raws, now)| ::
               after[|after| - |Restored(raws, now)| + j] == Restored(raws, now)[j]
    ensures forall i | 0 <= i < |raws| && TakenBack(raws[i], now) ::
              TakenBefore(raws, now, i) < TakenBefore(raws, now, |raws|)
              && Remembers(after[|after| - TakenBefore(raws, now, |raws|) + TakenBefore(raws, now, i)], raws[i], now)
  {
    hide Restored, Remembers, TakenBefore;
    forall i | 0 <= i < |raws| && TakenBack(raws[i], now)
      ensures TakenBefore(raws, now, i) < TakenBefore(raws, now, |raws|)
              && Remembers(after[|after| - TakenBefore(raws, now, |raws|) + TakenBefore(raws, now, i)], raws[i], now)
    {
      RestoredExactly(raws, now, i);
    }
  }

  lemma {:induction false} OthersStay(before: seq<Preview>, after: seq<Preview>, raws: seq<Raw>, now: int)
    requires |Restored(raws, now)| == TakenBefore(raws, now, |raws|) <= |after|
    requires forall q :: q in after[..|after| - |Restored(raws, now)|] <==>
               q in before && q.key !in KeysOf(Restored(raws, now))
    ensures forall q :: q in after[..|after| - TakenBefore(raws, now, |raws|)] <==>
              q in before && !KeyTaken(raws, now, q.key)
  {
    hide Restored, KeyTaken, KeysOf, TakenBefore;
    forall q
      ensures q in after[..|after| - TakenBefore(raws, now, |raws|)] <==> q in before && !KeyTaken(raws, now, q.key)
    {
      RestoredKeys(raws, now, q.key);
    }
  }

  lemma {:induction false} CutRestored(before: seq<Preview>, restored: seq<Preview>, after: seq<Preview>)
    requires after == if restored != [] then Without(before, KeysOf(restored)) + restored else before
    ensures |restored| <= |after| && (restored != [] ==> after[|after| - |restored|..] == restored)
    ensures forall j | 0 <= j < |restored| :: after[|after| - |restored| + j] == restored[j]
    ensures forall q :: q in after[..|after| - |restored|] <==> q in before && q.key !in KeysOf(restored)
  {
    if restored == [] {
      assert after[..|after|] == before && KeysOf(restored) == {};
    } else {
      var kept := Without(before, KeysOf(restored));
      assert after[..|after| - |restored|] == kept;
      hide KeysOf;
      forall q ensures q in kept <==> q in before && q.key !in KeysOf(restored) {
      }
    }
  }

  lemma {:induction false} RestoredKeys(raws: seq<Raw>, now: int, key: string)
    ensures key in KeysOf(Restored(raws, now)) <==> KeyTaken(raws, now, key)
  {
    if raws != [] {
      var n := |raws| - 1;
      RestoredKeys(raws[..n], now, key);
      FromRawIs(raws[n], now);
      KeysMore(raws, now, key);
      assert forall i | 0 <= i < n :: raws[..n][i] == raws[i];
      hide KeysOf, Restored, FromRaw, TakenBack, PreviewKey;
    }
  }

  lemma {:induction false} KeysMore(raws: seq<Raw>, now: int, key: string)
    requires raws != []
    ensures key in KeysOf(Restored(raws, now))
            <==> key in KeysOf(Restored(raws[..|raws| - 1], now))
                 || (TakenBack(raws[|raws| - 1], now)
                     && key == PreviewKey(raws[|raws| - 1].session, raws[|raws| - 1].agent))
  {
    var last := raws[|raws| - 1];
    FromRawIs(last, now);
    var rest := Restored(raws[..|raws| - 1], now);
    hide FromRaw, TakenBack, PreviewKey;
    if FromRaw(last, now).Some? {
      var p := FromRaw(last, now).value;
      KeysOfConcat(rest, [p]);
      assert KeysOf([p]) == {p.key} by { assert p in [p]; }
      hide KeysOf;
      assert Restored(raws, now) == rest + [p];
    }
  }

  ghost predicate AnyBusy(previews: seq<Preview>) {
    exists i :: 0 <= i < |previews| && previews[i].shade == BusyPreview
  }

  function ReasonOf(c: Option<Capabilities>): Option<Line> {
    match c
    case Some(found) => (match found.reason case Some(reason) => Some(Text(reason)) case None => None)
    case None => None
  }

  /** The first preview with the newest update decides what mode and policy are shown. */
  ghost predicate ShowsNewest(s: State) {
    exists k :: 0 <= k < |s.previews| && s.mode == s.previews[k].mode && s.policy == s.previews[k].policy
                && (forall j | 0 <= j < k :: s.previews[j].updatedAt < s.previews[k].updatedAt)
                && (forall j | k < j < |s.previews| :: s.previews[j].updatedAt <= s.previews[k].updatedAt)
  }

  lemma {:induction false} FreshestIs(previews: seq<Preview>) returns (k: nat)
    requires previews != []
    ensures k < |previews| && Freshest(previews) == previews[k]
    ensures forall j | 0 <= j < k :: previews[j].updatedAt < previews[k].updatedAt
    ensures forall j | k < j < |previews| :: previews[j].updatedAt <= previews[k].updatedAt
  {
    k := 0;
    if |previews| > 1 {
      var n := |previews| - 1;
      k := FreshestIs(previews[..n]);
      assert forall j | 0 <= j < n :: previews[..n][j] == previews[j];
      if previews[n].updatedAt > previews[k].updatedAt {
        k := n;
      }
    }
  }

  /** What a registration makes the channel say: whether the gateway can use it, and what came back. */
  lemma {:induction false} RegistrationSpeaks(vm: string, enabled: bool, events: seq<Event>, states: seq<State>, n: nat)
    requires Execution(vm, enabled, events, states) && n < |events| && events[n].Registered?
    ensures var s, s', e := states[n], states[n + 1], events[n];
            var base := if !s.enabled then Disabled else if AnyBusy(s.previews) then Busy
                        else if e.available then Ready else Unavailable;
            && s'.error == ReasonOf(s.capabilities)
            && if s.enabled && e.raws.Some? && TakenBefore(e.raws.value, e.now, |e.raws.value|) > 0
               then Speaks(s', base) && ShowsNewest(s')
               else s'.status == base && s'.mode == s.mode && s'.policy == s.policy
  {
    assert Linked(events, states, n);
    var s, e := states[n], events[n];
    var first := Register(s, e.available, None, e.now);
    if e.raws.Some? {
      RestoredCount(e.raws.value, e.now);
    }
    RegisteredFirst(s, e.available, e.now);
    hide TakenBefore, AnyBusy, Speaks, ShowsNewest, Restored, RestoredDeadlines, TakenBack, Remembers, AnyShade, Reason;
    if s.enabled && e.raws.Some? && Restored(e.raws.value, e.now) != [] {
      AdoptedSpeaks(first, Restored(e.raws.value, e.now), RestoredDeadlines(e.raws.value, e.now));
    }
    hide Adopt, ScheduleEntries;
  }

  lemma {:induction false} RegisteredFirst(s: State, available: bool, now: int)
    ensures var first := Register(s, available, None, now);
            && first.error == ReasonOf(s.capabilities) && first.mode == s.mode && first.policy == s.policy
            && first.status == if !s.enabled then Disabled else if AnyBusy(s.previews) then Busy
                               else if available then Ready else Unavailable
  {
    if s.capabilities.Some? {} else {}
  }

  lemma {:induction false} AdoptedSpeaks(s: State, restored: seq<Preview>, entries: seq<(string, int)>)
    requires restored != []
    ensures var s' := ScheduleEntries(Adopt(s, restored), entries);
            Speaks(s', s.status) && ShowsNewest(s') && s'.error == s.error
  {
    hide Speaks, ShowsNewest, ScheduleEntries, AnyShade, Without, KeysOf, Freshest;
    var a := Adopt(s, restored);
    AdoptSpeaks(s, restored);
    AdoptShowsNewest(s, restored);
    ScheduledSame(a, entries);
    SpeakAlike(a, ScheduleEntries(a, entries), s.status);
  }

  lemma {:induction false} AdoptSpeaks(s: State, restored: seq<Preview>)
    requires restored != []
    ensures Speaks(Adopt(s, restored), s.status)
  {
    hide Freshest, Without, KeysOf, AnyShade;
    var a := Adopt(s, restored);
    ShadeIs(a.previews, BusyPreview);
    ShadeIs(a.previews, FailedPreview);
    assert a.status == if AnyShade(a.previews, BusyPreview) then Busy
                       else if AnyShade(a.previews, FailedPreview) then Failed else s.status;
    hide Adopt;
  }

  lemma {:induction false} ShadeIs(previews: seq<Preview>, shade: Shade)
    ensures AnyShade(previews, shade) <==> exists i :: 0 <= i < |previews| && previews[i].shade == shade
  {
  }

  lemma {:induction false} AdoptShowsNewest(s: State, restored: seq<Preview>)
    requires restored != []
    ensures ShowsNewest(Adopt(s, restored))
  {
    hide Freshest, Without, KeysOf, AnyShade;
    var a := Adopt(s, restored);
    var k := FreshestIs(a.previews);
    assert a.mode == a.previews[k].mode && a.policy == a.previews[k].policy;
    hide Adopt;
  }

  lemma {:induction false} ScheduledSame(s: State, entries: seq<(string, int)>)
    ensures var s' := ScheduleEntries(s, entries);
            s'.status == s.status && s'.previews == s.previews && s'.mode == s.mode && s'.policy == s.policy
            && s'.error == s.error
  {
    if entries != [] {
      ScheduledSame(s, entries[..|entries| - 1]);
    }
  }

  lemma {:induction false} SpeakAlike(s: State, s': State, otherwise: ChannelStatus)
    requires s'.status == s.status && s'.previews == s.previews && s'.mode == s.mode && s'.policy == s.policy
    ensures Speaks(s, otherwise) ==> Speaks(s', otherwise)
    ensures ShowsNewest(s) ==> ShowsNewest(s')
  {
  }

  // ----- what is known of the host -----

  /** A component with another identity takes the place of the one known before. */
  predicate OtherComponent(s: State, found: Capabilities) {
    match s.capabilities
    case Some(known) =>
      known.instance != "" && known.instance != found.instance && (s.vm != "" || found.instance != "")
    case None => false
  }

  /** The newest refresh that ends on a live channel is taken over, unless it ran in the background and
      found nothing new: its findings are shown, and if the component is another one nothing shown,
      pending or in flight belongs to it. */
  lemma {:induction false} RefreshIsTaken(vm: string, enabled: bool, events: seq<Event>, states: seq<State>, n: nat)
    requires Execution(vm, enabled, events, states) && n < |events| && events[n].RefreshEnd?
    requires events[n].generation == states[n].generation && states[n].enabled && !states[n].disposed
    requires events[n].generation in states[n].refreshes
    requires states[n].refreshes[events[n].generation] ==> states[n].capabilities != Some(events[n].found)
    ensures var s, s', e := states[n], states[n + 1], events[n];
            && s'.capabilities == Some(if s.vm == "" then e.found else e.found.(environment := s.vm))
            && (OtherComponent(s, e.found) ==>
                  s'.previews == [] && s'.timers == map[] && s'.deadlines == map[] && s'.latest == map[])
            && (!OtherComponent(s, e.found) ==>
                  s'.previews == s.previews && s'.timers == s.timers && s'.deadlines == s.deadlines
                  && s'.latest == s.latest)
            && s'.status == (if s.refreshes[e.generation] && AnyBusy(s'.previews) then Busy
                             else if !e.found.gui then Unavailable else if e.ready then Ready else Connecting)
            && s'.error == ReasonOf(Some(e.found))
  {
    assert Linked(events, states, n);
    var s, e := states[n], events[n];
    if OtherComponent(s, e.found) {
      assert AnyShade([], BusyPreview) == AnyBusy([]);
    } else {
      assert AnyShade(s.previews, BusyPreview) == AnyBusy(s.previews);
    }
    hide AnyShade, AnyBusy;
    if s.capabilities.Some? {} else {}
  }

  /** A refresh in the background that finds what was known changes nothing. */
  lemma {:induction false} SameRefreshIsIgnored(vm: string, enabled: bool, events: seq<Event>, states: seq<State>,
      n: nat)
    requires Execution(vm, enabled, events, states) && n < |events| && events[n].RefreshEnd?
    requires events[n].generation in states[n].refreshes && states[n].refreshes[events[n].generation]
    requires states[n].capabilities == Some(events[n].found)
    ensures states[n + 1] == states[n].(refreshes := states[n].refreshes - {events[n].generation})
  {
    assert Linked(events, states, n);
  }

  /** A request that returns to a channel switched off shows nothing but what is known of the host. */
  lemma {:induction false} ReturnWhenOff(vm: string, enabled: bool, events: seq<Event>, states: seq<State>, n: nat)
    requires Execution(vm, enabled, events, states) && n < |events| && events[n].Return? && !states[n].enabled
    ensures var s, s' := states[n], states[n + 1];
            s'.status == Disabled && s'.previews == [] && !s'.active && s'.timers == map[]
            && s'.error == ReasonOf(s.capabilities)
  {
    var s, e := states[n], events[n];
    DisabledShowsNothing(vm, enabled, events, states, n);
    assert Linked(events, states, n);
    var c, a := s.calls[e.op], AnswerOf(e.returned, e.thrown);
    OffShows(s, c, a, e.now);
    FinishFields(s, c, a, e.now);
    DisabledShowsNothing(vm, enabled, events, states, n + 1);
    ShownIsConsistent(vm, enabled, events, states, n + 1);
    hide FinishShown, Finish;
  }

  lemma {:induction false} OffShows(s: State, c: Call, a: Answer, now: int)
    requires !s.enabled && s.previews == []
    ensures FinishShown(s, c, a, now).previews == []
    ensures FinishShown(s, c, a, now).status == Disabled
    ensures FinishShown(s, c, a, now).error == ReasonOf(s.capabilities)
    ensures !Finish(s, c, a, now).enabled
  {
    hide LogsWithout, Entry;
    if s.capabilities.Some? {} else {}
  }

  /** Switching on starts a refresh, switching off shows nothing, and a repeated switch says what is
      known of the host. */
  lemma {:induction false} SwitchSpeaks(vm: string, enabled: bool, events: seq<Event>, states: seq<State>, n: nat)
    requires Execution(vm, enabled, events, states) && n < |events| && events[n].Enable?
    ensures var s, s', e := states[n], states[n + 1], events[n];
            && s'.enabled == e.enabled && s'.capabilities == s.capabilities
            && (!e.enabled ==>
                  s'.status == Disabled && s'.error == None && s'.previews == [] && s'.timers == map[] && !s'.active)
            && (e.enabled ==> s'.previews == s.previews && s'.timers == s.timers)
            && (e.enabled && !s.enabled ==>
                  s'.status == Connecting && s'.error == None && s'.generation == s.generation + 1
                  && s'.generation in s'.refreshes && !s'.refreshes[s'.generation])
            && (e.enabled && s.enabled ==>
                  s'.generation == s.generation && s'.error == ReasonOf(s.capabilities)
                  && s'.status == (if s.capabilities.None? || !s.capabilities.value.gui then Unavailable
                                   else if e.ready then Ready else Connecting))
  {
    assert Linked(events, states, n);
    var s := states[n];
    if s.capabilities.Some? {} else {}
  }
}
