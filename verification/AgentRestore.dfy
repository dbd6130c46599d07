/** Restoring persisted snapshots: which are adopted, what each becomes, which callbacks are
    still due, and why restoring what was restored changes nothing. */
module AgentRestore {
  import opened Common
  import opened StreamText
  import opened AgentModel

  /** One persisted entry; `None` is an entry that does not parse. */
  datatype Item = Item(snapshot: Option<Snapshot>, transcript: seq<Message>)

  /** The completion built from a snapshot. */
  datatype Callback = Callback(
    agentId: string,
    sessionId: string,
    status: Status,
    finalResult: string,
    error: string,
    completedAt: int,
    state: CallbackState,
    messageId: Option<string>,
    epoch: nat,
    generation: nat)

  const SESSION_ENDED := "stopped because the session ended"

  predicate Foreign(session: string, s: Snapshot) {
    s.sessionId != "" && session != "" && s.sessionId != session
  }

  predicate Unfinished(s: Snapshot) {
    s.status == Queued || s.status == Running
  }

  /** Bind a snapshot to the session and settle a status that has no process any more. */
  function Adopt(session: string, now: int, s: Snapshot): Snapshot {
    var s1 := if s.sessionId == "" then s.(sessionId := session) else s;
    if Unfinished(s1) then
      s1.(status := Stopped, error := if s1.error != "" then s1.error else SESSION_ENDED,
          updatedAt := now, finishedAt := Some(now))
    else s1
  }

  predicate Accepted(session: string, item: Item) {
    item.snapshot.Some? && !Foreign(session, item.snapshot.value)
  }

  /** The projection on disk has to be rewritten. */
  predicate NeedsRewrite(session: string, item: Item) {
    !Accepted(session, item) || Unfinished(item.snapshot.value)
  }

  predicate Due(s: Snapshot) {
    Terminal(s.status) && s.callbackEnabled && (s.callbackState == Pending || s.callbackState == Injected)
  }

  function ToCallback(s: Snapshot, generation: nat): Callback {
    Callback(s.agentId, s.sessionId, s.status, s.finalResult, s.error,
             if s.finishedAt.Some? then s.finishedAt.value else s.updatedAt,
             s.callbackState, s.callbackMessageId, s.callbackEpoch, generation)
  }

  function RestoredRun(generation: nat, s: Snapshot, transcript: seq<Message>): Run {
    Run(s, generation, transcript, [], s.finalResult, true, false, false, false, [], Free, SpawnOver)
  }

  /** The runs created, in order; a later run replaces an earlier one with its id. */
  function RestoredRuns(session: string, generation: nat, now: int, items: seq<Item>): seq<Run> {
    if items == [] then []
    else
      var init, item := items[..|items| - 1], items[|items| - 1];
      RestoredRuns(session, generation, now, init)
      + (if Accepted(session, item)
         then [RestoredRun(generation, Adopt(session, now, item.snapshot.value), item.transcript)]
         else [])
  }

  function DueCallbacks(runs: seq<Run>): seq<Callback> {
    if runs == [] then []
    else
      var init, r := runs[..|runs| - 1], runs[|runs| - 1];
      DueCallbacks(init) + (if Due(r.snapshot) then [ToCallback(r.snapshot, r.generation)] else [])
  }

  /** The agent map after a restore. */
  function Index(runs: seq<Run>): map<string, nat>
    ensures forall a | a in Index(runs) :: Index(runs)[a] < |runs| && runs[Index(runs)[a]].snapshot.agentId == a
    ensures forall i | 0 <= i < |runs| :: runs[i].snapshot.agentId in Index(runs)
  {
    if runs == [] then map[]
    else
      var init := runs[..|runs| - 1];
      Index(init)[runs[|runs| - 1].snapshot.agentId := |runs| - 1]
  }

  // ----- every restored run -----

  predicate KnownStatus(s: Status) {
    !s.OtherStatus?
  }

  lemma {:induction false} RestoredRunsFrom(session: string, generation: nat, now: int, items: seq<Item>, i: nat)
    returns (j: nat)
    requires i < |RestoredRuns(session, generation, now, items)|
    ensures j < |items| && Accepted(session, items[j])
    ensures RestoredRuns(session, generation, now, items)[i]
            == RestoredRun(generation, Adopt(session, now, items[j].snapshot.value), items[j].transcript)
  {
    var init := items[..|items| - 1];
    var runs := RestoredRuns(session, generation, now, init);
    if i < |runs| {
      j := RestoredRunsFrom(session, generation, now, init, i);
    } else {
      j := |items| - 1;
    }
  }

  /** A restored run is settled, has no task, belongs to the session and generation, and is
      terminal when its persisted status was a known one. */
  lemma {:induction false} RestoredRunSettled(session: string, generation: nat, now: int, items: seq<Item>, i: nat)
    requires i < |RestoredRuns(session, generation, now, items)|
    ensures var r := RestoredRuns(session, generation, now, items)[i];
            r.done && r.tasks == [] && r.generation == generation
            && (session != "" ==> r.snapshot.sessionId == session)
            && (KnownStatus(r.snapshot.status) ==> Terminal(r.snapshot.status))
            && r.finalText == r.snapshot.finalResult && r.chunks == []
  {
    var j := RestoredRunsFrom(session, generation, now, items, i);
  }

  // ----- due callbacks -----

  function CallbackOf(session: string, generation: nat, now: int, item: Item): seq<Callback> {
    if Accepted(session, item) && Due(Adopt(session, now, item.snapshot.value))
    then [ToCallback(Adopt(session, now, item.snapshot.value), generation)] else []
  }

  function CallbacksOf(session: string, generation: nat, now: int, items: seq<Item>): seq<Callback> {
    if items == [] then []
    else CallbacksOf(session, generation, now, items[..|items| - 1])
         + CallbackOf(session, generation, now, items[|items| - 1])
  }

  /** The callbacks handed back are exactly those of the parsing, session-matching entries
      that are due, in the order of the entries and with their epochs. */
  lemma {:induction false} CallbacksExactly(session: string, generation: nat, now: int, items: seq<Item>)
    ensures DueCallbacks(RestoredRuns(session, generation, now, items)) == CallbacksOf(session, generation, now, items)
  {
    if items != [] {
      var init, item := items[..|items| - 1], items[|items| - 1];
      CallbacksExactly(session, generation, now, init);
      var runs := RestoredRuns(session, generation, now, init);
      if Accepted(session, item) {
        var r := RestoredRun(generation, Adopt(session, now, item.snapshot.value), item.transcript);
        assert (runs + [r])[..|runs|] == runs;
      } else {
        assert runs + [] == runs;
      }
    }
  }

  /** An entry is due exactly when it parses, fits the session, has its callback enabled,
      undelivered, and its status is terminal or becomes so on adoption. */
  lemma {:induction false} DueEntry(session: string, generation: nat, now: int, item: Item)
    ensures CallbackOf(session, generation, now, item) != [] <==>
              item.snapshot.Some?
              && var s := item.snapshot.value;
                 (s.sessionId == "" || session == "" || s.sessionId == session)
                 && s.callbackEnabled && (s.callbackState == Pending || s.callbackState == Injected)
                 && KnownStatus(s.status)
    ensures CallbackOf(session, generation, now, item) != [] ==>
              CallbackOf(session, generation, now, item)[0].epoch == item.snapshot.value.callbackEpoch
              && CallbackOf(session, generation, now, item)[0].agentId == item.snapshot.value.agentId
  {
  }

  // ----- restoring the projection again -----

  /** The persisted projection lists every run of the agent map once, in some order. */
  ghost predicate Projects(items: seq<Item>, runs: seq<Run>) {
    && (forall i, j | 0 <= i < j < |items| && items[i].snapshot.Some? && items[j].snapshot.Some? ::
          items[i].snapshot.value.agentId != items[j].snapshot.value.agentId)
    && (forall i | 0 <= i < |items| ::
          items[i].snapshot.Some?
          && var a := items[i].snapshot.value.agentId;
             a in Index(runs) && items[i].snapshot.value == runs[Index(runs)[a]].snapshot
             && items[i].transcript == runs[Index(runs)[a]].messages)
    && (forall a | a in Index(runs) :: exists i | 0 <= i < |items| ::
          items[i].snapshot == Some(runs[Index(runs)[a]].snapshot))
  }

  lemma {:induction false} AdoptAgain(session: string, now: int, now': int, s: Snapshot)
    requires !Foreign(session, s)
    ensures !Foreign(session, Adopt(session, now, s))
    ensures Adopt(session, now', Adopt(session, now, s)) == Adopt(session, now, s)
    ensures !Unfinished(Adopt(session, now, s))
  {
  }

  /** A list of adopted snapshots with distinct ids is restored entry by entry, unchanged. */
  lemma {:induction false} RestoreAdopted(session: string, generation: nat, now: int, items: seq<Item>)
    requires forall i | 0 <= i < |items| ::
               Accepted(session, items[i]) && Adopt(session, now, items[i].snapshot.value) == items[i].snapshot.value
    ensures var runs := RestoredRuns(session, generation, now, items);
            |runs| == |items|
            && forall i | 0 <= i < |items| ::
                 items[i].snapshot.Some?
                 && runs[i] == RestoredRun(generation, items[i].snapshot.value, items[i].transcript)
  {
    if items != [] {
      RestoreAdopted(session, generation, now, items[..|items| - 1]);
    }
  }

  lemma {:induction false} IndexOfDistinct(runs: seq<Run>, i: nat)
    requires i < |runs|
    requires forall k, l | 0 <= k < l < |runs| :: runs[k].snapshot.agentId != runs[l].snapshot.agentId
    ensures Index(runs)[runs[i].snapshot.agentId] == i
  {
    if i < |runs| - 1 {
      IndexOfDistinct(runs[..|runs| - 1], i);
    }
  }

  function Lookup(runs: seq<Run>, agentId: string): Run
    requires agentId in Index(runs)
  {
    runs[Index(runs)[agentId]]
  }

  lemma {:induction false} ProjectedEntry(session: string, generation: nat, now: int, now': int, items: seq<Item>,
      again: seq<Item>, i: nat)
    requires Projects(again, RestoredRuns(session, generation, now, items)) && i < |again|
    ensures !NeedsRewrite(session, again[i])
    ensures Adopt(session, now', again[i].snapshot.value) == again[i].snapshot.value
    ensures RestoredRun(generation, again[i].snapshot.value, again[i].transcript)
            == Lookup(RestoredRuns(session, generation, now, items), again[i].snapshot.value.agentId)
  {
    var first := RestoredRuns(session, generation, now, items);
    var j := RestoredRunsFrom(session, generation, now, items, Index(first)[again[i].snapshot.value.agentId]);
    AdoptAgain(session, now, now', items[j].snapshot.value);
  }

  /** `second` holds, entry by entry, the runs `first` has indexed. */
  ghost predicate Reproduces(first: seq<Run>, second: seq<Run>, again: seq<Item>) {
    |second| == |again|
    && forall i | 0 <= i < |again| ::
         again[i].snapshot.Some? && again[i].snapshot.value.agentId in Index(first)
         && second[i] == Lookup(first, again[i].snapshot.value.agentId)
  }

  lemma {:induction false} ProjectedRuns(session: string, generation: nat, now: int, now': int, items: seq<Item>,
      again: seq<Item>)
    requires Projects(again, RestoredRuns(session, generation, now, items))
    ensures Reproduces(RestoredRuns(session, generation, now, items),
                       RestoredRuns(session, generation, now', again), again)
  {
    forall i | 0 <= i < |again|
      ensures Accepted(session, again[i]) && Adopt(session, now', again[i].snapshot.value) == again[i].snapshot.value
              && RestoredRun(generation, again[i].snapshot.value, again[i].transcript)
                 == Lookup(RestoredRuns(session, generation, now, items), again[i].snapshot.value.agentId)
    {
      ProjectedEntry(session, generation, now, now', items, again, i);
    }
    RestoreAdopted(session, generation, now', again);
  }

  lemma {:induction false} ReproducedAt(first: seq<Run>, second: seq<Run>, again: seq<Item>, a: string) returns (i: nat)
    requires Projects(again, first) && Reproduces(first, second, again) && a in Index(first)
    ensures i < |second| && second[i] == Lookup(first, a)
  {
    i :| 0 <= i < |again| && again[i].snapshot == Some(Lookup(first, a).snapshot);
  }

  lemma {:induction false} DistinctReproduced(first: seq<Run>, second: seq<Run>, again: seq<Item>)
    requires Projects(again, first) && Reproduces(first, second, again)
    ensures forall k, l | 0 <= k < l < |second| :: second[k].snapshot.agentId != second[l].snapshot.agentId
  {
    forall i | 0 <= i < |second| ensures second[i].snapshot.agentId == again[i].snapshot.value.agentId {
    }
  }

  lemma {:induction false} SameIndex(first: seq<Run>, second: seq<Run>, again: seq<Item>)
    requires Projects(again, first) && Reproduces(first, second, again)
    ensures forall a | a in Index(first) :: a in Index(second) && Lookup(second, a) == Lookup(first, a)
    ensures forall a | a in Index(second) :: a in Index(first)
  {
    DistinctReproduced(first, second, again);
    forall a | a in Index(first) ensures a in Index(second) && Lookup(second, a) == Lookup(first, a) {
      var i := ReproducedAt(first, second, again, a);
      IndexOfDistinct(second, i);
    }
    forall a | a in Index(second) ensures a in Index(first) {
      var i := Index(second)[a];
      assert second[i] == Lookup(first, again[i].snapshot.value.agentId);
    }
  }

  /** Restoring the projection of a restore gives the same run for every agent, in the same
      generation, and nothing is left to rewrite. */
  lemma {:induction false} RestoreStable(session: string, generation: nat, now: int, now': int, items: seq<Item>,
      again: seq<Item>)
    requires Projects(again, RestoredRuns(session, generation, now, items))
    ensures var first := RestoredRuns(session, generation, now, items);
            var second := RestoredRuns(session, generation, now', again);
            (forall a | a in Index(first) :: a in Index(second) && Lookup(second, a) == Lookup(first, a))
            && (forall a | a in Index(second) :: a in Index(first))
    ensures forall i | 0 <= i < |again| :: !NeedsRewrite(session, again[i])
  {
    ProjectedRuns(session, generation, now, now', items, again);
    SameIndex(RestoredRuns(session, generation, now, items), RestoredRuns(session, generation, now', again), again);
    forall i | 0 <= i < |again| ensures !NeedsRewrite(session, again[i]) {
      ProjectedEntry(session, generation, now, now', items, again, i);
    }
  }

  /** The callbacks due after restoring a projection are exactly those of the runs the map held
      after the first restore, whichever entries had shared an id. */
  lemma {:induction false} DueAgain(session: string, generation: nat, now: int, now': int, items: seq<Item>,
      again: seq<Item>, b: Callback)
    requires Projects(again, RestoredRuns(session, generation, now, items))
    ensures var first := RestoredRuns(session, generation, now, items);
            b in DueCallbacks(RestoredRuns(session, generation, now', again))
            <==> exists a :: a in Index(first) && Due(Lookup(first, a).snapshot)
                             && b == ToCallback(Lookup(first, a).snapshot, generation)
  {
    var first := RestoredRuns(session, generation, now, items);
    var second := RestoredRuns(session, generation, now', again);
    ProjectedRuns(session, generation, now, now', items, again);
    DueMembers(second, b);
    SameIndex(first, second, again);
    forall i | 0 <= i < |second| ensures second[i].generation == generation {
      RestoredRunSettled(session, generation, now', again, i);
    }
    hide RestoredRuns, Projects, DueCallbacks, Index;
    forall a | a in Index(first) ensures Lookup(first, a) in second {
      assert Lookup(second, a) in second;
    }
  }

  lemma {:induction false} DueMembers(runs: seq<Run>, b: Callback)
    ensures b in DueCallbacks(runs)
            <==> exists r | r in runs :: Due(r.snapshot) && b == ToCallback(r.snapshot, r.generation)
  {
    if runs != [] {
      var init, r := runs[..|runs| - 1], runs[|runs| - 1];
      DueMembers(init, b);
      assert runs == init + [r];
    }
  }

  // ----- the projection as it is written -----

  predicate DistinctIds(runs: seq<Run>) {
    forall i, j | 0 <= i < j < |runs| :: runs[i].snapshot.agentId != runs[j].snapshot.agentId
  }

  predicate NewestFirst(runs: seq<Run>) {
    forall i, j | 0 <= i < j < |runs| :: runs[i].snapshot.createdAt >= runs[j].snapshot.createdAt
  }

  function Position(runs: seq<Run>, agentId: string): (p: Option<nat>)
    ensures p.Some? ==> p.value < |runs| && runs[p.value].snapshot.agentId == agentId
    ensures p.None? ==> forall i | 0 <= i < |runs| :: runs[i].snapshot.agentId != agentId
  {
    if runs == [] then None
    else if runs[|runs| - 1].snapshot.agentId == agentId then Some(|runs| - 1)
    else Position(runs[..|runs| - 1], agentId)
  }

  /** Assignment to a dictionary: a known key keeps its place. */
  function Place(runs: seq<Run>, r: Run): seq<Run> {
    var p := Position(runs, r.snapshot.agentId);
    if p.Some? then runs[p.value := r] else runs + [r]
  }

  /** The runs of the map in the order it iterates over them. */
  function MapOrder(runs: seq<Run>): seq<Run> {
    if runs == [] then [] else Place(MapOrder(runs[..|runs| - 1]), runs[|runs| - 1])
  }

  function InsertByAge(runs: seq<Run>, r: Run): seq<Run> {
    if runs == [] || runs[|runs| - 1].snapshot.createdAt >= r.snapshot.createdAt then runs + [r]
    else InsertByAge(runs[..|runs| - 1], r) + [runs[|runs| - 1]]
  }

  /** The newest first, runs of the same time in their order. */
  function SortByAge(runs: seq<Run>): seq<Run> {
    if runs == [] then [] else InsertByAge(SortByAge(runs[..|runs| - 1]), runs[|runs| - 1])
  }

  function Listed(runs: seq<Run>): seq<Run> {
    SortByAge(MapOrder(runs))
  }

  function EntryOf(r: Run): Item {
    Item(Some(r.snapshot), r.messages)
  }

  /** What is persisted: the listed runs of the session. */
  function Persisted(session: string, runs: seq<Run>): seq<Item> {
    if runs == [] then []
    else
      var init, r := runs[..|runs| - 1], runs[|runs| - 1];
      Persisted(session, init) + (if session == "" || r.snapshot.sessionId == session then [EntryOf(r)] else [])
  }

  function Projection(session: string, runs: seq<Run>): seq<Item> {
    Persisted(session, Listed(runs))
  }

  lemma {:induction false} PersistedAll(session: string, runs: seq<Run>)
    requires session != "" ==> forall i | 0 <= i < |runs| :: runs[i].snapshot.sessionId == session
    ensures |Persisted(session, runs)| == |runs|
    ensures forall i | 0 <= i < |runs| :: Persisted(session, runs)[i] == EntryOf(runs[i])
  {
    if runs != [] {
      PersistedAll(session, runs[..|runs| - 1]);
    }
  }

  /** The map holds, for every id, the last run restored under it, once. */
  lemma {:induction false} MapOrderIsMap(runs: seq<Run>)
    ensures DistinctIds(MapOrder(runs))
    ensures forall i | 0 <= i < |MapOrder(runs)| ::
              MapOrder(runs)[i].snapshot.agentId in Index(runs)
              && MapOrder(runs)[i] == Lookup(runs, MapOrder(runs)[i].snapshot.agentId)
    ensures forall a | a in Index(runs) :: Lookup(runs, a) in MapOrder(runs)
  {
    if runs != [] {
      var init, r := runs[..|runs| - 1], runs[|runs| - 1];
      MapOrderIsMap(init);
      var old', new' := MapOrder(init), MapOrder(runs);
      assert new' == Place(old', r);
      forall a | a in Index(init) && a != r.snapshot.agentId ensures Lookup(runs, a) == Lookup(init, a) {
        assert runs[Index(init)[a]] == init[Index(init)[a]];
      }
      PlaceKeeps(old', r, Index(init).Keys);
      hide MapOrder, Place;
      forall a | a in Index(runs) ensures Lookup(runs, a) in new' {
        if a != r.snapshot.agentId {
          assert Lookup(init, a) in old' && Lookup(init, a).snapshot.agentId == a;
        }
      }
    }
  }

  lemma {:induction false} PlaceKeeps(runs: seq<Run>, r: Run, ids: set<string>)
    requires DistinctIds(runs)
    ensures DistinctIds(Place(runs, r)) && r in Place(runs, r)
    ensures forall x | x in Place(runs, r) :: x == r || (x in runs && x.snapshot.agentId != r.snapshot.agentId)
    ensures forall x | x in runs && x.snapshot.agentId != r.snapshot.agentId :: x in Place(runs, r)
  {
    var p := Position(runs, r.snapshot.agentId);
    if p.Some? {
      assert Place(runs, r)[p.value] == r;
      forall x | x in runs && x.snapshot.agentId != r.snapshot.agentId ensures x in Place(runs, r) {
        var i :| 0 <= i < |runs| && runs[i] == x;
        assert Place(runs, r)[i] == x;
      }
    } else {
      assert Place(runs, r)[|runs|] == r;
    }
  }

  lemma {:induction false} InsertKeeps(runs: seq<Run>, r: Run)
    ensures multiset(InsertByAge(runs, r)) == multiset(runs) + multiset{r}
  {
    if runs != [] && runs[|runs| - 1].snapshot.createdAt < r.snapshot.createdAt {
      var init, last := runs[..|runs| - 1], runs[|runs| - 1];
      InsertKeeps(init, r);
      assert runs == init + [last];
      assert multiset(InsertByAge(init, r) + [last]) == multiset(InsertByAge(init, r)) + multiset{last};
    }
  }

  lemma {:induction false} InsertSorts(runs: seq<Run>, r: Run)
    requires NewestFirst(runs)
    ensures NewestFirst(InsertByAge(runs, r))
    ensures forall x | x in InsertByAge(runs, r) :: x == r || x in runs
  {
    if runs != [] && runs[|runs| - 1].snapshot.createdAt < r.snapshot.createdAt {
      var init, last := runs[..|runs| - 1], runs[|runs| - 1];
      InsertSorts(init, r);
      var ins := InsertByAge(init, r);
      forall i | 0 <= i < |ins| ensures ins[i].snapshot.createdAt >= last.snapshot.createdAt {
        assert ins[i] in ins;
      }
      forall x | x in ins + [last] ensures x == r || x in runs {
        if x in init {
          assert x in runs;
        }
      }
    }
  }

  lemma {:induction false} SortKeeps(runs: seq<Run>)
    ensures multiset(SortByAge(runs)) == multiset(runs) && NewestFirst(SortByAge(runs))
  {
    if runs != [] {
      var init, last := runs[..|runs| - 1], runs[|runs| - 1];
      SortKeeps(init);
      InsertKeeps(SortByAge(init), last);
      InsertSorts(SortByAge(init), last);
      assert runs == init + [last];
    }
  }

  lemma {:induction false} SortedStays(runs: seq<Run>)
    requires NewestFirst(runs)
    ensures SortByAge(runs) == runs
  {
    if runs != [] {
      var init, last := runs[..|runs| - 1], runs[|runs| - 1];
      assert init != [] ==> init[|init| - 1].snapshot.createdAt >= last.snapshot.createdAt;
      assert NewestFirst(init);
      hide NewestFirst;
      SortedStays(init);
      assert runs == init + [last];
    }
  }

  lemma {:induction false} DistinctStays(runs: seq<Run>)
    requires DistinctIds(runs)
    ensures MapOrder(runs) == runs
  {
    if runs != [] {
      DistinctStays(runs[..|runs| - 1]);
      assert runs == runs[..|runs| - 1] + [runs[|runs| - 1]];
    }
  }

  lemma {:induction false} SameElementsDistinct(a: seq<Run>, b: seq<Run>)
    requires multiset(a) == multiset(b) && DistinctIds(a)
    ensures DistinctIds(b)
  {
    forall i, j | 0 <= i < j < |b| ensures b[i].snapshot.agentId != b[j].snapshot.agentId {
      TwiceInA(a, b, i, j);
    }
  }

  lemma {:induction false} TwiceInA(a: seq<Run>, b: seq<Run>, i: nat, j: nat)
    requires multiset(a) == multiset(b) && DistinctIds(a) && i < j < |b|
    ensures b[i].snapshot.agentId != b[j].snapshot.agentId
  {
    assert b[i] in multiset(a) && b[j] in multiset(a);
    if b[i] == b[j] {
      assert b == b[..i] + [b[i]] + b[i + 1..];
      assert b[j] in b[i + 1..] by { assert b[i + 1..][j - i - 1] == b[j]; }
      assert multiset(b)[b[i]] >= 2;
      OncePerId(a, b[i]);
    }
  }

  lemma {:induction false} OncePerId(a: seq<Run>, x: Run)
    requires DistinctIds(a)
    ensures multiset(a)[x] <= 1
  {
    if a != [] {
      var init, last := a[..|a| - 1], a[|a| - 1];
      OncePerId(init, x);
      assert a == init + [last];
    }
  }

  /** The listed runs are the map's, each once. */
  lemma {:induction false} ListedIsMap(runs: seq<Run>)
    ensures DistinctIds(Listed(runs)) && NewestFirst(Listed(runs))
    ensures forall i | 0 <= i < |Listed(runs)| ::
              Listed(runs)[i].snapshot.agentId in Index(runs)
              && Listed(runs)[i] == Lookup(runs, Listed(runs)[i].snapshot.agentId)
    ensures forall a | a in Index(runs) :: Lookup(runs, a) in Listed(runs)
  {
    var order, list := MapOrder(runs), Listed(runs);
    MapOrderIsMap(runs);
    SortKeeps(order);
    SameElementsDistinct(order, list);
    hide MapOrder, SortByAge, Index, DistinctIds, NewestFirst;
    forall i | 0 <= i < |list|
      ensures list[i].snapshot.agentId in Index(runs) && list[i] == Lookup(runs, list[i].snapshot.agentId)
    {
      assert list[i] in multiset(order);
    }
    forall a | a in Index(runs) ensures Lookup(runs, a) in list {
      assert Lookup(runs, a) in multiset(order);
    }
  }

  /** What a restore leaves to be persisted is a projection of its runs. */
  lemma {:induction false} ProjectionProjects(session: string, generation: nat, now: int, items: seq<Item>)
    ensures var first := RestoredRuns(session, generation, now, items);
            Projects(Projection(session, first), first)
            && |Projection(session, first)| == |Listed(first)|
            && forall i | 0 <= i < |Listed(first)| :: Projection(session, first)[i] == EntryOf(Listed(first)[i])
  {
    var first := RestoredRuns(session, generation, now, items);
    var list, again := Listed(first), Projection(session, first);
    ListedIsMap(first);
    forall i | 0 <= i < |list| && session != "" ensures list[i].snapshot.sessionId == session {
      RestoredRunSettled(session, generation, now, items, Index(first)[list[i].snapshot.agentId]);
    }
    PersistedAll(session, list);
    hide Listed, Persisted, RestoredRuns, NewestFirst;
    assert |again| == |list| && forall i | 0 <= i < |list| :: again[i] == EntryOf(list[i]);
    hide Projection;
    EntriesProject(first, list, again);
  }

  lemma {:induction false} EntriesProject(first: seq<Run>, list: seq<Run>, again: seq<Item>)
    requires |again| == |list| && (forall i | 0 <= i < |list| :: again[i] == EntryOf(list[i])) && DistinctIds(list)
    requires forall i | 0 <= i < |list| ::
               list[i].snapshot.agentId in Index(first) && list[i] == Lookup(first, list[i].snapshot.agentId)
    requires forall a | a in Index(first) :: Lookup(first, a) in list
    ensures Projects(again, first)
  {
    forall a | a in Index(first)
      ensures exists i | 0 <= i < |again| :: again[i].snapshot == Some(first[Index(first)[a]].snapshot)
    {
      var i :| 0 <= i < |list| && list[i] == Lookup(first, a);
      assert again[i].snapshot == Some(list[i].snapshot);
    }
    hide Index;
  }

  /** Restoring what a restore left to be persisted gives the listed runs, in their order, and
      persisting those writes the same entries again. */
  lemma {:induction false} ProjectionIsStable(session: string, generation: nat, now: int, now': int, items: seq<Item>)
    ensures var first := RestoredRuns(session, generation, now, items);
            var second := RestoredRuns(session, generation, now', Projection(session, first));
            second == Listed(first) && Projection(session, second) == Projection(session, first)
  {
    var first := RestoredRuns(session, generation, now, items);
    var again := Projection(session, first);
    var second := RestoredRuns(session, generation, now', again);
    ProjectionProjects(session, generation, now, items);
    ProjectedRuns(session, generation, now, now', items, again);
    ListedIsMap(first);
    hide RestoredRuns, Projection, Listed, Index, Projects, DistinctIds, NewestFirst;
    assert second == Listed(first);
    ListedAgain(first);
    SameProjection(session, first, second);
  }

  lemma {:induction false} ListedAgain(runs: seq<Run>)
    ensures Listed(Listed(runs)) == Listed(runs)
  {
    ListedIsMap(runs);
    DistinctStays(Listed(runs));
    SortedStays(Listed(runs));
    hide DistinctIds, NewestFirst;
  }

  lemma {:induction false} SameProjection(session: string, first: seq<Run>, second: seq<Run>)
    requires Listed(second) == Listed(first)
    ensures Projection(session, second) == Projection(session, first)
  {
  }

  // ----- which callbacks come back -----

  /** The callback a run has due, if any. */
  function DueOf(r: Run): multiset<Callback> {
    if Due(r.snapshot) then multiset{ToCallback(r.snapshot, r.generation)} else multiset{}
  }

  /** Due callbacks of runs that a later run with the same id replaced. */
  function ReplacedDue(runs: seq<Run>): multiset<Callback> {
    if runs == [] then multiset{}
    else
      var init, r := runs[..|runs| - 1], runs[|runs| - 1];
      ReplacedDue(init) + OldDue(init, r)
  }

  lemma {:induction false} DueAppend(runs: seq<Run>, r: Run)
    ensures multiset(DueCallbacks(runs + [r])) == multiset(DueCallbacks(runs)) + DueOf(r)
  {
    assert (runs + [r])[..|runs|] == runs;
    assert multiset(DueCallbacks(runs) + [ToCallback(r.snapshot, r.generation)])
           == multiset(DueCallbacks(runs)) + multiset{ToCallback(r.snapshot, r.generation)};
    assert DueCallbacks(runs) + [] == DueCallbacks(runs);
  }

  lemma {:induction false} DueReplace(runs: seq<Run>, p: nat, r: Run)
    requires p < |runs|
    ensures multiset(DueCallbacks(runs[p := r])) + DueOf(runs[p]) == multiset(DueCallbacks(runs)) + DueOf(r)
  {
    hide DueCallbacks, DueOf;
    var init, last := runs[..|runs| - 1], runs[|runs| - 1];
    assert runs == init + [last];
    DueAppend(init, last);
    if p < |runs| - 1 {
      DueReplace(init, p, r);
      assert runs[p := r] == init[p := r] + [last];
      DueAppend(init[p := r], last);
      AddBoth(multiset(DueCallbacks(init[p := r])), DueOf(runs[p]), multiset(DueCallbacks(init)), DueOf(r),
              DueOf(last));
    } else {
      assert runs[p := r] == init + [r];
      DueAppend(init, r);
    }
  }

  lemma {:induction false} AddBoth(a: multiset<Callback>, b: multiset<Callback>, c: multiset<Callback>,
      d: multiset<Callback>, x: multiset<Callback>)
    requires a + b == c + d
    ensures a + x + b == c + x + d && a + (b + x) == c + (d + x)
  {
    forall e ensures (a + x + b)[e] == (c + x + d)[e] && (a + (b + x))[e] == (c + (d + x))[e] {
      assert (a + b)[e] == (c + d)[e];
    }
  }

  lemma {:induction false} DueInsert(runs: seq<Run>, r: Run)
    ensures multiset(DueCallbacks(InsertByAge(runs, r))) == multiset(DueCallbacks(runs)) + DueOf(r)
  {
    hide DueCallbacks, DueOf;
    DueAppend(runs, r);
    if runs != [] && runs[|runs| - 1].snapshot.createdAt < r.snapshot.createdAt {
      var init, last := runs[..|runs| - 1], runs[|runs| - 1];
      assert runs == init + [last];
      DueInsert(init, r);
      DueAppend(init, last);
      DueAppend(InsertByAge(init, r), last);
    }
  }

  lemma {:induction false} DueSorted(runs: seq<Run>)
    ensures multiset(DueCallbacks(SortByAge(runs))) == multiset(DueCallbacks(runs))
  {
    if runs != [] {
      var init, last := runs[..|runs| - 1], runs[|runs| - 1];
      assert runs == init + [last];
      DueSorted(init);
      DueAppend(init, last);
      DueInsert(SortByAge(init), last);
      hide DueCallbacks, DueOf;
    }
  }

  lemma {:induction false} NothingDue()
    ensures DueCallbacks([]) == [] && MapOrder([]) == [] && ReplacedDue([]) == multiset{}
  {
  }

  /** Every due callback belongs to a run the map holds, or to one it replaced. */
  lemma {:induction false} DueSplits(runs: seq<Run>)
    ensures multiset(DueCallbacks(runs)) == multiset(DueCallbacks(MapOrder(runs))) + ReplacedDue(runs)
  {
    if runs == [] {
      NothingDue();
    } else {
      hide DueCallbacks, DueOf, Place, Index, ReplacedDue, MapOrder, OldDue;
      var init, r := runs[..|runs| - 1], runs[|runs| - 1];
      assert runs == init + [r];
      DueSplits(init);
      DueAppend(init, r);
      DuePlaced(init, r);
      Unfolded(init, r);
      Regroup(multiset(DueCallbacks(init)), multiset(DueCallbacks(MapOrder(init))), ReplacedDue(init), DueOf(r),
              multiset(DueCallbacks(Place(MapOrder(init), r))), OldDue(init, r));
    }
  }

  /** The due callback that `r` replaces in the map. */
  function OldDue(init: seq<Run>, r: Run): multiset<Callback> {
    if r.snapshot.agentId in Index(init) then DueOf(Lookup(init, r.snapshot.agentId)) else multiset{}
  }

  lemma {:induction false} Unfolded(init: seq<Run>, r: Run)
    ensures MapOrder(init + [r]) == Place(MapOrder(init), r)
    ensures ReplacedDue(init + [r]) == ReplacedDue(init) + OldDue(init, r)
  {
    assert (init + [r])[..|init|] == init;
    hide Place, OldDue;
  }

  lemma {:induction false} Regroup(due: multiset<Callback>, map': multiset<Callback>, gone: multiset<Callback>,
      new': multiset<Callback>, placed: multiset<Callback>, old': multiset<Callback>)
    requires due == map' + gone && placed + old' == map' + new'
    ensures due + new' == placed + (gone + old')
  {
    forall e ensures (due + new')[e] == (placed + (gone + old'))[e] {
      assert due[e] == (map' + gone)[e] && (placed + old')[e] == (map' + new')[e];
    }
  }

  lemma {:induction false} DuePlaced(init: seq<Run>, r: Run)
    ensures multiset(DueCallbacks(Place(MapOrder(init), r))) + OldDue(init, r)
            == multiset(DueCallbacks(MapOrder(init))) + DueOf(r)
  {
    var order := MapOrder(init);
    MapOrderIsMap(init);
    var p := Position(order, r.snapshot.agentId);
    hide DueCallbacks, DueOf, MapOrder, DistinctIds;
    if p.Some? {
      DueReplace(order, p.value, r);
    } else {
      DueAppend(order, r);
    }
  }

  /** No due run is followed by another run with its id. */
  predicate NoDueReplaced(runs: seq<Run>) {
    forall i, j | 0 <= i < j < |runs| && runs[i].snapshot.agentId == runs[j].snapshot.agentId :: !Due(runs[i].snapshot)
  }

  lemma {:induction false} NoneReplaced(runs: seq<Run>)
    ensures ReplacedDue(runs) == multiset{} <==> NoDueReplaced(runs)
  {
    if runs != [] {
      var init, r := runs[..|runs| - 1], runs[|runs| - 1];
      assert runs == init + [r];
      NoneReplaced(init);
      Unfolded(init, r);
      OneMoreReplaced(init, r);
      hide ReplacedDue, NoDueReplaced, OldDue;
    }
  }

  lemma {:induction false} OneMoreReplaced(init: seq<Run>, r: Run)
    ensures NoDueReplaced(init + [r]) <==> NoDueReplaced(init) && OldDue(init, r) == multiset{}
  {
    var runs, n, a := init + [r], |init|, r.snapshot.agentId;
    hide Index, Due;
    if NoDueReplaced(runs) {
      forall i, j | 0 <= i < j < |init| && init[i].snapshot.agentId == init[j].snapshot.agentId
        ensures !Due(init[i].snapshot)
      {
        assert runs[i].snapshot.agentId == runs[j].snapshot.agentId;
      }
      if a in Index(init) {
        assert runs[Index(init)[a]].snapshot.agentId == runs[n].snapshot.agentId;
      }
    }
    if NoDueReplaced(init) && OldDue(init, r) == multiset{} {
      forall i, j | 0 <= i < j < |runs| && runs[i].snapshot.agentId == runs[j].snapshot.agentId
        ensures !Due(runs[i].snapshot)
      {
        if j < n {
          assert init[i].snapshot.agentId == init[j].snapshot.agentId;
        } else {
          LastIsDue(init, i, r);
        }
      }
    }
  }

  lemma {:induction false} LastIsDue(init: seq<Run>, i: nat, r: Run)
    requires NoDueReplaced(init) && OldDue(init, r) == multiset{} && i < |init|
    requires init[i].snapshot.agentId == r.snapshot.agentId
    ensures !Due(init[i].snapshot)
  {
    NewestIndex(init);
    var l := Index(init)[r.snapshot.agentId];
    hide Index, Due;
    if i < l {
      assert init[i].snapshot.agentId == init[l].snapshot.agentId;
    }
  }

  lemma {:induction false} NewestIndex(runs: seq<Run>)
    ensures forall i | 0 <= i < |runs| :: i <= Index(runs)[runs[i].snapshot.agentId]
  {
    if runs != [] {
      NewestIndex(runs[..|runs| - 1]);
    }
  }

  /** A second restore has the same callbacks due exactly if no due run of the first was followed
      by another run with its id; those that were are lost. */
  lemma {:induction false} SameCallbacksIff(session: string, generation: nat, now: int, now': int, items: seq<Item>)
    ensures var first := RestoredRuns(session, generation, now, items);
            var second := RestoredRuns(session, generation, now', Projection(session, first));
            multiset(DueCallbacks(first)) == multiset(DueCallbacks(second)) + ReplacedDue(first)
            && (multiset(DueCallbacks(second)) == multiset(DueCallbacks(first)) <==> NoDueReplaced(first))
  {
    var first := RestoredRuns(session, generation, now, items);
    ProjectionIsStable(session, generation, now, now', items);
    DueSplits(first);
    DueSorted(MapOrder(first));
    NoneReplaced(first);
    hide RestoredRuns, DueCallbacks, MapOrder, SortByAge, ReplacedDue, NoDueReplaced, Projection;
    NoRest(multiset(DueCallbacks(first)), multiset(DueCallbacks(Listed(first))), ReplacedDue(first));
  }

  lemma {:induction false} NoRest(a: multiset<Callback>, b: multiset<Callback>, c: multiset<Callback>)
    requires a == b + c
    ensures a == b <==> c == multiset{}
  {
    if a == b {
      assert |a| == |b| + |c|;
    }
  }

  /** Entries in the order a projection is written in, with distinct ids, give the same callbacks
      in the same order again. */
  lemma {:induction false} CallbackOrderIsKept(session: string, generation: nat, now: int, now': int, items: seq<Item>)
    requires DistinctIds(RestoredRuns(session, generation, now, items))
    requires NewestFirst(RestoredRuns(session, generation, now, items))
    ensures var first := RestoredRuns(session, generation, now, items);
            RestoredRuns(session, generation, now', Projection(session, first)) == first
            && DueCallbacks(RestoredRuns(session, generation, now', Projection(session, first))) == DueCallbacks(first)
  {
    var first := RestoredRuns(session, generation, now, items);
    ProjectionIsStable(session, generation, now, now', items);
    DistinctStays(first);
    SortedStays(first);
  }
}
