/** One ledger row per streamed request: what is stored while the stream runs and at its end. */
module UsageStream {
  import opened Common
  import opened UsageDaily

  datatype Field = TotalInput | Input | Output | TotalTokens | CacheRead | CacheWrite | Reasoning

  const FIELDS: seq<Field> := [TotalInput, Input, Output, TotalTokens, CacheRead, CacheWrite, Reasoning]

  /** The valid counts a chunk carries, the model and stop reason it names ("" for none). */
  datatype Chunk = Chunk(usage: map<Field, nat>, model: string, stop: string, isError: bool)

  /** The stream ran out, was cancelled or closed, or raised. */
  datatype Ending = Exhausted | Cancelled | Raised

  datatype Entry = Entry(input: Option<nat>, output: Option<nat>, total: Option<nat>, cacheRead: Option<nat>,
                         cacheWrite: Option<nat>, reasoning: Option<nat>, usage: UsageStatus, status: Outcome,
                         stop: string, model: string)

  // ----- the maximum over the chunks -----

  function Larger(a: Option<nat>, b: Option<nat>): Option<nat> {
    if a.None? then b else if b.None? || a.value >= b.value then a else b
  }

  function Look(usage: map<Field, nat>, f: Field): Option<nat> {
    if f in usage then Some(usage[f]) else None
  }

  function FieldMax(chunks: seq<Chunk>, f: Field): Option<nat> {
    if chunks == [] then None
    else Larger(FieldMax(chunks[..|chunks| - 1], f), Look(chunks[|chunks| - 1].usage, f))
  }

  /** It is the greatest count any chunk reported, and there is one exactly when some chunk
      reported any. */
  lemma {:induction false} FieldMaxIsGreatest(chunks: seq<Chunk>, f: Field)
    ensures FieldMax(chunks, f).None? <==> forall i | 0 <= i < |chunks| :: f !in chunks[i].usage
    ensures FieldMax(chunks, f).Some? ==>
              (exists i :: 0 <= i < |chunks| && Look(chunks[i].usage, f) == FieldMax(chunks, f))
              && forall i | 0 <= i < |chunks| && f in chunks[i].usage :: chunks[i].usage[f] <= FieldMax(chunks, f).value
  {
    if chunks != [] {
      var n := |chunks| - 1;
      FieldMaxIsGreatest(chunks[..n], f);
      assert forall i | 0 <= i < n :: chunks[..n][i] == chunks[i];
      if FieldMax(chunks, f) == Look(chunks[n].usage, f) {
      } else {
        var i :| 0 <= i < n && Look(chunks[..n][i].usage, f) == FieldMax(chunks[..n], f);
        assert Look(chunks[i].usage, f) == FieldMax(chunks, f);
      }
    }
  }

  /** The greatest counts reported so far. */
  function MaxUsage(chunks: seq<Chunk>): map<Field, nat> {
    map f: Field | FieldMax(chunks, f).Some? :: FieldMax(chunks, f).value
  }

  lemma {:induction false} MaxUsageMore(chunks: seq<Chunk>, c: Chunk, usage: map<Field, nat>)
    requires forall f :: Look(usage, f) == Larger(Look(MaxUsage(chunks), f), Look(c.usage, f))
    ensures usage == MaxUsage(chunks + [c])
  {
    assert (chunks + [c])[..|chunks|] == chunks;
    forall f: Field ensures f in usage <==> f in MaxUsage(chunks + [c])
      ensures f in usage ==> usage[f] == MaxUsage(chunks + [c])[f]
    {
      assert Look(usage, f) == Larger(Look(MaxUsage(chunks), f), Look(c.usage, f));
    }
  }

  /** While the stream runs, what is stored of a field never goes away and never shrinks. */
  lemma {:induction false} UsageGrows(chunks: seq<Chunk>, more: seq<Chunk>, f: Field)
    requires f in MaxUsage(chunks)
    ensures f in MaxUsage(chunks + more) && MaxUsage(chunks)[f] <= MaxUsage(chunks + more)[f]
  {
    FieldMaxIsGreatest(chunks, f);
    FieldMaxIsGreatest(chunks + more, f);
    var i :| 0 <= i < |chunks| && Look(chunks[i].usage, f) == FieldMax(chunks, f);
    assert (chunks + more)[i] == chunks[i];
    hide FieldMax;
  }

  // ----- what a row says -----

  function InputOf(usage: map<Field, nat>): Option<nat> {
    if TotalInput in usage then Some(usage[TotalInput]) else Look(usage, Input)
  }

  function StatusOf(usage: map<Field, nat>): UsageStatus {
    if InputOf(usage).Some? && Output in usage then Complete else if usage != map[] then Partial else Missing
  }

  function WithUsage(e: Entry, usage: map<Field, nat>, model: string): Entry {
    e.(input := InputOf(usage), output := Look(usage, Output), total := Look(usage, TotalTokens),
       cacheRead := Look(usage, CacheRead), cacheWrite := Look(usage, CacheWrite), reasoning := Look(usage, Reasoning),
       usage := StatusOf(usage), model := if model != "" then model else e.model)
  }

  function LastModel(chunks: seq<Chunk>): string {
    if chunks == [] then ""
    else if chunks[|chunks| - 1].model != "" then chunks[|chunks| - 1].model else LastModel(chunks[..|chunks| - 1])
  }

  function LastStop(chunks: seq<Chunk>): string {
    if chunks == [] then ""
    else if chunks[|chunks| - 1].stop != "" then chunks[|chunks| - 1].stop else LastStop(chunks[..|chunks| - 1])
  }

  predicate AnyError(chunks: seq<Chunk>) {
    exists i | 0 <= i < |chunks| :: chunks[i].isError
  }

  predicate HitsLimit(stop: string) {
    stop == "max_tokens" || stop == "max_output_tokens" || stop == "length"
  }

  function OutcomeOf(chunks: seq<Chunk>, end: Ending): Outcome {
    match end
    case Cancelled => Interrupted
    case Raised => Errored
    case Exhausted =>
      if AnyError(chunks) then Errored else if HitsLimit(LastStop(chunks)) then OutputLimit else Completed
  }

  // ----- the ledger -----

  function NewEntry(model: string): Entry {
    Entry(None, None, None, None, None, None, Missing, Running, "", model)
  }

  class UsageStore {
    var rows: map<string, Entry>
    var trackingStarted: Option<int>

    constructor ()
      ensures rows == map[] && trackingStarted == None
    {
      rows, trackingStarted := map[], None;
    }

    /** The first request ever begun sets when tracking started; an id that is taken is an error
        and undoes both. */
    method Begin(id: string, started: int, model: string) returns (ok: bool)
      modifies this
      ensures ok <==> id !in old(rows)
      ensures rows == if ok then old(rows)[id := NewEntry(model)] else old(rows)
      ensures ok ==> rows[id] == Entry(None, None, None, None, None, None, Missing, Running, "", model)
      ensures trackingStarted == if ok && old(trackingStarted).None? then Some(started) else old(trackingStarted)
    {
      ok := id !in rows;
      if ok {
        if trackingStarted.None? {
          trackingStarted := Some(started);
        }
        rows := rows[id := NewEntry(model)];
      }
    }

    method Snapshot(id: string, usage: map<Field, nat>, model: string)
      modifies this`rows
      ensures rows == if id in old(rows) then old(rows)[id := WithUsage(old(rows)[id], usage, model)] else old(rows)
    {
      if id in rows {
        rows := rows[id := WithUsage(rows[id], usage, model)];
      }
    }

    method Finish(id: string, usage: map<Field, nat>, status: Outcome, stop: string, model: string)
      modifies this`rows
      ensures rows == if id in old(rows)
                      then old(rows)[id := WithUsage(old(rows)[id], usage, model).(status := status, stop := stop)]
                      else old(rows)
    {
      if id in rows {
        rows := rows[id := WithUsage(rows[id], usage, model).(status := status, stop := stop)];
      }
    }

    /** While the stream runs the row always shows the greatest counts of the chunks seen so far,
        so this is also what a crash leaves behind. */
    method Consume(id: string, model: string, recorded: bool, chunks: seq<Chunk>)
      returns (usage: map<Field, nat>, actual: string, stop: string, failed: bool)
      requires recorded ==> id in rows && rows[id] == NewEntry(model)
      modifies this`rows
      ensures usage == MaxUsage(chunks)
      ensures actual == LastModel(chunks) && stop == LastStop(chunks) && failed == AnyError(chunks)
      ensures recorded ==> id in rows && StoredSoFar(rows[id], MaxUsage(chunks), model, LastModel(chunks))
      ensures OthersKept(old(rows), rows, id) && (!recorded ==> rows == old(rows))
    {
      usage, actual, stop, failed := map[], "", "", false;
      var i := 0;
      assert chunks[..0] == [];
      while i < |chunks|
        invariant i <= |chunks| && usage == MaxUsage(chunks[..i])
        invariant actual == LastModel(chunks[..i]) && stop == LastStop(chunks[..i]) && failed == AnyError(chunks[..i])
        invariant recorded ==> id in rows && StoredSoFar(rows[id], usage, model, actual)
        invariant OthersKept(old(rows), rows, id) && (!recorded ==> rows == old(rows))
      {
        hide StatusOf, InputOf, MaxUsage, WithUsage, OthersKept, StoredSoFar;
        var c := chunks[i];
        assert chunks[..i + 1] == chunks[..i] + [c];
        assert chunks[..i + 1][..i] == chunks[..i];
        if c.model != "" {
          actual := c.model;
        }
        usage := Record(id, model, recorded, usage, c.usage, actual, LastModel(chunks[..i]), old(rows));
        MaxUsageMore(chunks[..i], c, usage);
        if c.stop != "" {
          stop := c.stop;
        }
        if c.isError {
          failed := true;
        }
        i := i + 1;
      }
      assert chunks[..i] == chunks;
    }

    /** Take in one chunk's counts; the row is rewritten only when one of them grew. */
    method Record(id: string, model: string, recorded: bool, usage: map<Field, nat>, reported: map<Field, nat>,
                  actual: string, ghost before: string, ghost first: map<string, Entry>)
      returns (usage': map<Field, nat>)
      requires recorded ==> id in rows && StoredSoFar(rows[id], usage, model, before)
      requires OthersKept(first, rows, id) && (!recorded ==> rows == first) && (actual == "" ==> before == "")
      modifies this`rows
      ensures forall f :: Look(usage', f) == Larger(Look(usage, f), Look(reported, f))
      ensures recorded ==> id in rows && StoredSoFar(rows[id], usage', model, actual)
      ensures OthersKept(first, rows, id) && (!recorded ==> rows == first)
    {
      var changed;
      usage', changed := RaiseCounts(usage, reported);
      hide StatusOf, InputOf, Look;
      if changed && recorded {
        Snapshot(id, usage', actual);
      }
    }

    /** One request from begin to end. */
    method TrackedStream(id: string, started: int, model: string, chunks: seq<Chunk>, end: Ending)
      modifies this
      ensures id !in old(rows) ==> id in rows && rows[id] == FinalEntry(chunks, end, model)
      ensures id in old(rows) ==> rows == old(rows)
      ensures OthersKept(old(rows), rows, id)
    {
      var recorded := Begin(id, started, model);
      var usage, actual, stop, failed := Consume(id, model, recorded, chunks);
      if recorded {
        var outcome := Errored;
        match end {
          case Cancelled => outcome := Interrupted;
          case Raised => outcome := Errored;
          case Exhausted => outcome := if failed then Errored else if HitsLimit(stop) then OutputLimit else Completed;
        }
        hide StatusOf, InputOf, MaxUsage, LastModel, LastStop, AnyError, HitsLimit;
        Finish(id, usage, outcome, stop, actual);
      }
    }
  }

  ghost predicate OthersKept(before: map<string, Entry>, after: map<string, Entry>, id: string) {
    forall x | x != id :: (x in before <==> x in after) && (x in before ==> after[x] == before[x])
  }

  /** A running row that shows these counts, under the model asked for or one a chunk named. */
  predicate StoredSoFar(e: Entry, usage: map<Field, nat>, model: string, actual: string) {
    e == WithUsage(NewEntry(e.model), usage, "") && (actual == "" ==> e.model == model)
  }

  function FinalEntry(chunks: seq<Chunk>, end: Ending, model: string): Entry {
    var entry := WithUsage(NewEntry(model), MaxUsage(chunks), LastModel(chunks));
    entry.(status := OutcomeOf(chunks, end), stop := LastStop(chunks))
  }

  /** Keep the larger of what was there and what is reported, field by field. */
  method RaiseCounts(usage: map<Field, nat>, reported: map<Field, nat>) returns (usage': map<Field, nat>, changed: bool)
    ensures forall f :: Look(usage', f) == Larger(Look(usage, f), Look(reported, f))
    ensures !changed ==> usage' == usage
  {
    usage', changed := usage, false;
    var i := 0;
    while i < |FIELDS|
      invariant i <= |FIELDS|
      invariant forall f ::
                  Look(usage', f)
                  == if f in FIELDS[..i] then Larger(Look(usage, f), Look(reported, f)) else Look(usage, f)
      invariant !changed ==> usage' == usage
    {
      var f := FIELDS[i];
      assert FIELDS[..i + 1] == FIELDS[..i] + [f];
      assert f !in FIELDS[..i];
      if f in reported && (f !in usage' || reported[f] > usage'[f]) {
        usage' := usage'[f := reported[f]];
        changed := true;
      }
      i := i + 1;
    }
    AllFields();
    assert FIELDS[..i] == FIELDS;
  }

  lemma {:induction false} AllFields()
    ensures forall f: Field :: f in FIELDS
  {
    forall f: Field ensures f in FIELDS {
      match f
      case TotalInput => assert FIELDS[0] == f;
      case Input => assert FIELDS[1] == f;
      case Output => assert FIELDS[2] == f;
      case TotalTokens => assert FIELDS[3] == f;
      case CacheRead => assert FIELDS[4] == f;
      case CacheWrite => assert FIELDS[5] == f;
      case Reasoning => assert FIELDS[6] == f;
    }
  }

  // ----- what the daily report makes of it -----

  function RowOf(e: Entry, started: int, project: Option<string>, provider: string): Row {
    Row(started, project, provider, e.model, Counted(e.input), Counted(e.output), Counted(e.total), e.usage, e.status)
  }

  function Counted(x: Option<nat>): Option<int> {
    if x.Some? then Some(x.value) else None
  }

  predicate Reports(chunks: seq<Chunk>, f: Field) {
    exists i | 0 <= i < |chunks| :: f in chunks[i].usage
  }

  /** A finished request counts as fully known in the daily report exactly when its stream ran
      out without an error chunk and reported both an input and an output count. */
  lemma {:induction false} KnownRequests(chunks: seq<Chunk>, end: Ending, model: string, started: int,
      project: Option<string>, provider: string)
    ensures !Unknown(RowOf(FinalEntry(chunks, end, model), started, project, provider)) <==>
              end == Exhausted && !AnyError(chunks)
              && (Reports(chunks, TotalInput) || Reports(chunks, Input)) && Reports(chunks, Output)
  {
    FieldMaxIsGreatest(chunks, TotalInput);
    FieldMaxIsGreatest(chunks, Input);
    FieldMaxIsGreatest(chunks, Output);
    hide FieldMax, LastModel, LastStop, HitsLimit, AnyError;
  }

  /** The tokens the report adds for it are the greatest total reported, or else the greatest
      input and output counts together. */
  lemma {:induction false} ReportedAmount(chunks: seq<Chunk>, end: Ending, model: string, started: int,
      project: Option<string>, provider: string)
    ensures Amount(RowOf(FinalEntry(chunks, end, model), started, project, provider)) ==
              var total, inputs := FieldMax(chunks, TotalTokens), FieldMax(chunks, TotalInput);
              if total.Some? then total.value
              else Known(if inputs.Some? then inputs else FieldMax(chunks, Input)) + Known(FieldMax(chunks, Output))
  {
    hide FieldMax, LastModel, LastStop, HitsLimit, AnyError;
  }

  function Known(x: Option<nat>): nat {
    if x.Some? then x.value else 0
  }

  // ----- what a finished row says -----

  /** The greatest count of this field any chunk reported, if any did. */
  ghost predicate Greatest(chunks: seq<Chunk>, f: Field, count: Option<nat>) {
    match count
    case Some(n) =>
      (exists i :: 0 <= i < |chunks| && f in chunks[i].usage && chunks[i].usage[f] == n)
      && forall i | 0 <= i < |chunks| && f in chunks[i].usage :: chunks[i].usage[f] <= n
    case None => forall i | 0 <= i < |chunks| :: f !in chunks[i].usage
  }

  /** The last of these texts that is not empty, or else the given one. */
  ghost predicate LastSaid(texts: seq<string>, otherwise: string, said: string) {
    if exists i :: 0 <= i < |texts| && texts[i] != "" then
      exists i :: 0 <= i < |texts| && texts[i] != "" && said == texts[i] && forall j | i < j < |texts| :: texts[j] == ""
    else said == otherwise
  }

  function Models(chunks: seq<Chunk>): seq<string> {
    seq(|chunks|, i requires 0 <= i < |chunks| => chunks[i].model)
  }

  function Stops(chunks: seq<Chunk>): seq<string> {
    seq(|chunks|, i requires 0 <= i < |chunks| => chunks[i].stop)
  }

  lemma {:induction false} MaxIsGreatest(chunks: seq<Chunk>, f: Field)
    ensures Greatest(chunks, f, Look(MaxUsage(chunks), f))
  {
    FieldMaxIsGreatest(chunks, f);
    assert Look(MaxUsage(chunks), f) == FieldMax(chunks, f);
    hide MaxUsage, FieldMax;
  }

  lemma {:induction false} LastOf(texts: seq<string>, r: string)
    requires LastSaid(texts, "", r)
    ensures r != "" <==> exists i :: 0 <= i < |texts| && texts[i] != ""
  {
  }

  lemma {:induction false} SaidLater(texts: seq<string>, last: string, otherwise: string, said: string)
    requires last == "" ==> LastSaid(texts, otherwise, said)
    requires last != "" ==> said == last
    ensures LastSaid(texts + [last], otherwise, said)
  {
    var all := texts + [last];
    if last != "" {
      assert all[|texts|] == last;
    } else if exists i :: 0 <= i < |texts| && texts[i] != "" {
      var i :| 0 <= i < |texts| && texts[i] != "" && said == texts[i] && forall j | i < j < |texts| :: texts[j] == "";
      assert all[i] == texts[i];
      assert forall j | i < j < |all| :: all[j] == "";
    } else {
      assert forall i | 0 <= i < |all| :: all[i] == "";
    }
  }

  lemma {:induction false} LastModelIs(chunks: seq<Chunk>)
    ensures LastSaid(Models(chunks), "", LastModel(chunks))
  {
    if chunks != [] {
      var n := |chunks| - 1;
      LastModelIs(chunks[..n]);
      assert Models(chunks) == Models(chunks[..n]) + [chunks[n].model];
      hide LastSaid, Models;
      SaidLater(Models(chunks[..n]), chunks[n].model, "", LastModel(chunks));
    }
  }

  lemma {:induction false} LastStopIs(chunks: seq<Chunk>)
    ensures LastSaid(Stops(chunks), "", LastStop(chunks))
  {
    if chunks != [] {
      var n := |chunks| - 1;
      LastStopIs(chunks[..n]);
      assert Stops(chunks) == Stops(chunks[..n]) + [chunks[n].stop];
      hide LastSaid, Stops;
      SaidLater(Stops(chunks[..n]), chunks[n].stop, "", LastStop(chunks));
    }
  }

  /** The row of a finished request: for every field the greatest count reported, the total input before the
      plain one; complete exactly if input and output were reported, missing exactly if nothing was; the last
      model and stop reason named; and how it ended. */
  lemma {:induction false} FinishedRowSays(chunks: seq<Chunk>, end: Ending, model: string)
    ensures var e := FinalEntry(chunks, end, model);
            && (if Reports(chunks, TotalInput) then Greatest(chunks, TotalInput, e.input)
                else Greatest(chunks, Input, e.input))
            && Greatest(chunks, Output, e.output) && Greatest(chunks, TotalTokens, e.total)
            && Greatest(chunks, CacheRead, e.cacheRead) && Greatest(chunks, CacheWrite, e.cacheWrite)
            && Greatest(chunks, Reasoning, e.reasoning)
            && (e.usage == Complete <==> e.input.Some? && e.output.Some?)
            && (e.usage == Missing <==> forall f: Field :: !Reports(chunks, f))
            && LastSaid(Models(chunks), model, e.model) && LastSaid(Stops(chunks), "", e.stop)
            && match end
               case Cancelled => e.status == Interrupted
               case Raised => e.status == Errored
               case Exhausted =>
                 e.status == if exists i :: 0 <= i < |chunks| && chunks[i].isError then Errored
                             else if e.stop == "max_tokens" || e.stop == "max_output_tokens" || e.stop == "length"
                             then OutputLimit else Completed
  {
    var e, usage := FinalEntry(chunks, end, model), MaxUsage(chunks);
    forall f: Field ensures Greatest(chunks, f, Look(usage, f)) && (f in usage <==> Reports(chunks, f)) {
      MaxIsGreatest(chunks, f);
    }
    LastModelIs(chunks);
    LastStopIs(chunks);
    LastOf(Models(chunks), LastModel(chunks));
    RowCounts(usage);
    RowNames(chunks, end, model);
    assert usage == map[] <==> forall f: Field :: f !in usage;
    hide Greatest, MaxUsage, LastModel, LastStop, WithUsage, FinalEntry, Models, Stops, Reports, LastSaid;
    SaidOtherwise(Models(chunks), LastModel(chunks), model, e.model);
    match end
    case Cancelled =>
    case Raised =>
    case Exhausted =>
  }

  lemma {:induction false} SaidOtherwise(texts: seq<string>, last: string, otherwise: string, said: string)
    requires LastSaid(texts, "", last) && said == if last != "" then last else otherwise
    ensures LastSaid(texts, otherwise, said)
  {
  }

  lemma {:induction false} RowCounts(usage: map<Field, nat>)
    ensures forall e: Entry, model: string ::
              var d := WithUsage(e, usage, model);
              && d.input == (if TotalInput in usage then Look(usage, TotalInput) else Look(usage, Input))
              && d.output == Look(usage, Output) && d.total == Look(usage, TotalTokens)
              && d.cacheRead == Look(usage, CacheRead) && d.cacheWrite == Look(usage, CacheWrite)
              && d.reasoning == Look(usage, Reasoning)
              && (d.usage == Complete <==> d.input.Some? && d.output.Some?) && (d.usage == Missing <==> usage == map[])
  {
  }

  lemma {:induction false} RowNames(chunks: seq<Chunk>, end: Ending, model: string)
    ensures var e := FinalEntry(chunks, end, model);
            && e == WithUsage(NewEntry(model), MaxUsage(chunks), LastModel(chunks)).(status := e.status, stop := e.stop)
            && e.stop == LastStop(chunks) && e.status == OutcomeOf(chunks, end)
            && e.model == if LastModel(chunks) != "" then LastModel(chunks) else model
  {
    hide LastModel, LastStop, MaxUsage;
  }
}
