/** The daily report of the usage ledger: the one pass over the rows agrees, total by total, with
    plain sums over the rows, and the report's own totals agree with each other. */
module UsageDaily {
  import opened Common

  datatype UsageStatus = Complete | Partial | Missing
  datatype Outcome = Running | Completed | OutputLimit | Errored | Interrupted

  datatype Row = Row(started: int, project: Option<string>, provider: string, modelId: string, input: Option<int>,
                     output: Option<int>, reported: Option<int>, usage: UsageStatus, status: Outcome)

  datatype Coverage = Unavailable | PartialCoverage | Full

  datatype Day = Day(input: int, output: int, total: Option<int>, requests: int, unknown: int, missing: int,
                     partial: int, coverage: Coverage)

  const UNKNOWN_MODEL: string := "未知模型"

  // ----- the calendar -----

  /** Midnights of the days asked for and the one after, in milliseconds. */
  ghost predicate Calendar(midnights: seq<int>) {
    2 <= |midnights| <= 367 && forall i, j | 0 <= i < j < |midnights| :: midnights[i] < midnights[j]
  }

  predicate InRange(midnights: seq<int>, t: int)
    requires |midnights| >= 2
  {
    midnights[0] <= t < midnights[|midnights| - 1]
  }

  /** The day an instant falls on. */
  function DayOf(midnights: seq<int>, t: int): (d: nat)
    requires |midnights| >= 2 && InRange(midnights, t)
    ensures d + 1 < |midnights| && midnights[d] <= t < midnights[d + 1]
  {
    if t < midnights[1] then 0 else 1 + DayOf(midnights[1..], t)
  }

  /** An instant of the range falls on a day exactly if the day's two midnights enclose it. */
  lemma {:induction false} DayIsUnique(midnights: seq<int>, t: int, d: nat)
    requires |midnights| >= 2 && forall i, j | 0 <= i < j < |midnights| :: midnights[i] < midnights[j]
    requires d + 1 < |midnights|
    ensures InRange(midnights, t) && DayOf(midnights, t) == d <==> midnights[d] <= t < midnights[d + 1]
  {
    assert midnights[0] <= midnights[d] && midnights[d + 1] <= midnights[|midnights| - 1];
    if d > 0 {
      assert midnights[0] < midnights[d] && midnights[1] <= midnights[d];
      DayIsUnique(midnights[1..], t, d - 1);
    }
  }

  // ----- plain sums -----

  function Reported(x: Option<int>): int {
    if x.Some? then x.value else 0
  }

  function Amount(r: Row): int {
    if r.reported.Some? then r.reported.value else Reported(r.input) + Reported(r.output)
  }

  function ModelKey(r: Row): string {
    r.provider + "/" + if r.modelId != "" then r.modelId else UNKNOWN_MODEL
  }

  predicate Unknown(r: Row) {
    r.usage != Complete || (r.status != Completed && r.status != OutputLimit)
  }

  datatype Measure = Inputs | Outputs | Tokens | Requests | Unknowns | Missings | Partials

  function Weight(m: Measure, r: Row): int {
    match m
    case Inputs => Reported(r.input)
    case Outputs => Reported(r.output)
    case Tokens => Amount(r)
    case Requests => 1
    case Unknowns => if Unknown(r) then 1 else 0
    case Missings => if Unknown(r) && r.usage == Missing then 1 else 0
    case Partials => if Unknown(r) && r.usage != Missing then 1 else 0
  }

  predicate Counts(midnights: seq<int>, day: Option<nat>, model: Option<string>, r: Row)
    requires |midnights| >= 2
  {
    && (day.Some? ==> InRange(midnights, r.started) && DayOf(midnights, r.started) == day.value)
    && (model.Some? ==> ModelKey(r) == model.value)
  }

  /** A measure summed over the rows of one day or of all, and of one model or of all. */
  function Sum(rows: seq<Row>, midnights: seq<int>, m: Measure, day: Option<nat>, model: Option<string>): int
    requires |midnights| >= 2
  {
    if rows == [] then 0
    else
      var last := rows[|rows| - 1];
      Sum(rows[..|rows| - 1], midnights, m, day, model)
      + if Counts(midnights, day, model, last) then Weight(m, last) else 0
  }

  lemma {:induction false} SumMore(rows: seq<Row>, r: Row, midnights: seq<int>, m: Measure, day: Option<nat>,
      model: Option<string>)
    requires |midnights| >= 2
    ensures Sum(rows + [r], midnights, m, day, model) ==
              Sum(rows, midnights, m, day, model) + if Counts(midnights, day, model, r) then Weight(m, r) else 0
  {
    assert (rows + [r])[..|rows|] == rows;
  }

  // ----- the report -----

  function DayRecord(rows: seq<Row>, midnights: seq<int>, d: nat): Day
    requires |midnights| >= 2
  {
    var requests := Sum(rows, midnights, Requests, Some(d), None);
    Day(Sum(rows, midnights, Inputs, Some(d), None), Sum(rows, midnights, Outputs, Some(d), None),
        if requests == 0 then None else Some(Sum(rows, midnights, Tokens, Some(d), None)), requests,
        Sum(rows, midnights, Unknowns, Some(d), None), Sum(rows, midnights, Missings, Some(d), None),
        Sum(rows, midnights, Partials, Some(d), None), Unavailable)
  }

  function Covered(day: Day, midnight: int, tracking: Option<int>): Day {
    var coverage := if day.unknown != 0 then PartialCoverage
                    else if tracking.None? || midnight < tracking.value then
                      if day.requests != 0 then PartialCoverage else Unavailable
                    else Full;
    day.(coverage := coverage, total := if coverage == Full && day.total.None? then Some(0) else day.total)
  }

  function ReportDay(rows: seq<Row>, midnights: seq<int>, tracking: Option<int>, d: nat): Day
    requires |midnights| >= 2 && d < |midnights|
  {
    Covered(DayRecord(rows, midnights, d), midnights[d], tracking)
  }

  /** One model's total and its point for each day; provider and model id are cut out of the key. */
  datatype Model = Model(key: string, provider: string, modelId: string, total: int, points: seq<Option<int>>)

  /** What stands before and behind the first slash. */
  function BeforeSlash(key: string): string {
    if key == "" || key[0] == '/' then "" else [key[0]] + BeforeSlash(key[1..])
  }

  function AfterSlash(key: string): string {
    if key == "" then "" else if key[0] == '/' then key[1..] else AfterSlash(key[1..])
  }

  datatype Summary = Summary(input: int, output: int, total: int, requests: int, unknown: int, missing: int,
                             partial: int)

  datatype Report = Report(days: seq<Day>, models: seq<Model>, summary: Summary)

  function ModelReport(rows: seq<Row>, midnights: seq<int>, tracking: Option<int>, key: string): Model
    requires |midnights| >= 2
  {
    Model(key, BeforeSlash(key), AfterSlash(key), Sum(rows, midnights, Tokens, None, Some(key)),
          seq(|midnights| - 1, d requires 0 <= d < |midnights| - 1 =>
            if ReportDay(rows, midnights, tracking, d).coverage == Unavailable then None
            else Some(Sum(rows, midnights, Tokens, Some(d), Some(key)))))
  }

  function Keys(rows: seq<Row>): set<string> {
    set r | r in rows :: ModelKey(r)
  }

  ghost predicate AllInRange(rows: seq<Row>, midnights: seq<int>)
    requires |midnights| >= 2
  {
    forall i | 0 <= i < |rows| :: InRange(midnights, rows[i].started)
  }

  /** What a day contributes to the summary. */
  function Field(m: Measure, d: Day): int {
    match m
    case Inputs => d.input
    case Outputs => d.output
    case Tokens => Reported(d.total)
    case Requests => d.requests
    case Unknowns => d.unknown
    case Missings => d.missing
    case Partials => d.partial
  }

  function SumDays(days: seq<Day>, m: Measure): int {
    if days == [] then 0 else SumDays(days[..|days| - 1], m) + Field(m, days[|days| - 1])
  }

  function SummaryOf(days: seq<Day>): Summary {
    Summary(SumDays(days, Inputs), SumDays(days, Outputs), SumDays(days, Tokens), SumDays(days, Requests),
            SumDays(days, Unknowns), SumDays(days, Missings), SumDays(days, Partials))
  }

  /** What the report must be: each day and each model its plain sums, each model once, and the
      summary the sums of the days. */
  ghost predicate IsReport(rows: seq<Row>, midnights: seq<int>, tracking: Option<int>, r: Report)
    requires |midnights| >= 2
  {
    && DaysRight(rows, midnights, tracking, r.days)
    && ModelsRight(rows, midnights, tracking, r.models)
    && r.summary == SummaryOf(r.days)
  }

  ghost predicate DaysRight(rows: seq<Row>, midnights: seq<int>, tracking: Option<int>, days: seq<Day>)
    requires |midnights| >= 2
  {
    |days| == |midnights| - 1 && forall d | 0 <= d < |days| :: days[d] == ReportDay(rows, midnights, tracking, d)
  }

  /** Every model with a row is reported, once, in the order of the keys. */
  ghost predicate ModelsRight(rows: seq<Row>, midnights: seq<int>, tracking: Option<int>, models: seq<Model>)
    requires |midnights| >= 2
  {
    ModelsFor(rows, midnights, tracking, models, Keys(rows)) && Ascending(ModelKeys(models))
  }

  ghost predicate ModelsFor(rows: seq<Row>, midnights: seq<int>, tracking: Option<int>, models: seq<Model>,
                            keys: set<string>)
    requires |midnights| >= 2
  {
    && (forall i | 0 <= i < |models| :: models[i] == ModelReport(rows, midnights, tracking, models[i].key))
    && (forall i, j | 0 <= i < j < |models| :: models[i].key != models[j].key)
    && (forall key :: key in keys <==> Listed(models, key))
  }

  ghost predicate Listed(models: seq<Model>, key: string) {
    exists i :: 0 <= i < |models| && models[i].key == key
  }

  function ModelKeys(models: seq<Model>): seq<string> {
    seq(|models|, i requires 0 <= i < |models| => models[i].key)
  }

  // ----- the order of the models -----

  /** Text in the order of its code points. */
  predicate Before(a: string, b: string) {
    b != "" && (a == "" || a[0] < b[0] || (a[0] == b[0] && Before(a[1..], b[1..])))
  }

  ghost predicate Ascending(keys: seq<string>) {
    forall i, j | 0 <= i < j < |keys| :: Before(keys[i], keys[j])
  }

  /** Exactly one of two different texts comes before the other. */
  lemma {:induction false} BeforeIsTotal(a: string, b: string)
    ensures Before(a, b) <==> a != b && !Before(b, a)
  {
    if a != "" && b != "" && a[0] == b[0] {
      BeforeIsTotal(a[1..], b[1..]);
      assert a == [a[0]] + a[1..] && b == [b[0]] + b[1..];
    }
  }

  lemma {:induction false} BeforeIsTransitive(a: string, b: string, c: string)
    requires Before(a, b) && Before(b, c)
    ensures Before(a, c)
  {
    if a != "" && a[0] == b[0] == c[0] {
      BeforeIsTransitive(a[1..], b[1..], c[1..]);
    }
  }

  lemma {:induction false} LastIsGreatest(keys: seq<string>, key: string)
    requires Ascending(keys) && key in keys
    ensures key == keys[|keys| - 1] || Before(key, keys[|keys| - 1])
  {
  }

  /** Only one sequence holds given texts in ascending order. */
  lemma {:induction false} AscendingIsUnique(a: seq<string>, b: seq<string>)
    requires Ascending(a) && Ascending(b) && forall key :: key in a <==> key in b
    ensures a == b
  {
    assert (|a| > 0 ==> a[0] in b) && (|b| > 0 ==> b[0] in a);
    if a != [] {
      var m, n := |a| - 1, |b| - 1;
      assert a[m] in b && b[n] in a;
      SameLast(a, b);
      forall key ensures key in a[..m] <==> key in b[..n] {
        WithoutLast(a, key);
        WithoutLast(b, key);
      }
      AscendingIsUnique(a[..m], b[..n]);
      assert a == a[..m] + [a[m]] && b == b[..n] + [b[n]];
    }
  }

  lemma {:induction false} SameLast(a: seq<string>, b: seq<string>)
    requires Ascending(a) && Ascending(b) && a != [] && b != [] && a[|a| - 1] in b && b[|b| - 1] in a
    ensures a[|a| - 1] == b[|b| - 1]
  {
    LastIsGreatest(a, b[|b| - 1]);
    LastIsGreatest(b, a[|a| - 1]);
    BeforeIsTotal(a[|a| - 1], b[|b| - 1]);
  }

  lemma {:induction false} WithoutLast(keys: seq<string>, key: string)
    requires Ascending(keys) && keys != []
    ensures key in keys[..|keys| - 1] <==> key in keys && key != keys[|keys| - 1]
  {
    var n := |keys| - 1;
    BeforeIsTotal(keys[n], keys[n]);
    assert keys == keys[..n] + [keys[n]];
  }

  /** The rows, the calendar and the start of tracking leave one report only, models and their order
      included. */
  lemma {:induction false} ReportIsUnique(rows: seq<Row>, midnights: seq<int>, tracking: Option<int>, r: Report,
                                          q: Report)
    requires |midnights| >= 2 && IsReport(rows, midnights, tracking, r) && IsReport(rows, midnights, tracking, q)
    ensures r == q
  {
    assert r.days == q.days by { hide ModelsRight, ReportDay; }
    hide ReportDay, DaysRight, ModelReport, Keys;
    SameKeys(r.models, q.models);
    forall i | 0 <= i < |r.models| ensures i < |q.models| && r.models[i] == q.models[i] {
      assert ModelKeys(r.models)[i] == ModelKeys(q.models)[i];
    }
  }

  lemma {:induction false} SameKeys(a: seq<Model>, b: seq<Model>)
    requires Ascending(ModelKeys(a)) && Ascending(ModelKeys(b)) && forall key :: Listed(a, key) <==> Listed(b, key)
    ensures ModelKeys(a) == ModelKeys(b) && |a| == |b|
  {
    forall key ensures key in ModelKeys(a) <==> key in ModelKeys(b) {
      ListedKey(a, key);
      ListedKey(b, key);
    }
    AscendingIsUnique(ModelKeys(a), ModelKeys(b));
    assert |ModelKeys(a)| == |a| && |ModelKeys(b)| == |b|;
  }

  lemma {:induction false} ListedKey(models: seq<Model>, key: string)
    ensures Listed(models, key) <==> key in ModelKeys(models)
  {
    if Listed(models, key) {
      var i :| 0 <= i < |models| && models[i].key == key;
      assert ModelKeys(models)[i] == key;
    }
    if key in ModelKeys(models) {
      var i :| 0 <= i < |ModelKeys(models)| && ModelKeys(models)[i] == key;
      assert models[i].key == key;
    }
  }

  // ----- the totals agree -----

  function SumOverDays(rows: seq<Row>, midnights: seq<int>, m: Measure, model: Option<string>, n: nat): int
    requires |midnights| >= 2
  {
    if n == 0 then 0
    else SumOverDays(rows, midnights, m, model, n - 1) + Sum(rows, midnights, m, Some(n - 1), model)
  }

  lemma {:induction false} DaysOfRow(rows: seq<Row>, r: Row, midnights: seq<int>, m: Measure, model: Option<string>,
      n: nat)
    requires |midnights| >= 2 && InRange(midnights, r.started)
    ensures SumOverDays(rows + [r], midnights, m, model, n) ==
              SumOverDays(rows, midnights, m, model, n)
              + if DayOf(midnights, r.started) < n && Counts(midnights, None, model, r) then Weight(m, r) else 0
  {
    hide Sum, Weight, DayOf, InRange, Counts;
    if n > 0 {
      DaysOfRow(rows, r, midnights, m, model, n - 1);
      SumMore(rows, r, midnights, m, Some(n - 1), model);
      CountsOnItsDay(r, midnights, model, n - 1);
    }
  }

  lemma {:induction false} CountsOnItsDay(r: Row, midnights: seq<int>, model: Option<string>, d: nat)
    requires |midnights| >= 2 && InRange(midnights, r.started)
    ensures Counts(midnights, Some(d), model, r)
            <==> DayOf(midnights, r.started) == d && Counts(midnights, None, model, r)
  {
    hide DayOf, InRange, ModelKey;
  }

  lemma {:induction false} NoRows(midnights: seq<int>, m: Measure, model: Option<string>, n: nat)
    requires |midnights| >= 2
    ensures SumOverDays([], midnights, m, model, n) == 0
  {
    if n > 0 {
      NoRows(midnights, m, model, n - 1);
    }
  }

  /** Summing day by day is summing over all rows: every row falls on exactly one of the days. */
  lemma {:induction false} DaysAddUp(rows: seq<Row>, midnights: seq<int>, m: Measure, model: Option<string>)
    requires |midnights| >= 2 && AllInRange(rows, midnights)
    ensures SumOverDays(rows, midnights, m, model, |midnights| - 1) == Sum(rows, midnights, m, None, model)
  {
    if rows == [] {
      NoRows(midnights, m, model, |midnights| - 1);
    } else {
      var init, last := rows[..|rows| - 1], rows[|rows| - 1];
      assert rows == init + [last];
      DaysAddUp(init, midnights, m, model);
      DaysOfRow(init, last, midnights, m, model, |midnights| - 1);
      hide SumOverDays, Weight, ModelKey;
    }
  }

  lemma {:induction false} NoRequestsNoTokens(rows: seq<Row>, midnights: seq<int>, m: Measure, day: Option<nat>,
      model: Option<string>)
    requires |midnights| >= 2
    ensures Sum(rows, midnights, Requests, day, None) >= 0
    ensures Sum(rows, midnights, Requests, day, None) == 0 ==> Sum(rows, midnights, m, day, model) == 0
  {
    if rows != [] {
      NoRequestsNoTokens(rows[..|rows| - 1], midnights, m, day, model);
    }
  }

  /** A day's reported figures are its plain sums; no tokens reported stands for none used. */
  lemma {:induction false} DayFields(rows: seq<Row>, midnights: seq<int>, tracking: Option<int>, d: nat, m: Measure)
    requires |midnights| >= 2 && d < |midnights|
    ensures Field(m, ReportDay(rows, midnights, tracking, d)) == Sum(rows, midnights, m, Some(d), None)
  {
    NoRequestsNoTokens(rows, midnights, Tokens, Some(d), None);
    hide Sum;
  }

  lemma {:induction false} DaysSummed(rows: seq<Row>, midnights: seq<int>, tracking: Option<int>, days: seq<Day>,
      m: Measure, n: nat)
    requires |midnights| >= 2 && DaysRight(rows, midnights, tracking, days) && n <= |days|
    ensures SumDays(days[..n], m) == SumOverDays(rows, midnights, m, None, n)
  {
    if n > 0 {
      DaysSummed(rows, midnights, tracking, days, m, n - 1);
      DayFields(rows, midnights, tracking, n - 1, m);
      assert days[..n][..n - 1] == days[..n - 1];
      hide Sum, ReportDay, Field;
    }
  }

  /** The summary of a report is a plain sum over the rows, for every figure. */
  lemma {:induction false} SummaryIsFold(rows: seq<Row>, midnights: seq<int>, tracking: Option<int>, r: Report,
      m: Measure)
    requires Calendar(midnights) && AllInRange(rows, midnights) && IsReport(rows, midnights, tracking, r)
    ensures SumDays(r.days, m) == Sum(rows, midnights, m, None, None)
    ensures r.summary.input == Sum(rows, midnights, Inputs, None, None)
    ensures r.summary.output == Sum(rows, midnights, Outputs, None, None)
    ensures r.summary.total == Sum(rows, midnights, Tokens, None, None)
    ensures r.summary.requests == |rows|
    ensures r.summary.unknown == Sum(rows, midnights, Unknowns, None, None)
    ensures r.summary.missing == Sum(rows, midnights, Missings, None, None)
    ensures r.summary.partial == Sum(rows, midnights, Partials, None, None)
  {
    CountRows(rows, midnights);
    forall k: Measure ensures SumDays(r.days, k) == Sum(rows, midnights, k, None, None) {
      SummaryField(rows, midnights, tracking, r, k);
    }
    hide SumDays, Sum, DaysRight, ModelsRight;
  }

  lemma {:induction false} SummaryField(rows: seq<Row>, midnights: seq<int>, tracking: Option<int>, r: Report,
      m: Measure)
    requires Calendar(midnights) && AllInRange(rows, midnights) && IsReport(rows, midnights, tracking, r)
    ensures SumDays(r.days, m) == Sum(rows, midnights, m, None, None)
  {
    DaysSummed(rows, midnights, tracking, r.days, m, |r.days|);
    assert r.days[..|r.days|] == r.days;
    DaysAddUp(rows, midnights, m, None);
    hide ModelsRight, SumDays, Sum, SumOverDays, ReportDay;
  }

  lemma {:induction false} CountRows(rows: seq<Row>, midnights: seq<int>)
    requires |midnights| >= 2
    ensures Sum(rows, midnights, Requests, None, None) == |rows|
  {
    if rows != [] {
      CountRows(rows[..|rows| - 1], midnights);
    }
  }

  function SumModels(models: seq<Model>): int {
    if models == [] then 0 else SumModels(models[..|models| - 1]) + models[|models| - 1].total
  }

  /** A measure summed over some models. */
  function SumOverKeys(rows: seq<Row>, midnights: seq<int>, m: Measure, keys: seq<string>): int
    requires |midnights| >= 2
  {
    if keys == [] then 0
    else SumOverKeys(rows, midnights, m, keys[..|keys| - 1]) + Sum(rows, midnights, m, None, Some(keys[|keys| - 1]))
  }

  lemma {:induction false} KeysOfRow(rows: seq<Row>, r: Row, midnights: seq<int>, m: Measure, keys: seq<string>)
    requires |midnights| >= 2 && Distinct(keys)
    ensures SumOverKeys(rows + [r], midnights, m, keys) ==
              SumOverKeys(rows, midnights, m, keys) + if ModelKey(r) in keys then Weight(m, r) else 0
  {
    if keys != [] {
      var n := |keys| - 1;
      KeysOfRow(rows, r, midnights, m, keys[..n]);
      SumMore(rows, r, midnights, m, None, Some(keys[n]));
      assert keys == keys[..n] + [keys[n]];
      hide Sum, Weight, ModelKey;
    }
  }

  lemma {:induction false} NoRowsByKey(midnights: seq<int>, m: Measure, keys: seq<string>)
    requires |midnights| >= 2
    ensures SumOverKeys([], midnights, m, keys) == 0
  {
    if keys != [] {
      NoRowsByKey(midnights, m, keys[..|keys| - 1]);
    }
  }

  /** Summing model by model is summing over all rows. */
  lemma {:induction false} ModelsAddUp(rows: seq<Row>, midnights: seq<int>, m: Measure, keys: seq<string>)
    requires |midnights| >= 2 && Distinct(keys) && forall r | r in rows :: ModelKey(r) in keys
    ensures SumOverKeys(rows, midnights, m, keys) == Sum(rows, midnights, m, None, None)
  {
    if rows == [] {
      NoRowsByKey(midnights, m, keys);
    } else {
      var init, last := rows[..|rows| - 1], rows[|rows| - 1];
      assert rows == init + [last];
      ModelsAddUp(init, midnights, m, keys);
      KeysOfRow(init, last, midnights, m, keys);
      assert last in rows;
      hide SumOverKeys, Weight, ModelKey;
    }
  }

  lemma {:induction false} ModelTotals(rows: seq<Row>, midnights: seq<int>, models: seq<Model>)
    requires |midnights| >= 2
    requires forall i | 0 <= i < |models| :: models[i].total == Sum(rows, midnights, Tokens, None, Some(models[i].key))
    ensures SumModels(models) == SumOverKeys(rows, midnights, Tokens, ModelKeys(models))
  {
    if models != [] {
      var n := |models| - 1;
      ModelTotals(rows, midnights, models[..n]);
      assert ModelKeys(models)[..n] == ModelKeys(models[..n]);
      hide Sum;
    }
  }

  /** The models' totals add up to the summary's total. */
  lemma {:induction false} ModelsSumToTotal(rows: seq<Row>, midnights: seq<int>, tracking: Option<int>, r: Report)
    requires Calendar(midnights) && AllInRange(rows, midnights) && IsReport(rows, midnights, tracking, r)
    ensures SumModels(r.models) == r.summary.total
  {
    SummaryField(rows, midnights, tracking, r, Tokens);
    var keys := ModelKeys(r.models);
    forall i | 0 <= i < |r.models|
      ensures r.models[i].total == Sum(rows, midnights, Tokens, None, Some(r.models[i].key))
    {
      assert r.models[i] == ModelReport(rows, midnights, tracking, r.models[i].key);
    }
    ModelTotals(rows, midnights, r.models);
    hide Sum, SumOverKeys, SumModels, SumDays, DaysRight, ModelReport, ModelKey;
    forall row | row in rows ensures ModelKey(row) in keys {
      assert ModelKey(row) in Keys(rows);
      assert Listed(r.models, ModelKey(row));
      var i :| 0 <= i < |r.models| && r.models[i].key == ModelKey(row);
      assert keys[i] == ModelKey(row);
    }
    ModelsAddUp(rows, midnights, Tokens, keys);
  }

  function Points(points: seq<Option<int>>): int {
    if points == [] then 0 else Points(points[..|points| - 1]) + Reported(points[|points| - 1])
  }

  lemma {:induction false} PointAt(rows: seq<Row>, midnights: seq<int>, tracking: Option<int>, key: string, d: nat)
    requires |midnights| >= 2 && d < |midnights| - 1
    ensures Reported(ModelReport(rows, midnights, tracking, key).points[d])
            == Sum(rows, midnights, Tokens, Some(d), Some(key))
  {
    NoRequestsNoTokens(rows, midnights, Tokens, Some(d), Some(key));
    NoRequestsNoTokens(rows, midnights, Unknowns, Some(d), None);
    hide Sum;
  }

  lemma {:induction false} PointsAreDays(rows: seq<Row>, midnights: seq<int>, tracking: Option<int>, key: string,
                                         points: seq<Option<int>>, n: nat)
    requires |midnights| >= 2 && n < |midnights| && points == ModelReport(rows, midnights, tracking, key).points
    ensures Points(points[..n]) == SumOverDays(rows, midnights, Tokens, Some(key), n)
  {
    if n > 0 {
      PointsAreDays(rows, midnights, tracking, key, points, n - 1);
      assert points[..n][..n - 1] == points[..n - 1];
      PointAt(rows, midnights, tracking, key, n - 1);
      hide Sum, ReportDay;
    }
  }

  /** A model's points add up to its total: a day whose point is left out had no requests. */
  lemma {:induction false} PointsSumToModel(rows: seq<Row>, midnights: seq<int>, tracking: Option<int>, model: Model)
    requires Calendar(midnights) && AllInRange(rows, midnights)
    requires model == ModelReport(rows, midnights, tracking, model.key)
    ensures Points(model.points) == model.total
  {
    var n := |midnights| - 1;
    assert model.total == Sum(rows, midnights, Tokens, None, Some(model.key)) && |model.points| == n;
    PointsAreDays(rows, midnights, tracking, model.key, model.points, n);
    DaysAddUp(rows, midnights, Tokens, Some(model.key));
    hide Sum, SumOverDays, Points, ModelReport;
    assert model.points[..n] == model.points;
  }

  lemma {:induction false} UnknownSplits(rows: seq<Row>, midnights: seq<int>, day: Option<nat>)
    requires |midnights| >= 2
    ensures Sum(rows, midnights, Unknowns, day, None) >= 0
    ensures Sum(rows, midnights, Missings, day, None) + Sum(rows, midnights, Partials, day, None)
            == Sum(rows, midnights, Unknowns, day, None) <= Sum(rows, midnights, Requests, day, None)
  {
    if rows != [] {
      UnknownSplits(rows[..|rows| - 1], midnights, day);
    }
  }

  /** On every day the missing and the partial requests are the unknown ones; a day with requests
      is never called unavailable; a day called complete has no unknown request, lies after
      tracking began and shows a total. */
  lemma {:induction false} DaysAreConsistent(rows: seq<Row>, midnights: seq<int>, tracking: Option<int>, d: nat)
    requires |midnights| >= 2 && d < |midnights|
    ensures var day := ReportDay(rows, midnights, tracking, d);
            && day.missing + day.partial == day.unknown <= day.requests
            && (day.requests > 0 ==> day.coverage != Unavailable && day.total.Some?)
            && (day.coverage == Full <==> day.unknown == 0 && tracking.Some? && tracking.value <= midnights[d])
            && (day.total.None? <==> day.requests == 0 && day.coverage == Unavailable)
  {
    UnknownSplits(rows, midnights, Some(d));
    hide Sum;
  }
}
