/** The loops of the daily report, proved to build what the plain sums say. */
module UsageReport {
  import opened Common
  import opened UsageDaily

  const EMPTY_DAY := Day(0, 0, None, 0, 0, 0, 0, Unavailable)

  function Get(m: map<nat, int>, d: nat): int {
    if d in m then m[d] else 0
  }

  function Total(m: map<string, int>, key: string): int {
    if key in m then m[key] else 0
  }

  function Point(m: map<string, map<nat, int>>, key: string, d: nat): int {
    if key in m then Get(m[key], d) else 0
  }

  /** What one row adds to its day. */
  function AddRow(day: Day, r: Row): Day {
    day.(input := day.input + Reported(r.input), output := day.output + Reported(r.output),
         total := Some(Reported(day.total) + Amount(r)), requests := day.requests + 1,
         unknown := day.unknown + Weight(Unknowns, r), missing := day.missing + Weight(Missings, r),
         partial := day.partial + Weight(Partials, r))
  }

  ghost predicate DaysSoFar(rows: seq<Row>, midnights: seq<int>, days: seq<Day>)
    requires |midnights| >= 2
  {
    |days| == |midnights| - 1 && forall d | 0 <= d < |days| :: days[d] == DayRecord(rows, midnights, d)
  }

  ghost predicate ModelsSoFar(rows: seq<Row>, midnights: seq<int>, byModel: map<string, map<nat, int>>,
      totals: map<string, int>)
    requires |midnights| >= 2
  {
    && totals.Keys == byModel.Keys == Keys(rows)
    && (forall key :: Total(totals, key) == Sum(rows, midnights, Tokens, None, Some(key)))
    && (forall key, d: nat :: Point(byModel, key, d) == Sum(rows, midnights, Tokens, Some(d), Some(key)))
  }

  lemma {:induction false} SameDay(rows: seq<Row>, r: Row, midnights: seq<int>, d: nat)
    requires |midnights| >= 2 && InRange(midnights, r.started)
    ensures DayRecord(rows + [r], midnights, d) ==
              if d == DayOf(midnights, r.started) then AddRow(DayRecord(rows, midnights, d), r)
              else DayRecord(rows, midnights, d)
  {
    SumMore(rows, r, midnights, Inputs, Some(d), None);
    SumMore(rows, r, midnights, Outputs, Some(d), None);
    SumMore(rows, r, midnights, Tokens, Some(d), None);
    SumMore(rows, r, midnights, Requests, Some(d), None);
    SumMore(rows, r, midnights, Unknowns, Some(d), None);
    SumMore(rows, r, midnights, Missings, Some(d), None);
    SumMore(rows, r, midnights, Partials, Some(d), None);
    NoRequestsNoTokens(rows, midnights, Tokens, Some(d), None);
    hide Sum, Amount;
  }

  lemma {:induction false} DaysMore(rows: seq<Row>, r: Row, midnights: seq<int>, days: seq<Day>)
    requires |midnights| >= 2 && InRange(midnights, r.started) && DaysSoFar(rows, midnights, days)
    ensures var d := DayOf(midnights, r.started); DaysSoFar(rows + [r], midnights, days[d := AddRow(days[d], r)])
  {
    forall d | 0 <= d < |days|
      ensures DayRecord(rows + [r], midnights, d) ==
                if d == DayOf(midnights, r.started) then AddRow(days[d], r) else days[d]
    {
      SameDay(rows, r, midnights, d);
    }
    hide DayRecord, AddRow, InRange;
  }

  lemma {:induction false} KeysMore(rows: seq<Row>, r: Row)
    ensures Keys(rows + [r]) == Keys(rows) + {ModelKey(r)}
  {
    hide ModelKey;
    forall key ensures key in Keys(rows + [r]) <==> key in Keys(rows) + {ModelKey(r)} {
      if key in Keys(rows) {
        var x :| x in rows && ModelKey(x) == key;
        assert x in rows + [r];
      }
      if key == ModelKey(r) {
        assert (rows + [r])[|rows|] == r;
      }
    }
  }

  function AddTotal(totals: map<string, int>, key: string, amount: int): map<string, int> {
    totals[key := Total(totals, key) + amount]
  }

  function AddPoint(byModel: map<string, map<nat, int>>, key: string, d: nat, amount: int): map<string, map<nat, int>> {
    var points := if key in byModel then byModel[key] else map[];
    byModel[key := points[d := Get(points, d) + amount]]
  }

  lemma {:induction false} Added(byModel: map<string, map<nat, int>>, totals: map<string, int>, key: string, d: nat,
      amount: int, k: string, e: nat)
    ensures Total(AddTotal(totals, key, amount), k) == Total(totals, k) + if k == key then amount else 0
    ensures Point(AddPoint(byModel, key, d, amount), k, e) ==
              Point(byModel, k, e) + if k == key && e == d then amount else 0
    ensures AddTotal(totals, key, amount).Keys == totals.Keys + {key}
    ensures AddPoint(byModel, key, d, amount).Keys == byModel.Keys + {key}
  {
  }

  lemma {:induction false} ModelsMore(rows: seq<Row>, r: Row, midnights: seq<int>, byModel: map<string, map<nat,
      int>>, totals: map<string, int>)
    requires |midnights| >= 2 && InRange(midnights, r.started) && ModelsSoFar(rows, midnights, byModel, totals)
    ensures ModelsSoFar(rows + [r], midnights, AddPoint(byModel, ModelKey(r), DayOf(midnights, r.started), Amount(r)),
                        AddTotal(totals, ModelKey(r), Amount(r)))
  {
    KeysMore(rows, r);
    var key, d := ModelKey(r), DayOf(midnights, r.started);
    var byModel', totals' := AddPoint(byModel, key, d, Amount(r)), AddTotal(totals, key, Amount(r));
    Added(byModel, totals, key, d, Amount(r), key, d);
    hide ModelKey, Keys, Amount, AddPoint, AddTotal, Total, Point;
    forall k ensures Total(totals', k) == Sum(rows + [r], midnights, Tokens, None, Some(k)) {
      SumMore(rows, r, midnights, Tokens, None, Some(k));
      Added(byModel, totals, key, d, Amount(r), k, d);
      hide Sum;
    }
    forall k, e: nat ensures Point(byModel', k, e) == Sum(rows + [r], midnights, Tokens, Some(e), Some(k)) {
      SumMore(rows, r, midnights, Tokens, Some(e), Some(k));
      Added(byModel, totals, key, d, Amount(r), k, e);
      hide Sum;
    }
  }

  /** The one pass over the rows. */
  method Aggregate(rows: seq<Row>, midnights: seq<int>)
    returns (days: seq<Day>, byModel: map<string, map<nat, int>>, totals: map<string, int>)
    requires Calendar(midnights) && AllInRange(rows, midnights)
    ensures DaysSoFar(rows, midnights, days) && ModelsSoFar(rows, midnights, byModel, totals)
  {
    days := EmptyDays(midnights);
    byModel, totals := map[], map[];
    var i := 0;
    assert rows[..0] == [];
    while i < |rows|
      invariant i <= |rows|
      invariant DaysSoFar(rows[..i], midnights, days) && ModelsSoFar(rows[..i], midnights, byModel, totals)
    {
      assert InRange(midnights, rows[i].started);
      hide DaysSoFar, ModelsSoFar, AllInRange, InRange, Calendar;
      assert rows[..i + 1] == rows[..i] + [rows[i]];
      days, byModel, totals := AggregateRow(rows[..i], rows[i], midnights, days, byModel, totals);
      i := i + 1;
    }
    assert rows[..i] == rows;
  }

  method AggregateRow(ghost before: seq<Row>, r: Row, midnights: seq<int>, days: seq<Day>,
                      byModel: map<string, map<nat, int>>, totals: map<string, int>)
    returns (days': seq<Day>, byModel': map<string, map<nat, int>>, totals': map<string, int>)
    requires |midnights| >= 2 && InRange(midnights, r.started)
    requires DaysSoFar(before, midnights, days) && ModelsSoFar(before, midnights, byModel, totals)
    ensures DaysSoFar(before + [r], midnights, days') && ModelsSoFar(before + [r], midnights, byModel', totals')
  {
    DayCount(before, midnights, days);
    DaysMore(before, r, midnights, days);
    ModelsMore(before, r, midnights, byModel, totals);
    hide DaysSoFar, ModelsSoFar, ModelKey, AddRow, AddPoint, AddTotal, Amount;
    var d := DayOf(midnights, r.started);
    days' := CountRow(days, d, r);
    byModel', totals' := CountModel(byModel, totals, ModelKey(r), d, Amount(r));
  }

  lemma {:induction false} DayCount(rows: seq<Row>, midnights: seq<int>, days: seq<Day>)
    requires |midnights| >= 2 && DaysSoFar(rows, midnights, days)
    ensures |days| == |midnights| - 1
  {
  }

  method EmptyDays(midnights: seq<int>) returns (days: seq<Day>)
    requires Calendar(midnights)
    ensures DaysSoFar([], midnights, days)
  {
    days := [];
    while |days| < |midnights| - 1
      invariant |days| <= |midnights| - 1 && forall d | 0 <= d < |days| :: days[d] == EMPTY_DAY
    {
      days := days + [EMPTY_DAY];
    }
  }

  method CountRow(days: seq<Day>, d: nat, r: Row) returns (days': seq<Day>)
    requires d < |days|
    ensures days' == days[d := AddRow(days[d], r)]
  {
    var day := days[d].(requests := days[d].requests + 1);
    if Unknown(r) {
      day := day.(unknown := day.unknown + 1);
      if r.usage == Missing {
        day := day.(missing := day.missing + 1);
      } else {
        day := day.(partial := day.partial + 1);
      }
    }
    day := day.(input := day.input + Reported(r.input), output := day.output + Reported(r.output),
                total := Some(Reported(day.total) + Amount(r)));
    days' := days[d := day];
  }

  method CountModel(byModel: map<string, map<nat, int>>, totals: map<string, int>, key: string, d: nat, amount: int)
    returns (byModel': map<string, map<nat, int>>, totals': map<string, int>)
    ensures byModel' == AddPoint(byModel, key, d, amount) && totals' == AddTotal(totals, key, amount)
  {
    var points := if key in byModel then byModel[key] else map[];
    points := points[d := Get(points, d) + amount];
    byModel' := byModel[key := points];
    totals' := totals[key := Total(totals, key) + amount];
  }

  method Cover(rows: seq<Row>, midnights: seq<int>, tracking: Option<int>, days: seq<Day>) returns (covered: seq<Day>)
    requires Calendar(midnights) && DaysSoFar(rows, midnights, days)
    ensures DaysRight(rows, midnights, tracking, covered)
  {
    covered := [];
    hide DayRecord;
    while |covered| < |days|
      invariant |covered| <= |days|
      invariant forall d | 0 <= d < |covered| :: covered[d] == Covered(days[d], midnights[d], tracking)
    {
      var day := days[|covered|];
      if day.unknown != 0 {
        day := day.(coverage := PartialCoverage);
      } else if tracking.None? || midnights[|covered|] < tracking.value {
        day := day.(coverage := if day.requests != 0 then PartialCoverage else Unavailable);
      } else {
        day := day.(coverage := Full);
      }
      if day.coverage == Full && day.total.None? {
        day := day.(total := Some(0));
      }
      covered := covered + [day];
    }
  }

  method PointsFor(days: seq<Day>, points: map<nat, int>) returns (r: seq<Option<int>>)
    ensures r == seq(|days|, d requires 0 <= d < |days| =>
                       if days[d].coverage == Unavailable then None else Some(Get(points, d)))
  {
    r := [];
    while |r| < |days|
      invariant |r| <= |days|
      invariant forall d | 0 <= d < |r| ::
                  r[d] == if days[d].coverage == Unavailable then None else Some(Get(points, d))
    {
      r := r + [if days[|r|].coverage == Unavailable then None else Some(Get(points, |r|))];
    }
  }

  lemma {:induction false} ModelBuilt(rows: seq<Row>, midnights: seq<int>, tracking: Option<int>, days: seq<Day>,
                   byModel: map<string, map<nat, int>>, totals: map<string, int>, key: string, points: seq<Option<int>>)
    requires |midnights| >= 2 && DaysRight(rows, midnights, tracking, days)
             && ModelsSoFar(rows, midnights, byModel, totals)
    requires key in byModel && key in totals && |points| == |days|
    requires forall d | 0 <= d < |days| ::
               points[d] == if days[d].coverage == Unavailable then None else Some(Get(byModel[key], d))
    ensures Model(key, BeforeSlash(key), AfterSlash(key), totals[key], points)
            == ModelReport(rows, midnights, tracking, key)
  {
    assert Total(totals, key) == Sum(rows, midnights, Tokens, None, Some(key));
    forall d | 0 <= d < |days|
      ensures points[d] == ModelReport(rows, midnights, tracking, key).points[d]
    {
      assert Point(byModel, key, d) == Sum(rows, midnights, Tokens, Some(d), Some(key));
      hide Sum, ReportDay;
    }
    hide Sum, ReportDay, Get;
  }

  method BuildModels(rows: seq<Row>, midnights: seq<int>, tracking: Option<int>, days: seq<Day>,
                     byModel: map<string, map<nat, int>>, totals: map<string, int>) returns (models: seq<Model>)
    requires Calendar(midnights) && DaysRight(rows, midnights, tracking, days)
    requires ModelsSoFar(rows, midnights, byModel, totals)
    ensures ModelsRight(rows, midnights, tracking, models)
  {
    models := [];
    var rest := byModel.Keys;
    ghost var done: set<string> := {};
    while rest != {}
      invariant rest + done == byModel.Keys && rest !! done
      invariant ModelsFor(rows, midnights, tracking, models, done) && Ascending(ModelKeys(models))
      invariant forall a, b | a in done && b in rest :: Before(a, b)
      decreases rest
    {
      hide ModelsFor, DaysRight, ModelsSoFar, Calendar, ModelReport, Ascending, Before, ModelKeys;
      var key := LeastKey(rest);
      var model := BuildModel(rows, midnights, tracking, days, byModel, totals, key);
      OneMoreModel(rows, midnights, tracking, models, done, model);
      models := models + [model];
      rest, done := rest - {key}, done + {key};
    }
  }

  lemma {:induction false} OneMoreModel(rows: seq<Row>, midnights: seq<int>, tracking: Option<int>, models: seq<Model>,
      done: set<string>, model: Model)
    requires |midnights| >= 2 && ModelsFor(rows, midnights, tracking, models, done) && model.key !in done
    requires model == ModelReport(rows, midnights, tracking, model.key)
    requires Ascending(ModelKeys(models)) && forall a | a in done :: Before(a, model.key)
    ensures ModelsFor(rows, midnights, tracking, models + [model], done + {model.key})
    ensures Ascending(ModelKeys(models + [model]))
  {
    hide ModelReport, Before;
    forall i | 0 <= i < |models| ensures Before(ModelKeys(models)[i], model.key) {
      assert Listed(models, models[i].key);
    }
    ListMore(models, model);
    assert ModelKeys(models + [model]) == ModelKeys(models) + [model.key];
    hide Listed;
  }

  /** The next key in order. */
  method LeastKey(keys: set<string>) returns (least: string)
    requires keys != {}
    ensures least in keys && forall key | key in keys && key != least :: Before(least, key)
  {
    hide Before;
    least :| least in keys;
    var left := keys - {least};
    while left != {}
      invariant left <= keys && least in keys && least !in left
      invariant forall key | key in keys && key !in left && key != least :: Before(least, key)
      decreases left
    {
      var key :| key in left;
      BeforeIsTotal(least, key);
      left := left - {key};
      if Before(key, least) {
        LeastSoFar(keys - left, least, key);
        least := key;
      }
    }
  }

  lemma {:induction false} LeastSoFar(seen: set<string>, least: string, key: string)
    requires Before(key, least) && forall k | k in seen && k != least && k != key :: Before(least, k)
    ensures forall k | k in seen && k != key :: Before(key, k)
  {
    hide Before;
    forall k | k in seen && k != key ensures Before(key, k) {
      if k != least {
        BeforeIsTransitive(key, least, k);
      }
    }
  }

  method BuildModel(rows: seq<Row>, midnights: seq<int>, tracking: Option<int>, days: seq<Day>,
                    byModel: map<string, map<nat, int>>, totals: map<string, int>, key: string) returns (model: Model)
    requires |midnights| >= 2 && DaysRight(rows, midnights, tracking, days)
    requires ModelsSoFar(rows, midnights, byModel, totals) && key in byModel
    ensures model == ModelReport(rows, midnights, tracking, key) && model.key == key
  {
    assert key in totals.Keys;
    var points := PointsFor(days, byModel[key]);
    hide ModelReport, DaysRight, Keys;
    ModelBuilt(rows, midnights, tracking, days, byModel, totals, key, points);
    model := Model(key, BeforeSlash(key), AfterSlash(key), totals[key], points);
  }

  lemma {:induction false} ListMore(models: seq<Model>, m: Model)
    ensures forall key :: Listed(models + [m], key) <==> Listed(models, key) || key == m.key
    ensures Listed(models, m.key) || forall i | 0 <= i < |models| :: models[i].key != m.key
  {
    forall key ensures Listed(models + [m], key) <==> Listed(models, key) || key == m.key {
      if Listed(models, key) {
        var i :| 0 <= i < |models| && models[i].key == key;
        assert (models + [m])[i].key == key;
      }
      if key == m.key {
        assert (models + [m])[|models|].key == key;
      }
    }
  }

  method Summarize(days: seq<Day>) returns (s: Summary)
    ensures s == SummaryOf(days)
  {
    s := Summary(0, 0, 0, 0, 0, 0, 0);
    var i := 0;
    while i < |days|
      invariant i <= |days| && s == SummaryOf(days[..i])
    {
      var d := days[i];
      assert days[..i + 1][..i] == days[..i];
      s := Summary(s.input + d.input, s.output + d.output, s.total + Reported(d.total), s.requests + d.requests,
                   s.unknown + d.unknown, s.missing + d.missing, s.partial + d.partial);
      i := i + 1;
    }
    assert days[..i] == days;
  }

  method Build(rows: seq<Row>, midnights: seq<int>, tracking: Option<int>) returns (r: Report)
    requires Calendar(midnights) && AllInRange(rows, midnights)
    ensures IsReport(rows, midnights, tracking, r)
  {
    var days, byModel, totals := Aggregate(rows, midnights);
    days := Cover(rows, midnights, tracking, days);
    var models := BuildModels(rows, midnights, tracking, days, byModel, totals);
    var summary := Summarize(days);
    r := Report(days, models, summary);
  }

  // ----- the query -----

  /** The rows of the ledger that started in the range, of one project or of all. */
  function Selected(rows: seq<Row>, lower: int, upper: int, project: Option<string>): (r: seq<Row>)
    ensures forall x | x in r :: x in rows && lower <= x.started < upper && (project.Some? ==> x.project == project)
    ensures forall x :: multiset(r)[x] == if lower <= x.started < upper && (project.Some? ==> x.project == project)
                                          then multiset(rows)[x] else 0
  {
    if rows == [] then []
    else
      assert rows == rows[..|rows| - 1] + [rows[|rows| - 1]];
      var r, last := Selected(rows[..|rows| - 1], lower, upper, project), rows[|rows| - 1];
      if lower <= last.started < upper && (project.Some? ==> last.project == project) then r + [last] else r
  }

  /** Midnights grow with the days. */
  ghost predicate Growing(midnight: int -> int) {
    forall i, j | i < j :: midnight(i) < midnight(j)
  }

  function Midnights(midnight: int -> int, start: int, days: nat): seq<int> {
    seq(days + 1, i requires 0 <= i <= days => midnight(start + i))
  }

  /** The report for the days from start to end; a range that is empty or longer than 366 days is
      an error. */
  method Daily(ledger: seq<Row>, midnight: int -> int, start: int, end: int, project: Option<string>,
      tracking: Option<int>)
    returns (r: Option<Report>)
    requires Growing(midnight)
    ensures r.None? <==> end < start || end - start >= 366
    ensures r.Some? ==> var midnights := Midnights(midnight, start, end - start + 1);
                        var rows := Selected(ledger, midnight(start), midnight(end + 1), project);
                        && Calendar(midnights) && AllInRange(rows, midnights)
                        && IsReport(rows, midnights, tracking, r.value)
  {
    if end < start || end - start >= 366 {
      return None;
    }
    var midnights := Midnights(midnight, start, end - start + 1);
    var rows := Selected(ledger, midnight(start), midnight(end + 1), project);
    assert forall i | 0 <= i < |rows| :: rows[i] in rows;
    var report := Build(rows, midnights, tracking);
    r := Some(report);
  }
}
