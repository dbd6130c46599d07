/** Which rows of the ledger a model of the daily report stands for. */
module UsageModels {
  import opened Common
  import opened UsageDaily

  // ----- cutting a key -----

  lemma {:induction false} CutOfJoined(provider: string, name: string)
    requires '/' !in provider
    ensures BeforeSlash(provider + "/" + name) == provider && AfterSlash(provider + "/" + name) == name
  {
    var key := provider + "/" + name;
    if provider == "" {
      assert key[1..] == name;
    } else {
      CutOfJoined(provider[1..], name);
      assert key[1..] == provider[1..] + "/" + name;
      assert provider == [provider[0]] + provider[1..];
    }
  }

  lemma {:induction false} NoSlashBefore(key: string)
    ensures '/' !in BeforeSlash(key)
  {
    if key != "" && key[0] != '/' {
      NoSlashBefore(key[1..]);
    }
  }

  /** The report shows the provider of a row if and only if its name has no slash, and then it
      shows its model id too, a missing one by its stand-in. */
  lemma {:induction false} CutGivesBackIff(r: Row)
    ensures BeforeSlash(ModelKey(r)) == r.provider <==> '/' !in r.provider
    ensures '/' !in r.provider ==> AfterSlash(ModelKey(r)) == if r.modelId == "" then "未知模型" else r.modelId
  {
    NoSlashBefore(ModelKey(r));
    if '/' !in r.provider {
      CutOfJoined(r.provider, if r.modelId != "" then r.modelId else UNKNOWN_MODEL);
    }
  }

  /** Rows of the same provider and model id, a missing id being that of the stand-in. */
  predicate SameModel(a: Row, b: Row) {
    a.provider == b.provider
    && (if a.modelId == "" then "未知模型" else a.modelId)
       == (if b.modelId == "" then "未知模型" else b.modelId)
  }

  /** Two rows fall to one model exactly if they have the same provider and model id. */
  lemma {:induction false} SameKeyIff(a: Row, b: Row)
    requires '/' !in a.provider && '/' !in b.provider
    ensures ModelKey(a) == ModelKey(b) <==> SameModel(a, b)
  {
    CutGivesBackIff(a);
    CutGivesBackIff(b);
    hide BeforeSlash, AfterSlash;
  }

  // ----- the models of a report -----

  /** The row is one of the model's. */
  predicate IsOf(r: Row, m: Model) {
    r.provider == m.provider && (if r.modelId == "" then "未知模型" else r.modelId) == m.modelId
  }

  /** What the model's rows used together: the reported total of each, or else its input and output. */
  function TokensOf(rows: seq<Row>, m: Model): int {
    if rows == [] then 0
    else
      var r := rows[|rows| - 1];
      TokensOf(rows[..|rows| - 1], m)
      + if !IsOf(r, m) then 0
        else match r.reported
             case Some(total) => total
             case None => (if r.input.Some? then r.input.value else 0) + (if r.output.Some? then r.output.value else 0)
  }

  ghost predicate PlainProviders(rows: seq<Row>) {
    forall i | 0 <= i < |rows| :: '/' !in rows[i].provider
  }

  lemma {:induction false} KeyIsOf(r: Row, m: Model, row: Row)
    requires '/' !in r.provider && '/' !in row.provider && m.key == ModelKey(row)
    requires m.provider == BeforeSlash(m.key) && m.modelId == AfterSlash(m.key)
    ensures IsOf(r, m) <==> ModelKey(r) == m.key
  {
    SameKeyIff(r, row);
    CutGivesBackIff(row);
    hide BeforeSlash, AfterSlash, ModelKey;
  }

  lemma {:induction false} TotalIsTokens(rows: seq<Row>, midnights: seq<int>, m: Model, row: Row)
    requires |midnights| >= 2 && PlainProviders(rows) && '/' !in row.provider && m.key == ModelKey(row)
    requires m.provider == BeforeSlash(m.key) && m.modelId == AfterSlash(m.key)
    ensures Sum(rows, midnights, Tokens, None, Some(m.key)) == TokensOf(rows, m)
  {
    if rows != [] {
      var n := |rows| - 1;
      assert PlainProviders(rows[..n]) by { assert forall i | 0 <= i < n :: rows[..n][i] == rows[i]; }
      TotalIsTokens(rows[..n], midnights, m, row);
      KeyIsOf(rows[n], m, row);
      hide IsOf, ModelKey, BeforeSlash, AfterSlash, PlainProviders;
    }
  }

  /** In every report over providers without a slash: each row belongs to exactly one of the models,
      each model has a row, and its total is what its own rows used. */
  lemma {:induction false} ModelsAreTheirRows(rows: seq<Row>, midnights: seq<int>, tracking: Option<int>,
                                              report: Report)
    requires |midnights| >= 2 && IsReport(rows, midnights, tracking, report) && PlainProviders(rows)
    ensures forall r | r in rows :: exists i :: 0 <= i < |report.models| && IsOf(r, report.models[i])
    ensures forall r, i, j | r in rows && 0 <= i < |report.models| && 0 <= j < |report.models|
                             && IsOf(r, report.models[i]) && IsOf(r, report.models[j]) :: i == j
    ensures forall i | 0 <= i < |report.models| ::
              (exists r :: r in rows && IsOf(r, report.models[i]))
              && report.models[i].total == TokensOf(rows, report.models[i])
  {
    hide IsReport, IsOf, PlainProviders, TokensOf;
    forall i | 0 <= i < |report.models|
      ensures (exists r :: r in rows && IsOf(r, report.models[i]))
              && report.models[i].total == TokensOf(rows, report.models[i])
    {
      ModelHasRows(rows, midnights, tracking, report, i);
    }
    forall r | r in rows ensures exists i :: 0 <= i < |report.models| && IsOf(r, report.models[i]) {
      RowHasModel(rows, midnights, tracking, report, r);
    }
    forall r, i, j | r in rows && 0 <= i < |report.models| && 0 <= j < |report.models|
                     && IsOf(r, report.models[i]) && IsOf(r, report.models[j])
      ensures i == j
    {
      OneModel(rows, midnights, tracking, report, r, i, j);
    }
  }

  lemma {:induction false} OneModel(rows: seq<Row>, midnights: seq<int>, tracking: Option<int>, report: Report,
      r: Row, i: nat, j: nat)
    requires |midnights| >= 2 && IsReport(rows, midnights, tracking, report) && PlainProviders(rows) && r in rows
    requires i < |report.models| && j < |report.models| && IsOf(r, report.models[i]) && IsOf(r, report.models[j])
    ensures i == j
  {
    hide IsReport, IsOf, PlainProviders, TokensOf;
    ModelHasRows(rows, midnights, tracking, report, i);
    ModelHasRows(rows, midnights, tracking, report, j);
    KeysDiffer(rows, midnights, tracking, report, i, j);
  }

  lemma {:induction false} KeysDiffer(rows: seq<Row>, midnights: seq<int>, tracking: Option<int>, report: Report,
      i: nat, j: nat)
    requires |midnights| >= 2 && IsReport(rows, midnights, tracking, report)
    requires i < |report.models| && j < |report.models| && report.models[i].key == report.models[j].key
    ensures i == j
  {
    hide ModelReport, Keys, Listed, Ascending, DaysRight;
  }

  lemma {:induction false} RowHasModel(rows: seq<Row>, midnights: seq<int>, tracking: Option<int>, report: Report,
      r: Row)
    requires |midnights| >= 2 && IsReport(rows, midnights, tracking, report) && PlainProviders(rows) && r in rows
    ensures exists i :: 0 <= i < |report.models| && IsOf(r, report.models[i])
  {
    assert ModelKey(r) in Keys(rows);
    assert Listed(report.models, ModelKey(r)) by { hide ModelReport, Ascending, DaysRight, ModelKey, IsOf; }
    var i :| 0 <= i < |report.models| && report.models[i].key == ModelKey(r);
    ModelHasRows(rows, midnights, tracking, report, i);
    hide *;
  }

  lemma {:induction false} ModelHasRows(rows: seq<Row>, midnights: seq<int>, tracking: Option<int>, report: Report,
      i: nat)
    requires |midnights| >= 2 && IsReport(rows, midnights, tracking, report) && PlainProviders(rows)
    requires i < |report.models|
    ensures exists r :: r in rows && IsOf(r, report.models[i])
    ensures report.models[i].total == TokensOf(rows, report.models[i])
    ensures forall r | r in rows :: IsOf(r, report.models[i]) <==> ModelKey(r) == report.models[i].key
  {
    var m := report.models[i];
    assert m == ModelReport(rows, midnights, tracking, m.key);
    assert m.provider == BeforeSlash(m.key) && m.modelId == AfterSlash(m.key);
    assert Listed(report.models, m.key);
    assert m.key in Keys(rows);
    var row :| row in rows && ModelKey(row) == m.key;
    TotalIsTokens(rows, midnights, m, row);
    forall r | r in rows ensures IsOf(r, m) <==> ModelKey(r) == m.key {
      KeyIsOf(r, m, row);
    }
    assert IsOf(row, m);
    hide IsOf, ModelKey, BeforeSlash, AfterSlash, Sum, TokensOf, Ascending, DaysRight;
  }
}
