/** The loops of the tree projection, each proved against its specification. */
module AxProjection {
  import opened Common
  import opened AxTree

  /** An element of the host's list; only well-formed ids are taken. */
  datatype Element = Element(id: string, wellFormed: bool, node: Node)

  // ----- the node table -----

  /** Ids in the order of their first appearance. */
  function OrderOf(elements: seq<Element>): seq<string> {
    if elements == [] then []
    else
      var r, last := OrderOf(elements[..|elements| - 1]), elements[|elements| - 1];
      if last.wellFormed && last.id !in r then r + [last.id] else r
  }

  /** A repeated id keeps its last node. */
  function TableOf(elements: seq<Element>): map<string, Node> {
    if elements == [] then map[]
    else
      var t, last := TableOf(elements[..|elements| - 1]), elements[|elements| - 1];
      if last.wellFormed then t[last.id := last.node] else t
  }

  function DocOf(elements: seq<Element>): Doc {
    Doc(OrderOf(elements), TableOf(elements))
  }

  lemma {:induction false} DocIsValid(elements: seq<Element>)
    ensures Valid(DocOf(elements))
  {
    if elements != [] {
      DocIsValid(elements[..|elements| - 1]);
    }
  }

  method BuildTable(elements: seq<Element>) returns (d: Doc)
    ensures d == DocOf(elements) && Valid(d)
  {
    var order: seq<string>, nodes: map<string, Node> := [], map[];
    var i := 0;
    while i < |elements|
      invariant i <= |elements| && Doc(order, nodes) == DocOf(elements[..i])
    {
      assert elements[..i + 1][..i] == elements[..i];
      var e := elements[i];
      if e.wellFormed {
        if e.id !in order {
          order := order + [e.id];
        }
        nodes := nodes[e.id := e.node];
      }
      i := i + 1;
    }
    assert elements[..i] == elements;
    d := Doc(order, nodes);
    DocIsValid(elements);
  }

  // ----- the child index -----

  function Lookup(children: map<Option<string>, seq<string>>, parent: Option<string>): seq<string> {
    if parent in children then children[parent] else []
  }

  ghost predicate Indexes(children: map<Option<string>, seq<string>>, ids: seq<string>, nodes: map<string, Node>)
    requires forall i | 0 <= i < |ids| :: ids[i] in nodes
  {
    forall p :: Lookup(children, p) == ChildrenIn(ids, nodes, p)
  }

  method IndexChildren(d: Doc) returns (children: map<Option<string>, seq<string>>)
    requires Valid(d)
    ensures Indexes(children, d.order, d.nodes)
  {
    children := map[];
    var i := 0;
    while i < |d.order|
      invariant i <= |d.order| && Indexes(children, d.order[..i], d.nodes)
    {
      hide Indexes, Lookup, ParentOf;
      var id := d.order[i];
      var parent := ParentOf(d.nodes, id);
      ghost var before := children;
      children := children[parent := Lookup(children, parent) + [id]];
      OneMoreChild(before, children, d.order[..i], id, d.nodes);
      assert d.order[..i + 1] == d.order[..i] + [id];
      i := i + 1;
    }
    assert d.order[..i] == d.order;
  }

  lemma {:induction false} OneMoreChild(before: map<Option<string>, seq<string>>, after: map<Option<string>,
      seq<string>>, ids: seq<string>,
                     id: string, nodes: map<string, Node>)
    requires forall i | 0 <= i < |ids| :: ids[i] in nodes
    requires id in nodes && Indexes(before, ids, nodes)
    requires after == before[ParentOf(nodes, id) := Lookup(before, ParentOf(nodes, id)) + [id]]
    ensures forall i | 0 <= i < |ids + [id]| :: (ids + [id])[i] in nodes
    ensures Indexes(after, ids + [id], nodes)
  {
    assert (ids + [id])[..|ids|] == ids;
    forall p ensures Lookup(after, p) == ChildrenIn(ids + [id], nodes, p) {
      assert Lookup(before, p) == ChildrenIn(ids, nodes, p);
    }
  }

  // ----- joining runs of text -----

  /** The siblings away before index k. */
  ghost function AwayUpTo(nodes: map<string, Node>, inner: set<string>, s: seq<string>, k: nat): set<string>
    requires k <= |s|
  {
    if k == 0 then {}
    else AwayUpTo(nodes, inner, s, k - 1) + if AwayAt(nodes, inner, s, k - 1) then {s[k - 1]} else {}
  }

  /** The heads before index k with their joined text. */
  ghost function HeadsUpTo(nodes: map<string, Node>, inner: set<string>, s: seq<string>, k: nat): map<string, string>
    requires k <= |s|
  {
    if k == 0 then map[]
    else
      var m := HeadsUpTo(nodes, inner, s, k - 1);
      if HeadAt(nodes, inner, s, k - 1) then m[s[k - 1] := JoinedAt(nodes, inner, s, k - 1)] else m
  }

  /** A run from b up to i that does not reach further back. */
  ghost predicate Run(nodes: map<string, Node>, inner: set<string>, s: seq<string>, b: nat, i: nat) {
    b <= i <= |s| && (forall j | b <= j < i :: Plain(nodes, inner, s[j])) && (b > 0 ==> !Plain(nodes, inner, s[b - 1]))
  }

  function Rest(s: seq<string>): set<string> {
    if s == [] then {} else set x | x in s[1..]
  }

  lemma {:induction false} RunEndIs(nodes: map<string, Node>, inner: set<string>, s: seq<string>, n: nat)
    requires n <= |s| && (forall j | 0 <= j < n :: Plain(nodes, inner, s[j]))
             && (n < |s| ==> !Plain(nodes, inner, s[n]))
    ensures RunEnd(nodes, inner, s) == n
  {
    if n > 0 {
      RunEndIs(nodes, inner, s[1..], n - 1);
    }
  }

  lemma {:induction false} RestMore(run: seq<string>, x: string)
    ensures Rest(run + [x]) == if run == [] then {} else Rest(run) + {x}
  {
    if run != [] {
      assert (run + [x])[1..] == run[1..] + [x];
    }
  }

  /** Inside a run and right behind it there is no head but the first. */
  lemma {:induction false} OneHead(nodes: map<string, Node>, inner: set<string>, s: seq<string>, b: nat, i: nat, k: nat)
    requires Run(nodes, inner, s, b, i) && b < k <= i
    ensures HeadsUpTo(nodes, inner, s, k) == HeadsUpTo(nodes, inner, s, b + 1)
  {
    if k > b + 1 {
      OneHead(nodes, inner, s, b, i, k - 1);
      assert Plain(nodes, inner, s[k - 2]);
    }
  }

  /** A run closed at i is the whole run from b. */
  lemma {:induction false} RunClosed(nodes: map<string, Node>, inner: set<string>, s: seq<string>, b: nat, i: nat)
    requires Run(nodes, inner, s, b, i) && (i < |s| ==> !Plain(nodes, inner, s[i]))
    requires forall j | 0 <= j < |s[b..i]| :: s[b..i][j] in nodes
    ensures JoinedAt(nodes, inner, s, b) == Join(nodes, s[b..i])
    ensures HeadAt(nodes, inner, s, b) <==> i - b > 1
    ensures !HeadAt(nodes, inner, s, i)
  {
    assert forall j | 0 <= j < i - b :: s[b..][j] == s[b + j];
    RunEndIs(nodes, inner, s[b..], i - b);
    hide Join, RunEnd, Passive;
    if i - b > 1 {
      assert Plain(nodes, inner, s[b + 1]);
    }
  }

  /** What closing a run adds to the joined texts. */
  lemma {:induction false} CloseHeads(nodes: map<string, Node>, inner: set<string>, s: seq<string>, b: nat, i: nat)
    requires Run(nodes, inner, s, b, i) && (i < |s| ==> !Plain(nodes, inner, s[i]))
    requires forall j | 0 <= j < |s[b..i]| :: s[b..i][j] in nodes
    ensures HeadsUpTo(nodes, inner, s, i) ==
              if i - b > 1 then HeadsUpTo(nodes, inner, s, b)[s[b] := Join(nodes, s[b..i])]
              else HeadsUpTo(nodes, inner, s, b)
    ensures i < |s| ==> HeadsUpTo(nodes, inner, s, i + 1) == HeadsUpTo(nodes, inner, s, i)
  {
    RunClosed(nodes, inner, s, b, i);
    if i > b {
      OneHead(nodes, inner, s, b, i, i);
    }
    hide Join, JoinedAt, HeadAt, Plain;
  }

  /** How far the loop has come: everything before the open run from b is settled, and the run
      itself is what is missing from the away nodes. */
  ghost predicate Progress(nodes: map<string, Node>, inner: set<string>, s: seq<string>, b: nat, i: nat,
                           values: map<string, string>, away: set<string>)
  {
    && Run(nodes, inner, s, b, i)
    && away + Rest(s[b..i]) == AwayUpTo(nodes, inner, s, i)
    && values == HeadsUpTo(nodes, inner, s, b)
  }

  lemma {:induction false} AwayGrows(nodes: map<string, Node>, inner: set<string>, s: seq<string>, b: nat, i: nat)
    requires Run(nodes, inner, s, b, i) && i < |s| && Plain(nodes, inner, s[i])
    ensures AwayAt(nodes, inner, s, i) <==> b < i
    ensures Rest(s[b..i + 1]) == if b == i then {} else Rest(s[b..i]) + {s[i]}
  {
    hide Passive;
    if b < i {
      assert Plain(nodes, inner, s[i - 1]);
    }
    assert s[b..i + 1] == s[b..i] + [s[i]];
    RestMore(s[b..i], s[i]);
    hide Rest;
  }

  lemma {:induction false} RunGrows(nodes: map<string, Node>, inner: set<string>, s: seq<string>, b: nat, i: nat,
                 values: map<string, string>, away: set<string>)
    requires Progress(nodes, inner, s, b, i, values, away) && i < |s| && Plain(nodes, inner, s[i])
    ensures Progress(nodes, inner, s, b, i + 1, values, away)
  {
    AwayGrows(nodes, inner, s, b, i);
    EmptyRest(s, b, i);
    RunLonger(nodes, inner, s, b, i);
    var x, before, after := s[i], Rest(s[b..i]), Rest(s[b..i + 1]);
    assert AwayUpTo(nodes, inner, s, i + 1) == AwayUpTo(nodes, inner, s, i) + if b < i then {x} else {};
    hide Plain, Rest, HeadsUpTo, AwayAt, AwayUpTo, Run;
    assert away + after == away + before + if b < i then {x} else {};
  }

  lemma {:induction false} RunLonger(nodes: map<string, Node>, inner: set<string>, s: seq<string>, b: nat, i: nat)
    requires Run(nodes, inner, s, b, i) && i < |s| && Plain(nodes, inner, s[i])
    ensures Run(nodes, inner, s, b, i + 1)
  {
    hide Plain;
  }

  lemma {:induction false} EmptyRest(s: seq<string>, b: nat, i: nat)
    requires b <= i <= |s|
    ensures b == i ==> s[b..i] == [] && Rest(s[b..i]) == {}
  {
  }

  lemma {:induction false} RunBreaks(nodes: map<string, Node>, inner: set<string>, s: seq<string>, b: nat, i: nat,
                  values: map<string, string>, away: set<string>)
    requires Progress(nodes, inner, s, b, i, values, away) && i < |s| && !Plain(nodes, inner, s[i])
    requires forall j | 0 <= j < |s[b..i]| :: s[b..i][j] in nodes
    ensures var values' := if i - b > 1 then values[s[b] := Join(nodes, s[b..i])] else values;
            Progress(nodes, inner, s, i + 1, i + 1, values', away + Rest(s[b..i]))
  {
    CloseHeads(nodes, inner, s, b, i);
    EmptyRest(s, i + 1, i + 1);
    assert !AwayAt(nodes, inner, s, i);
    hide Join, JoinedAt, HeadAt, Plain, HeadsUpTo, Rest, AwayAt;
  }

  lemma {:induction false} OneLonger(s: seq<string>, b: nat, i: nat)
    requires b <= i < |s|
    ensures s[b..i] + [s[i]] == s[b..i + 1]
  {
  }

  /** `inner` are the nodes the index gives children. */
  ghost predicate InnerIs(nodes: map<string, Node>, children: map<Option<string>, seq<string>>, inner: set<string>) {
    forall id | id in nodes :: id in inner <==> Lookup(children, Some(id)) != []
  }

  method IsPlain(nodes: map<string, Node>, children: map<Option<string>, seq<string>>, ghost inner: set<string>,
      id: string)
    returns (plain: bool)
    requires id in nodes && InnerIs(nodes, children, inner)
    ensures plain == Plain(nodes, inner, id)
  {
    plain := Passive(nodes[id]) && Lookup(children, Some(id)) == [];
  }

  method JoinSiblings(nodes: map<string, Node>, children: map<Option<string>, seq<string>>, ghost inner: set<string>,
                      s: seq<string>)
    returns (values: map<string, string>, away: set<string>)
    requires (forall i | 0 <= i < |s| :: s[i] in nodes) && InnerIs(nodes, children, inner)
    ensures away == AwayUpTo(nodes, inner, s, |s|)
    ensures values == HeadsUpTo(nodes, inner, s, |s|)
  {
    values, away := map[], {};
    var run: seq<string> := [];
    var i := 0;
    ghost var b := 0;
    while i < |s|
      invariant b <= i <= |s| && run == s[b..i] && Progress(nodes, inner, s, b, i, values, away)
    {
      hide Progress, Join, Plain, Rest, InnerIs, AwayUpTo, HeadsUpTo;
      var plain := IsPlain(nodes, children, inner, s[i]);
      if plain {
        RunGrows(nodes, inner, s, b, i, values, away);
        OneLonger(s, b, i);
        run := run + [s[i]];
      } else {
        values, away := BreakRun(nodes, inner, s, b, i, values, away, run);
        run, b := [], i + 1;
        EmptyRest(s, i + 1, i + 1);
      }
      i := i + 1;
    }
    values, away := LastRun(nodes, inner, s, b, values, away, run);
  }

  method LastRun(nodes: map<string, Node>, ghost inner: set<string>, ghost s: seq<string>, ghost b: nat,
                 values: map<string, string>, away: set<string>, run: seq<string>)
    returns (values': map<string, string>, away': set<string>)
    requires Progress(nodes, inner, s, b, |s|, values, away)
    requires run == s[b..|s|] && forall j | 0 <= j < |s| :: s[j] in nodes
    ensures away' == AwayUpTo(nodes, inner, s, |s|)
    ensures values' == HeadsUpTo(nodes, inner, s, |s|)
  {
    RunIn(nodes, s, b, |s|);
    RunEnds(nodes, inner, s, b, values, away);
    hide Progress, Join, Plain, Rest, AwayUpTo, HeadsUpTo;
    values', away' := CloseRun(nodes, values, away, run);
  }

  method BreakRun(nodes: map<string, Node>, ghost inner: set<string>, ghost s: seq<string>, ghost b: nat, ghost i: nat,
                  values: map<string, string>, away: set<string>, run: seq<string>)
    returns (values': map<string, string>, away': set<string>)
    requires Progress(nodes, inner, s, b, i, values, away) && i < |s| && !Plain(nodes, inner, s[i])
    requires run == s[b..i] && forall j | 0 <= j < |s| :: s[j] in nodes
    ensures Progress(nodes, inner, s, i + 1, i + 1, values', away')
  {
    RunIn(nodes, s, b, i);
    RunBreaks(nodes, inner, s, b, i, values, away);
    hide Progress, Join, Plain, Rest;
    values', away' := CloseRun(nodes, values, away, run);
  }

  lemma {:induction false} RunIn(nodes: map<string, Node>, s: seq<string>, b: nat, i: nat)
    requires b <= i <= |s| && forall j | 0 <= j < |s| :: s[j] in nodes
    ensures forall j | 0 <= j < |s[b..i]| :: s[b..i][j] in nodes
    ensures |s[b..i]| == i - b && (b < i ==> s[b..i][0] == s[b]) && (i == |s| ==> s[b..] == s[b..i])
  {
  }

  lemma {:induction false} RunEnds(nodes: map<string, Node>, inner: set<string>, s: seq<string>, b: nat,
      values: map<string, string>,
                away: set<string>)
    requires Progress(nodes, inner, s, b, |s|, values, away)
    requires forall j | 0 <= j < |s[b..]| :: s[b..][j] in nodes
    ensures s[b..] == s[b..|s|]
    ensures (if |s| - b > 1 then values[s[b] := Join(nodes, s[b..])] else values) == HeadsUpTo(nodes, inner, s, |s|)
    ensures away + Rest(s[b..]) == AwayUpTo(nodes, inner, s, |s|)
  {
    assert s[b..] == s[b..|s|];
    CloseHeads(nodes, inner, s, b, |s|);
  }

  method CloseRun(nodes: map<string, Node>, values: map<string, string>, away: set<string>, run: seq<string>)
    returns (values': map<string, string>, away': set<string>)
    requires forall i | 0 <= i < |run| :: run[i] in nodes
    ensures away' == away + Rest(run)
    ensures values' == if |run| > 1 then values[run[0] := Join(nodes, run)] else values
  {
    values', away' := values, away;
    if |run| > 1 {
      values' := values[run[0] := Join(nodes, run)];
      away' := away + Rest(run);
    }
  }

  // ----- all siblings -----

  lemma {:induction false} PositionIs(s: seq<string>, k: nat)
    requires Distinct(s) && k < |s|
    ensures s[k] in s && Position(s, s[k]) == k
  {
    if k > 0 {
      PositionIs(s[1..], k - 1);
    }
  }

  lemma {:induction false} AwayMembers(nodes: map<string, Node>, inner: set<string>, s: seq<string>, k: nat, x: string)
    requires Distinct(s) && k <= |s|
    ensures x in AwayUpTo(nodes, inner, s, k)
            <==> x in s && Position(s, x) < k && AwayAt(nodes, inner, s, Position(s, x))
  {
    if k > 0 {
      AwayMembers(nodes, inner, s, k - 1, x);
      PositionIs(s, k - 1);
      hide AwayAt, Distinct;
    }
  }

  lemma {:induction false} HeadMembers(nodes: map<string, Node>, inner: set<string>, s: seq<string>, k: nat, x: string)
    requires Distinct(s) && k <= |s|
    ensures x in HeadsUpTo(nodes, inner, s, k)
            <==> x in s && Position(s, x) < k && HeadAt(nodes, inner, s, Position(s, x))
    ensures x in HeadsUpTo(nodes, inner, s, k) ==>
              HeadsUpTo(nodes, inner, s, k)[x] == JoinedAt(nodes, inner, s, Position(s, x))
  {
    if k > 0 {
      HeadMembers(nodes, inner, s, k - 1, x);
      PositionIs(s, k - 1);
      hide HeadAt, Distinct, JoinedAt;
    }
  }

  /** The away nodes and the joined texts under some parents. */
  ghost function AwayUnder(d: Doc, parents: set<Option<string>>): set<string>
    requires Valid(d)
  {
    set id | id in d.order && ParentOf(d.nodes, id) in parents && IsAway(d, id)
  }

  ghost function JoinedUnder(d: Doc, parents: set<Option<string>>): map<string, string>
    requires Valid(d)
  {
    map id | id in d.order && ParentOf(d.nodes, id) in parents && IsHead(d, id) :: HeadText(d, id)
  }

  lemma {:induction false} AwayOfParent(d: Doc, parents: set<Option<string>>, p: Option<string>)
    requires Valid(d)
    ensures var s := Children(d, p);
            AwayUnder(d, parents + {p}) == AwayUnder(d, parents) + AwayUpTo(d.nodes, Inner(d), s, |s|)
  {
    var s := Children(d, p);
    ChildrenDistinct(d.order, d.nodes, p);
    forall x
      ensures x in AwayUnder(d, parents + {p}) <==> x in AwayUnder(d, parents) + AwayUpTo(d.nodes, Inner(d), s, |s|)
    {
      AwayMembers(d.nodes, Inner(d), s, |s|, x);
      hide AwayUpTo, AwayAt, Inner, Distinct;
    }
  }

  lemma {:induction false} JoinedOfParent(d: Doc, parents: set<Option<string>>, p: Option<string>)
    requires Valid(d)
    ensures var s := Children(d, p);
            JoinedUnder(d, parents + {p}) == JoinedUnder(d, parents) + HeadsUpTo(d.nodes, Inner(d), s, |s|)
  {
    var s := Children(d, p);
    var a, b := JoinedUnder(d, parents + {p}), JoinedUnder(d, parents) + HeadsUpTo(d.nodes, Inner(d), s, |s|);
    forall x ensures SameEntry(a, b, x) {
      SameEntries(d, parents, p, x);
    }
    hide *;
    SameMaps(a, b);
  }

  ghost predicate SameEntry(a: map<string, string>, b: map<string, string>, x: string) {
    (x in a <==> x in b) && (x in a ==> a[x] == b[x])
  }

  lemma {:induction false} SameMaps(a: map<string, string>, b: map<string, string>)
    requires forall x :: SameEntry(a, b, x)
    ensures a == b
  {
    forall x ensures x in a <==> x in b ensures x in a && x in b ==> a[x] == b[x] {
      assert SameEntry(a, b, x);
    }
  }

  lemma {:induction false} SameEntries(d: Doc, parents: set<Option<string>>, p: Option<string>, x: string)
    requires Valid(d)
    ensures var s := Children(d, p);
            SameEntry(JoinedUnder(d, parents + {p}), JoinedUnder(d, parents) + HeadsUpTo(d.nodes, Inner(d), s, |s|), x)
  {
    HeadsOf(d, p, x);
    UnderMembers(d, parents, x);
    UnderMembers(d, parents + {p}, x);
    hide IsHead, HeadText, HeadsUpTo, Valid, Children, Inner, JoinedUnder, ParentOf;
  }

  lemma {:induction false} UnderMembers(d: Doc, parents: set<Option<string>>, x: string)
    requires Valid(d)
    ensures x in JoinedUnder(d, parents) <==> x in d.order && ParentOf(d.nodes, x) in parents && IsHead(d, x)
    ensures x in JoinedUnder(d, parents) ==> JoinedUnder(d, parents)[x] == HeadText(d, x)
  {
    hide IsHead, HeadText;
  }

  lemma {:induction false} HeadsOf(d: Doc, p: Option<string>, x: string)
    requires Valid(d)
    ensures var heads := HeadsUpTo(d.nodes, Inner(d), Children(d, p), |Children(d, p)|);
            && (x in heads <==> x in d.order && ParentOf(d.nodes, x) == p && IsHead(d, x))
            && (x in heads ==> heads[x] == HeadText(d, x))
  {
    var s := Children(d, p);
    ChildrenDistinct(d.order, d.nodes, p);
    HeadMembers(d.nodes, Inner(d), s, |s|, x);
    hide HeadsUpTo, HeadAt, Inner, Distinct, JoinedAt, Join;
  }

  method JoinAll(d: Doc, children: map<Option<string>, seq<string>>) returns (values: map<string, string>,
      away: set<string>)
    requires Valid(d) && Indexes(children, d.order, d.nodes)
    ensures values == Joined(d) && away == Away(d)
  {
    values, away := map[], {};
    var rest := children.Keys;
    ghost var done: set<Option<string>> := {};
    assert away == AwayUnder(d, {}) && values == JoinedUnder(d, {});
    InnerIndexed(d, children);
    while rest != {}
      invariant rest + done == children.Keys
      invariant away == AwayUnder(d, done) && values == JoinedUnder(d, done)
      decreases rest
    {
      var p :| p in rest;
      hide AwayUnder, JoinedUnder, AwayUpTo, HeadsUpTo, Inner, InnerIs, Valid, Indexes;
      ChildrenFound(d, children, p);
      var v, a := JoinSiblings(d.nodes, children, Inner(d), children[p]);
      AwayOfParent(d, done, p);
      JoinedOfParent(d, done, p);
      values, away := values + v, away + a;
      rest, done := rest - {p}, done + {p};
    }
    AllParents(d, children);
  }

  lemma {:induction false} InnerIndexed(d: Doc, children: map<Option<string>, seq<string>>)
    requires Valid(d) && Indexes(children, d.order, d.nodes)
    ensures InnerIs(d.nodes, children, Inner(d))
  {
    forall id | id in d.nodes ensures id in Inner(d) <==> Lookup(children, Some(id)) != [] {
      assert Lookup(children, Some(id)) == ChildrenIn(d.order, d.nodes, Some(id));
    }
  }

  lemma {:induction false} ChildrenFound(d: Doc, children: map<Option<string>, seq<string>>, p: Option<string>)
    requires Valid(d) && Indexes(children, d.order, d.nodes)
    ensures Lookup(children, p) == Children(d, p)
            && forall i | 0 <= i < |Children(d, p)| :: Children(d, p)[i] in d.nodes
  {
    var s := Children(d, p);
    assert forall i | 0 <= i < |s| :: s[i] in s;
  }

  lemma {:induction false} AllParents(d: Doc, children: map<Option<string>, seq<string>>)
    requires Valid(d) && Indexes(children, d.order, d.nodes)
    ensures AwayUnder(d, children.Keys) == Away(d) && JoinedUnder(d, children.Keys) == Joined(d)
  {
    forall id | id in d.order ensures ParentOf(d.nodes, id) in children.Keys {
      var p := ParentOf(d.nodes, id);
      ChildrenFound(d, children, p);
      assert id in Children(d, p);
    }
    hide IsAway, IsHead, HeadText, Inner, Siblings;
  }

  // ----- the traversal -----

  method PushAll(stack: seq<(string, nat)>, ids: seq<string>, depth: nat) returns (r: seq<(string, nat)>)
    ensures r == stack + Push(ids, depth)
  {
    r := stack;
    var i := |ids|;
    assert ids[i..] == [];
    while i > 0
      invariant i <= |ids| && r == stack + Push(ids[i..], depth)
    {
      i := i - 1;
      assert ids[i..][1..] == ids[i + 1..];
      r := r + [(ids[i], depth)];
    }
    assert ids[0..] == ids;
  }

  /** The loop over the stack; nothing about the parent relation is needed for it to end. */
  method Traverse(d: Doc, children: map<Option<string>, seq<string>>, values: map<string, string>, away: set<string>)
    returns (lines: seq<Line>)
    requires Valid(d) && Indexes(children, d.order, d.nodes)
    ensures lines == Dfs(d, Merge(values, away), Start(d), {})
  {
    ghost var m := Merge(values, away);
    lines := [];
    var visited: set<string> := {};
    var stack := FirstStack(d, children);
    while stack != []
      invariant OnStack(d, stack) && lines + Dfs(d, m, stack, visited) == Dfs(d, m, Start(d), {})
      decreases |d.nodes.Keys - visited|, |stack|
    {
      hide Dfs, OnStack, Indexes, Valid, Start;
      var out;
      stack, visited, out := VisitTop(d, children, values, away, stack, visited);
      Regroup(lines, out, Dfs(d, m, stack, visited));
      lines := lines + out;
    }
  }

  lemma {:induction false} Regroup<T>(a: seq<T>, b: seq<T>, c: seq<T>)
    ensures a + b + c == a + (b + c)
  {
  }

  method FirstStack(d: Doc, children: map<Option<string>, seq<string>>) returns (stack: seq<(string, nat)>)
    requires Valid(d) && Indexes(children, d.order, d.nodes)
    ensures stack == Start(d)
  {
    ChildrenFound(d, children, None);
    stack := PushAll([], d.order, 0);
    stack := PushAll(stack, Lookup(children, None), 0);
    assert [] + Push(d.order, 0) == Push(d.order, 0);
  }

  /** One turn of the loop. */
  method VisitTop(d: Doc, children: map<Option<string>, seq<string>>, values: map<string, string>, away: set<string>,
                  stack: seq<(string, nat)>, visited: set<string>)
    returns (stack': seq<(string, nat)>, visited': set<string>, out: seq<Line>)
    requires Valid(d) && Indexes(children, d.order, d.nodes) && OnStack(d, stack) && stack != []
    ensures OnStack(d, stack')
    ensures out + Dfs(d, Merge(values, away), stack', visited') == Dfs(d, Merge(values, away), stack, visited)
    ensures |d.nodes.Keys - visited'| < |d.nodes.Keys - visited|
            || (visited' == visited && |stack'| < |stack|)
  {
    DfsTurn(d, Merge(values, away), stack, visited);
    hide Dfs, LineOf, OnStack, Valid, Indexes, Deeper;
    var (id, depth) := stack[|stack| - 1];
    stack', visited', out := stack[..|stack| - 1], visited, [];
    if id !in visited {
      visited' := visited + {id};
      if id !in away {
        stack', out := WriteNode(d, children, values, stack', id, depth);
      }
    }
  }

  method WriteNode(d: Doc, children: map<Option<string>, seq<string>>, values: map<string, string>,
                   rest: seq<(string, nat)>, id: string, depth: nat)
    returns (stack: seq<(string, nat)>, out: seq<Line>)
    requires Valid(d) && Indexes(children, d.order, d.nodes) && OnStack(d, rest) && id in d.nodes
    ensures stack == Deeper(d, rest, id, depth) && out == [LineOf(d, values, id, depth)]
  {
    ChildrenFound(d, children, Some(id));
    out := [LineOf(d, values, id, depth)];
    stack := PushAll(rest, Lookup(children, Some(id)), depth + 1);
  }

  /** The whole projection with its two counts. */
  method Compact(elements: seq<Element>) returns (lines: seq<Line>, elementCount: nat, sourceCount: nat)
    ensures Valid(DocOf(elements)) && lines == Projection(DocOf(elements))
    ensures elementCount == |lines| && sourceCount == |DocOf(elements).order|
  {
    var d := BuildTable(elements);
    var children := IndexChildren(d);
    var values, away := JoinAll(d, children);
    lines := Traverse(d, children, values, away);
    elementCount, sourceCount := |lines|, |d.order|;
  }
}
