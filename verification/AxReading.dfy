/** What a reader of the projection sees, told from the nodes as the host reported them: who is
    below whom and in which order, which texts are merged, and how a merged text reads. */
module AxReading {
  import opened Common
  import opened AxTree
  import opened AxPreorder
  import opened AxProjection

  // ----- the nodes -----

  /** Element i is the first, or the last, well-formed one with this id. */
  ghost predicate FirstWith(elements: seq<Element>, i: nat, id: string) {
    i < |elements| && elements[i].wellFormed && elements[i].id == id
    && forall j | 0 <= j < i :: !(elements[j].wellFormed && elements[j].id == id)
  }

  ghost predicate LastWith(elements: seq<Element>, i: nat, id: string) {
    i < |elements| && elements[i].wellFormed && elements[i].id == id
    && forall j | i < j < |elements| :: !(elements[j].wellFormed && elements[j].id == id)
  }

  /** Every well-formed id has one node, the last one reported for it. */
  lemma {:induction false} NodesAreLast(elements: seq<Element>, i: nat, id: string)
    ensures LastWith(elements, i, id) ==> id in DocOf(elements).nodes && DocOf(elements).nodes[id] == elements[i].node
    ensures (forall j | 0 <= j < |elements| :: !(elements[j].wellFormed && elements[j].id == id)) ==>
              id !in DocOf(elements).nodes
  {
    if elements != [] {
      var n := |elements| - 1;
      NodesAreLast(elements[..n], i, id);
      if LastWith(elements, i, id) && i < n {
        assert LastWith(elements[..n], i, id);
      }
      assert forall j | 0 <= j < n :: elements[..n][j] == elements[j];
    }
  }

  /** Nodes stand in the order in which their ids were first reported. */
  lemma {:induction false} NodesInFirstOrder(elements: seq<Element>, i: nat, j: nat, a: string, b: string)
    requires FirstWith(elements, i, a) && FirstWith(elements, j, b) && i < j
    ensures var order := DocOf(elements).order; a in order && b in order && Position(order, a) < Position(order, b)
  {
    var n := |elements| - 1;
    DocIsValid(elements);
    DocIsValid(elements[..n]);
    assert elements == elements[..n] + [elements[n]];
    var init, order := OrderOf(elements[..n]), OrderOf(elements);
    assert FirstWith(elements[..n], i, a);
    FirstIsListed(elements[..n], i, a);
    if j < n {
      assert FirstWith(elements[..n], j, b);
      NodesInFirstOrder(elements[..n], i, j, a, b);
      if order != init {
        SamePosition(init, elements[n].id, a);
        SamePosition(init, elements[n].id, b);
      }
    } else {
      NotYetListed(elements, b);
      assert order == init + [b];
      BeforeLast(init, b, a);
    }
  }

  lemma {:induction false} FirstIsListed(elements: seq<Element>, i: nat, id: string)
    requires FirstWith(elements, i, id)
    ensures id in OrderOf(elements)
  {
    var n := |elements| - 1;
    if i < n {
      assert FirstWith(elements[..n], i, id);
      FirstIsListed(elements[..n], i, id);
    }
  }

  lemma {:induction false} NotYetListed(elements: seq<Element>, id: string)
    requires elements != [] && FirstWith(elements, |elements| - 1, id)
    ensures id !in OrderOf(elements[..|elements| - 1])
  {
    var init := elements[..|elements| - 1];
    NodesAreLast(init, 0, id);
    DocIsValid(init);
    assert forall j | 0 <= j < |init| :: init[j] == elements[j];
  }

  // ----- parents and children -----

  /** Node c names p as its parent, and p is another node of the document. */
  predicate Names(d: Doc, c: string, p: string) {
    c in d.nodes && p in d.nodes && c != p && d.nodes[c].parent == Some(p)
  }

  /** A node is a child of exactly the node it names; it is a root exactly if it names no other
      node of the document. */
  lemma {:induction false} ChildrenExactly(d: Doc, c: string, p: string)
    requires Valid(d)
    ensures c in Children(d, Some(p)) <==> Names(d, c, p)
    ensures c in Children(d, None) <==> c in d.nodes && forall q :: !Names(d, c, q)
  {
    if c in d.nodes && ParentOf(d.nodes, c).Some? {
      assert Names(d, c, ParentOf(d.nodes, c).value);
    }
  }

  /** Children are listed once each, in the order of the document. */
  lemma {:induction false} ChildrenInOrder(d: Doc, parent: Option<string>, i: nat, j: nat)
    requires Valid(d) && i < j < |Children(d, parent)|
    ensures Children(d, parent)[i] in d.order && Children(d, parent)[j] in d.order
    ensures Position(d.order, Children(d, parent)[i]) < Position(d.order, Children(d, parent)[j])
  {
    KeptInOrder(d.order, d.nodes, parent, i, j);
  }

  lemma {:induction false} KeptInOrder(ids: seq<string>, nodes: map<string, Node>, parent: Option<string>, i: nat,
      j: nat)
    requires Distinct(ids) && forall k | 0 <= k < |ids| :: ids[k] in nodes
    requires i < j < |ChildrenIn(ids, nodes, parent)|
    ensures var r := ChildrenIn(ids, nodes, parent);
            r[i] in ids && r[j] in ids && Position(ids, r[i]) < Position(ids, r[j])
  {
    var n := |ids| - 1;
    var init, last := ids[..n], ids[n];
    assert ids == init + [last];
    InitNodes(init, last, nodes);
    var r := ChildrenIn(init, nodes, parent);
    assert ChildrenIn(ids, nodes, parent) == if ParentOf(nodes, last) == parent then r + [last] else r;
    hide ChildrenIn, ParentOf, Position, Distinct;
    if j < |r| {
      KeptInOrder(init, nodes, parent, i, j);
      SamePosition(init, last, r[i]);
      SamePosition(init, last, r[j]);
    } else {
      assert r[i] in r;
      BeforeLast(init, last, r[i]);
    }
  }

  lemma {:induction false} InitNodes(init: seq<string>, last: string, nodes: map<string, Node>)
    requires Distinct(init + [last]) && forall k | 0 <= k < |init + [last]| :: (init + [last])[k] in nodes
    ensures Distinct(init) && forall k | 0 <= k < |init| :: init[k] in nodes
  {
    assert forall k | 0 <= k < |init| :: init[k] == (init + [last])[k];
  }

  lemma {:induction false} BeforeLast(init: seq<string>, last: string, x: string)
    requires Distinct(init + [last]) && x in init
    ensures Position(init + [last], x) < Position(init + [last], last)
  {
    SamePosition(init, last, x);
    LastPosition(init + [last]);
  }

  lemma {:induction false} SamePosition(s: seq<string>, last: string, x: string)
    requires x in s
    ensures Position(s + [last], x) == Position(s, x)
  {
    if s[0] != x {
      assert (s + [last])[1..] == s[1..] + [last];
      SamePosition(s[1..], last, x);
    }
  }

  lemma {:induction false} LastPosition(s: seq<string>)
    requires Distinct(s) && s != []
    ensures Position(s, s[|s| - 1]) == |s| - 1
  {
    if |s| > 1 {
      LastPosition(s[1..]);
    }
  }

  // ----- merged text -----

  /** A static text leaf that is no control and has nothing to show but its value. */
  ghost predicate Mergeable(d: Doc, id: string) {
    && id in d.nodes && (forall c :: !Names(d, c, id))
    && var n := d.nodes[id];
       && n.staticText && n.text && n.title == "" && n.description == ""
       && !n.disabled && !n.protected && !n.focused && !n.selected && !n.settable
       && forall a | a in n.actions :: a == "AXShowMenu" || a == "AXScrollToVisible"
  }

  lemma {:induction false} PlainIsMergeable(d: Doc, id: string)
    requires Valid(d)
    ensures Plain(d.nodes, Inner(d), id) <==> Mergeable(d, id)
  {
    if id in d.nodes {
      assert id in d.order;
      InnerExactly(d, id);
    }
    hide Inner, Valid;
  }

  lemma {:induction false} InnerExactly(d: Doc, id: string)
    requires Valid(d) && id in d.nodes
    ensures id in Inner(d) <==> exists c :: Names(d, c, id)
  {
    var kids := Children(d, Some(id));
    if kids != [] {
      assert kids[0] in kids;
      ChildrenExactly(d, kids[0], id);
    }
    forall c | Names(d, c, id) ensures kids != [] {
      ChildrenExactly(d, c, id);
    }
    hide Children, Names;
  }

  lemma {:induction false} SiblingsOf(d: Doc, parent: Option<string>, k: nat)
    requires Valid(d) && k < |Children(d, parent)|
    ensures Children(d, parent)[k] in d.order && Siblings(d, Children(d, parent)[k]) == Children(d, parent)
    ensures Position(Children(d, parent), Children(d, parent)[k]) == k
  {
    var s := Children(d, parent);
    assert s[k] in s;
    ChildrenDistinct(d.order, d.nodes, parent);
  }

  /** In every list of children, and for the roots: a node gives its text away exactly if it and the
      one before it are mergeable, and speaks for a run exactly if it is the first of two or more
      mergeable ones in a row. */
  lemma {:induction false} MergedExactly(d: Doc, parent: Option<string>, k: nat)
    requires Valid(d) && k < |Children(d, parent)|
    ensures var s := Children(d, parent);
            s[k] in Away(d) <==> k > 0 && Mergeable(d, s[k - 1]) && Mergeable(d, s[k])
    ensures var s := Children(d, parent);
            s[k] in Joined(d) <==>
              k + 1 < |s| && Mergeable(d, s[k]) && Mergeable(d, s[k + 1]) && (k == 0 || !Mergeable(d, s[k - 1]))
  {
    var s := Children(d, parent);
    SiblingsOf(d, parent, k);
    PlainIsMergeable(d, s[k]);
    if k > 0 {
      PlainIsMergeable(d, s[k - 1]);
    }
    if k + 1 < |s| {
      PlainIsMergeable(d, s[k + 1]);
    }
    hide Children, Siblings, Inner, Plain, Mergeable, HeadText, Valid;
  }

  /** Where the value of s[i] begins in the text merged from s[h] on: behind the values before it,
      each followed by one character. */
  function Offset(nodes: map<string, Node>, s: seq<string>, h: nat, i: nat): nat
    requires h <= i <= |s| && forall j | h <= j < i :: s[j] in nodes
  {
    if i == h then 0 else Offset(nodes, s, h, i - 1) + |nodes[s[i - 1]].value| + 1
  }

  ghost predicate StandsAt(text: string, at: nat, value: string) {
    at + |value| <= |text| && text[at..at + |value|] == value
  }

  predicate SpaceBefore(text: string, at: nat) {
    0 < at <= |text| && text[at - 1] == ' '
  }

  ghost predicate AllNodes(nodes: map<string, Node>, s: seq<string>, h: nat, e: nat)
    requires h <= e <= |s|
  {
    forall j | h <= j < e :: s[j] in nodes
  }

  /** The text is the values of s[h] up to s[e] in that order, one space between two of them. */
  ghost predicate Reads(nodes: map<string, Node>, s: seq<string>, h: nat, e: nat, text: string)
    requires h <= e <= |s| && AllNodes(nodes, s, h, e)
  {
    |text| + 1 == Offset(nodes, s, h, e) && forall i | h <= i < e :: Placed(nodes, s, h, i, text)
  }

  ghost predicate Placed(nodes: map<string, Node>, s: seq<string>, h: nat, i: nat, text: string)
    requires h <= i < |s| && AllNodes(nodes, s, h, i + 1)
  {
    StandsAt(text, Offset(nodes, s, h, i), nodes[s[i]].value)
    && (h < i ==> SpaceBefore(text, Offset(nodes, s, h, i)))
  }

  lemma {:induction false} StandsLonger(text: string, at: nat, value: string, rest: string)
    ensures StandsAt(text, at, value) ==> StandsAt(text + rest, at, value)
    ensures SpaceBefore(text, at) ==> SpaceBefore(text + rest, at)
  {
    if StandsAt(text, at, value) {
      assert (text + rest)[at..at + |value|] == text[at..at + |value|];
    }
  }

  lemma {:induction false} LastStands(init: string, last: string)
    ensures StandsAt(init + (" " + last), |init| + 1, last)
    ensures SpaceBefore(init + (" " + last), |init| + 1)
  {
    assert (init + (" " + last))[|init| + 1..|init| + 1 + |last|] == last;
  }

  lemma {:induction false} ReadsMore(nodes: map<string, Node>, s: seq<string>, h: nat, e: nat, init: string)
    requires h < e < |s| && AllNodes(nodes, s, h, e + 1) && Reads(nodes, s, h, e, init)
    ensures Reads(nodes, s, h, e + 1, init + (" " + nodes[s[e]].value))
  {
    var last := nodes[s[e]].value;
    LastStands(init, last);
    assert Offset(nodes, s, h, e + 1) == Offset(nodes, s, h, e) + |last| + 1;
    hide StandsAt, SpaceBefore, Offset, AllNodes;
    forall i | h <= i <= e ensures Placed(nodes, s, h, i, init + (" " + last)) {
      if i < e {
        assert Placed(nodes, s, h, i, init);
        StandsLonger(init, Offset(nodes, s, h, i), nodes[s[i]].value, " " + last);
      }
    }
  }

  lemma {:induction false} ReadsOne(nodes: map<string, Node>, s: seq<string>, h: nat)
    requires h < |s| && s[h] in nodes
    ensures Reads(nodes, s, h, h + 1, nodes[s[h]].value)
  {
  }

  lemma {:induction false} JoinReads(nodes: map<string, Node>, s: seq<string>, h: nat, e: nat)
    requires h < e <= |s| && AllNodes(nodes, s, h, e)
    requires forall j | 0 <= j < |s[h..e]| :: s[h..e][j] in nodes
    ensures Reads(nodes, s, h, e, Join(nodes, s[h..e]))
  {
    hide Reads;
    if e == h + 1 {
      assert s[h..e] == [s[h]];
      ReadsOne(nodes, s, h);
    } else {
      var init := s[h..e - 1];
      assert s[h..e] == init + [s[e - 1]];
      assert forall j | 0 <= j < |init| :: init[j] == s[h..e][j];
      JoinReads(nodes, s, h, e - 1);
      ReadsMore(nodes, s, h, e - 1, Join(nodes, init));
      assert s[h..e][..|s[h..e]| - 1] == init;
      hide AllNodes;
      assert Join(nodes, s[h..e]) == Join(nodes, init) + (" " + nodes[s[e - 1]].value);
    }
  }

  /** The text a head is shown with: the values of its run in the order of the document, one space
      between two of them and nothing else. */
  lemma {:induction false} MergedTextReads(d: Doc, parent: Option<string>, h: nat, e: nat)
    requires Valid(d) && h < e <= |Children(d, parent)| && Children(d, parent)[h] in Joined(d)
    requires forall i | h <= i < e :: Mergeable(d, Children(d, parent)[i])
    requires e < |Children(d, parent)| ==> !Mergeable(d, Children(d, parent)[e])
    ensures AllNodes(d.nodes, Children(d, parent), h, e)
    ensures Reads(d.nodes, Children(d, parent), h, e, Joined(d)[Children(d, parent)[h]])
  {
    SiblingsOf(d, parent, h);
    RunReaches(d, parent, h, e);
    hide *;
    HeadIsRun(d, parent, h, e);
  }

  lemma {:induction false} HeadIsRun(d: Doc, parent: Option<string>, h: nat, e: nat)
    requires Valid(d) && h < e <= |Children(d, parent)| && Children(d, parent)[h] in Joined(d)
    requires Siblings(d, Children(d, parent)[h]) == Children(d, parent)
    requires Position(Children(d, parent), Children(d, parent)[h]) == h
    requires AllNodes(d.nodes, Children(d, parent), h, e)
    requires RunStop(d.nodes, Inner(d), Children(d, parent), h) == e
    ensures Reads(d.nodes, Children(d, parent), h, e, Joined(d)[Children(d, parent)[h]])
  {
    hide Children, Siblings, Inner, Valid, Reads, IsHead, JoinedAt, AllNodes, RunStop;
    RunReads(d.nodes, Inner(d), Children(d, parent), h, e);
  }

  lemma {:induction false} RunReads(nodes: map<string, Node>, inner: set<string>, s: seq<string>, h: nat, e: nat)
    requires h < e <= |s| && AllNodes(nodes, s, h, e) && RunStop(nodes, inner, s, h) == e
    ensures Reads(nodes, s, h, e, JoinedAt(nodes, inner, s, h))
  {
    hide Plain, Join, Reads, RunStop;
    assert forall j | 0 <= j < |s[h..e]| :: s[h..e][j] in nodes by { RunNodes(nodes, s, h, e); }
    JoinReads(nodes, s, h, e);
  }

  lemma {:induction false} RunNodes(nodes: map<string, Node>, s: seq<string>, h: nat, e: nat)
    requires h < e <= |s| && AllNodes(nodes, s, h, e)
    ensures forall j | 0 <= j < |s[h..e]| :: s[h..e][j] in nodes
  {
  }

  lemma {:induction false} RunReaches(d: Doc, parent: Option<string>, h: nat, e: nat)
    requires Valid(d) && h < e <= |Children(d, parent)|
    requires forall i | h <= i < e :: Mergeable(d, Children(d, parent)[i])
    requires e < |Children(d, parent)| ==> !Mergeable(d, Children(d, parent)[e])
    ensures AllNodes(d.nodes, Children(d, parent), h, e)
    ensures RunStop(d.nodes, Inner(d), Children(d, parent), h) == e
  {
    var s := Children(d, parent);
    forall i | h <= i < |s| ensures Plain(d.nodes, Inner(d), s[i]) <==> Mergeable(d, s[i]) {
      PlainIsMergeable(d, s[i]);
    }
    hide Children, Inner, Mergeable, Valid;
    var stop := RunStop(d.nodes, Inner(d), s, h);
    assert e < |s| ==> !Plain(d.nodes, Inner(d), s[e]);
    hide Plain, RunStop;
  }

  // ----- the lines -----

  /** A head is shown with the merged text, every other node with its own value. */
  ghost predicate Shown(d: Doc, m: Merge, line: Line) {
    line.id in d.nodes && line.indent <= 64
    && line.value == if line.id in m.values then m.values[line.id] else d.nodes[line.id].value
  }

  ghost predicate AllShown(d: Doc, m: Merge, lines: seq<Line>) {
    forall i | 0 <= i < |lines| :: Shown(d, m, lines[i])
  }

  lemma {:induction false} ShownFirst(d: Doc, m: Merge, id: string, depth: nat, later: seq<Line>)
    requires id in d.nodes && AllShown(d, m, later)
    ensures AllShown(d, m, [LineOf(d, m.values, id, depth)] + later)
  {
    assert Shown(d, m, LineOf(d, m.values, id, depth));
    hide Shown, LineOf;
  }

  lemma {:induction false} DfsShows(d: Doc, m: Merge, stack: seq<(string, nat)>, visited: set<string>)
    requires Valid(d) && OnStack(d, stack)
    ensures AllShown(d, m, Dfs(d, m, stack, visited))
    decreases |d.nodes.Keys - visited|, |stack|
  {
    if stack == [] {
      assert Dfs(d, m, stack, visited) == [];
    } else {
      var (id, depth) := stack[|stack| - 1];
      var rest := stack[..|stack| - 1];
      DfsTurn(d, m, stack, visited);
      hide Dfs, Valid, Deeper, LineOf, OnStack, AllShown;
      if id in visited {
        DfsShows(d, m, rest, visited);
      } else if id in m.away {
        DfsShows(d, m, rest, visited + {id});
      } else {
        DfsShows(d, m, Deeper(d, rest, id, depth), visited + {id});
        ShownFirst(d, m, id, depth, Dfs(d, m, Deeper(d, rest, id, depth), visited + {id}));
      }
    }
  }

  /** For any parent relation: a head's line carries the merged text, every other line the value of
      its node, and no line is indented by more than 64. */
  lemma {:induction false} LinesShowValues(d: Doc, i: nat)
    requires Valid(d) && i < |Projection(d)|
    ensures var line := Projection(d)[i];
            line.id in d.nodes && line.indent <= 64
            && line.value == if line.id in Joined(d) then Joined(d)[line.id] else d.nodes[line.id].value
  {
    DfsShows(d, Merge(Joined(d), Away(d)), Start(d), {});
    hide Dfs, Start, Joined, Away;
  }

  /** How many nodes are above this one. */
  ghost function DepthOf(d: Doc, rank: map<string, nat>, n: nat, id: string): nat
    requires Valid(d) && Forest(d, rank, n) && id in d.nodes
    decreases rank[id]
  {
    if exists p :: Names(d, id, p) then
      assert Grows(d, rank, id);
      1 + DepthOf(d, rank, n, d.nodes[id].parent.value)
    else 0
  }

  ghost predicate SameDepth(d: Doc, rank: map<string, nat>, n: nat, ids: seq<string>, depth: nat)
    requires Valid(d) && Forest(d, rank, n)
  {
    forall i | 0 <= i < |ids| :: ids[i] in d.nodes && DepthOf(d, rank, n, ids[i]) == depth
  }

  lemma {:induction false} KidsDeeper(d: Doc, rank: map<string, nat>, n: nat, id: string)
    requires Valid(d) && Forest(d, rank, n) && id in d.nodes
    ensures SameDepth(d, rank, n, Children(d, Some(id)), DepthOf(d, rank, n, id) + 1)
  {
    var kids := Children(d, Some(id));
    forall i | 0 <= i < |kids| ensures kids[i] in d.nodes
        && DepthOf(d, rank, n, kids[i]) == DepthOf(d, rank, n, id) + 1 {
      assert kids[i] in kids;
      ChildrenExactly(d, kids[i], id);
      assert Names(d, kids[i], id);
      hide Children, Forest, Valid;
    }
  }

  lemma {:induction false} RootsAtTop(d: Doc, rank: map<string, nat>, n: nat)
    requires Valid(d) && Forest(d, rank, n)
    ensures SameDepth(d, rank, n, Children(d, None), 0)
  {
    var roots := Children(d, None);
    forall i | 0 <= i < |roots| ensures roots[i] in d.nodes && DepthOf(d, rank, n, roots[i]) == 0 {
      assert roots[i] in roots;
      ChildrenExactly(d, roots[i], "");
      hide Children, Forest, Valid;
    }
  }

  ghost predicate Indented(d: Doc, rank: map<string, nat>, n: nat, line: Line)
    requires Valid(d) && Forest(d, rank, n)
  {
    line.id in d.nodes
    && line.indent == if DepthOf(d, rank, n, line.id) <= 64 then DepthOf(d, rank, n, line.id) else 64
  }

  ghost predicate AllIndented(d: Doc, rank: map<string, nat>, n: nat, lines: seq<Line>)
    requires Valid(d) && Forest(d, rank, n)
  {
    forall i | 0 <= i < |lines| :: Indented(d, rank, n, lines[i])
  }

  lemma {:induction false} PreorderIndents(d: Doc, rank: map<string, nat>, n: nat, m: Merge, ids: seq<string>,
      depth: nat, lo: nat)
    requires Valid(d) && Forest(d, rank, n) && AllIn(d, rank, n, ids, lo) && SameDepth(d, rank, n, ids, depth)
    ensures AllIndented(d, rank, n, Trees(d, rank, n, m, ids, depth, lo))
    decreases n + 1 - lo, |ids|
  {
    hide Forest, Valid, Children, DepthOf, AllIndented, Trees, Indented, First;
    if ids == [] {
      NoTrees(d, rank, n, m, depth, lo);
    } else {
      var id := ids[0];
      Ranked(d, rank, n, id);
      KidsIn(d, rank, n, id);
      KidsDeeper(d, rank, n, id);
      FirstThenRest(d, rank, n, m, ids, depth, lo);
      PreorderIndents(d, rank, n, m, Children(d, Some(id)), depth + 1, rank[id] + 1);
      PreorderIndents(d, rank, n, m, ids[1..], depth, lo);
      FirstIndented(d, rank, n, m, id, depth);
      AddIndented(d, rank, n, First(d, rank, n, m, id, depth), Trees(d, rank, n, m, ids[1..], depth, lo));
    }
  }

  lemma {:induction false} Ranked(d: Doc, rank: map<string, nat>, n: nat, id: string)
    requires Valid(d) && Forest(d, rank, n) && id in d.nodes
    ensures id in rank && rank[id] <= n
  {
  }

  lemma {:induction false} NoTrees(d: Doc, rank: map<string, nat>, n: nat, m: Merge, depth: nat, lo: nat)
    requires Valid(d) && Forest(d, rank, n)
    ensures AllIn(d, rank, n, [], lo) && AllIndented(d, rank, n, Trees(d, rank, n, m, [], depth, lo))
  {
    NoKids(d, rank, n, m, depth, lo);
    hide Trees, Forest, Valid;
  }

  lemma {:induction false} FirstIndented(d: Doc, rank: map<string, nat>, n: nat, m: Merge, id: string, depth: nat)
    requires Valid(d) && Forest(d, rank, n) && id in d.nodes && DepthOf(d, rank, n, id) == depth
    requires AllIn(d, rank, n, Children(d, Some(id)), rank[id] + 1)
    requires AllIndented(d, rank, n, Trees(d, rank, n, m, Children(d, Some(id)), depth + 1, rank[id] + 1))
    ensures AllIndented(d, rank, n, First(d, rank, n, m, id, depth))
  {
    OwnLine(d, rank, n, m, id, depth);
    hide Forest, Valid, Children, DepthOf, AllIndented, Trees, LineOf;
    AddIndented(d, rank, n, if id in m.away then [] else [LineOf(d, m.values, id, depth)],
                Trees(d, rank, n, m, Children(d, Some(id)), depth + 1, rank[id] + 1));
  }

  lemma {:induction false} OwnLine(d: Doc, rank: map<string, nat>, n: nat, m: Merge, id: string, depth: nat)
    requires Valid(d) && Forest(d, rank, n) && id in d.nodes && DepthOf(d, rank, n, id) == depth
    ensures AllIndented(d, rank, n, if id in m.away then [] else [LineOf(d, m.values, id, depth)])
  {
    hide DepthOf, Forest, Valid;
  }

  lemma {:induction false} AddIndented(d: Doc, rank: map<string, nat>, n: nat, a: seq<Line>, b: seq<Line>)
    requires Valid(d) && Forest(d, rank, n) && AllIndented(d, rank, n, a) && AllIndented(d, rank, n, b)
    ensures AllIndented(d, rank, n, a + b)
  {
    hide Indented, Forest, Valid;
  }

  /** In a forest a line is indented by the number of nodes above its own, up to 64. */
  lemma {:induction false} LinesShowDepth(d: Doc, rank: map<string, nat>, n: nat, i: nat)
    requires Valid(d) && Forest(d, rank, n) && i < |Projection(d)|
    ensures var line := Projection(d)[i];
            line.id in d.nodes
            && line.indent == if DepthOf(d, rank, n, line.id) <= 64 then DepthOf(d, rank, n, line.id) else 64
  {
    ForestIsPreorder(d, rank, n);
    RootsAtTop(d, rank, n);
    PreorderIndents(d, rank, n, Merge(Joined(d), Away(d)), Children(d, None), 0, 0);
    hide Projection, Forest, Valid, Children, DepthOf, Joined, Away, Preorder;
  }
}
