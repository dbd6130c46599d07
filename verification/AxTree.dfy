/** The accessibility tree projection: the child index, the runs of passive text that are joined,
    and the stack traversal, for any parent relation a host may report. */
module AxTree {
  import opened Common

  /** What the projection looks at; `text` says the value is a string. */
  datatype Node = Node(parent: Option<string>, staticText: bool, text: bool, value: string, title: string,
                       description: string, disabled: bool, protected: bool, focused: bool, selected: bool,
                       settable: bool, actions: set<string>)

  datatype Doc = Doc(order: seq<string>, nodes: map<string, Node>)

  ghost predicate Valid(d: Doc) {
    Distinct(d.order) && forall id :: id in d.order <==> id in d.nodes
  }

  // ----- the child index -----

  /** A missing parent or a node that is its own parent makes a root. */
  function ParentOf(nodes: map<string, Node>, id: string): Option<string>
    requires id in nodes
  {
    var p := nodes[id].parent;
    if p.None? || p.value !in nodes || p.value == id then None else p
  }

  function ChildrenIn(ids: seq<string>, nodes: map<string, Node>, parent: Option<string>): (r: seq<string>)
    requires forall i | 0 <= i < |ids| :: ids[i] in nodes
    ensures forall c | c in r :: c in ids && c in nodes && ParentOf(nodes, c) == parent
    ensures forall c | c in ids && ParentOf(nodes, c) == parent :: c in r
  {
    if ids == [] then []
    else
      var init, last := ids[..|ids| - 1], ids[|ids| - 1];
      assert forall i | 0 <= i < |init| :: init[i] == ids[i];
      var r := ChildrenIn(init, nodes, parent);
      if ParentOf(nodes, last) == parent then r + [last] else r
  }

  ghost function Children(d: Doc, parent: Option<string>): seq<string>
    requires Valid(d)
  {
    ChildrenIn(d.order, d.nodes, parent)
  }

  lemma {:induction false} ChildrenDistinct(ids: seq<string>, nodes: map<string, Node>, parent: Option<string>)
    requires Distinct(ids) && forall i | 0 <= i < |ids| :: ids[i] in nodes
    ensures Distinct(ChildrenIn(ids, nodes, parent))
  {
    if ids != [] {
      ChildrenDistinct(ids[..|ids| - 1], nodes, parent);
    }
  }

  // ----- runs of passive text -----

  predicate Passive(n: Node) {
    n.staticText && n.text && n.title == "" && n.description == "" && !n.disabled && !n.protected && !n.focused
    && !n.selected && !n.settable && n.actions <= {"AXShowMenu", "AXScrollToVisible"}
  }

  /** Passive text leaves; `inner` are the nodes with children. */
  predicate Plain(nodes: map<string, Node>, inner: set<string>, id: string) {
    id in nodes && Passive(nodes[id]) && id !in inner
  }

  function Join(nodes: map<string, Node>, ids: seq<string>): string
    requires forall i | 0 <= i < |ids| :: ids[i] in nodes
  {
    if ids == [] then ""
    else if |ids| == 1 then nodes[ids[0]].value
    else
      assert forall i | 0 <= i < |ids| - 1 :: ids[..|ids| - 1][i] == ids[i];
      Join(nodes, ids[..|ids| - 1]) + " " + nodes[ids[|ids| - 1]].value
  }

  /** Where the run of plain nodes at the front ends. */
  function RunEnd(nodes: map<string, Node>, inner: set<string>, s: seq<string>): (n: nat)
    ensures n <= |s| && forall i | 0 <= i < n :: Plain(nodes, inner, s[i])
    ensures n < |s| ==> !Plain(nodes, inner, s[n])
  {
    if s == [] || !Plain(nodes, inner, s[0]) then 0 else 1 + RunEnd(nodes, inner, s[1..])
  }

  /** A plain node that follows a plain sibling gives its text away. */
  predicate AwayAt(nodes: map<string, Node>, inner: set<string>, s: seq<string>, k: nat) {
    0 < k < |s| && Plain(nodes, inner, s[k - 1]) && Plain(nodes, inner, s[k])
  }

  /** The first of two or more plain siblings in a row speaks for them. */
  predicate HeadAt(nodes: map<string, Node>, inner: set<string>, s: seq<string>, k: nat) {
    k + 1 < |s| && Plain(nodes, inner, s[k]) && Plain(nodes, inner, s[k + 1])
    && (k == 0 || !Plain(nodes, inner, s[k - 1]))
  }

  /** The end of the run that starts at k. */
  function RunStop(nodes: map<string, Node>, inner: set<string>, s: seq<string>, k: nat): (e: nat)
    requires k <= |s|
    ensures k <= e <= |s| && forall i | k <= i < e :: Plain(nodes, inner, s[i])
    ensures e < |s| ==> !Plain(nodes, inner, s[e])
  {
    var n := RunEnd(nodes, inner, s[k..]);
    assert forall i | k <= i < k + n :: s[i] == s[k..][i - k];
    k + n
  }

  function JoinedAt(nodes: map<string, Node>, inner: set<string>, s: seq<string>, k: nat): string
    requires k <= |s|
  {
    var e := RunStop(nodes, inner, s, k);
    assert forall i | 0 <= i < e - k :: s[k..e][i] == s[k + i];
    Join(nodes, s[k..e])
  }

  function Position(s: seq<string>, x: string): (k: nat)
    requires x in s
    ensures k < |s| && s[k] == x
  {
    if s[0] == x then 0 else 1 + Position(s[1..], x)
  }

  /** Merged runs are maximal: two or more plain siblings with no plain one before or behind. */
  lemma {:induction false} RunsAreMaximal(nodes: map<string, Node>, inner: set<string>, s: seq<string>, h: nat)
    requires HeadAt(nodes, inner, s, h)
    ensures var e := RunStop(nodes, inner, s, h);
            && e >= h + 2 && (forall i | h <= i < e :: Plain(nodes, inner, s[i]))
            && (h > 0 ==> !Plain(nodes, inner, s[h - 1])) && (e < |s| ==> !Plain(nodes, inner, s[e]))
            && (forall i | h < i < e :: AwayAt(nodes, inner, s, i))
  {
  }

  /** The run an away node belongs to. */
  function HeadOf(nodes: map<string, Node>, inner: set<string>, s: seq<string>, k: nat): (h: nat)
    requires AwayAt(nodes, inner, s, k)
    ensures HeadAt(nodes, inner, s, h) && h < k < RunStop(nodes, inner, s, h)
  {
    if k > 1 && AwayAt(nodes, inner, s, k - 1) then HeadOf(nodes, inner, s, k - 1)
    else k - 1
  }

  /** Every away node belongs to exactly one merged run. */
  lemma {:induction false} AwayHasOneRun(nodes: map<string, Node>, inner: set<string>, s: seq<string>, k: nat, h: nat)
    requires AwayAt(nodes, inner, s, k)
    requires HeadAt(nodes, inner, s, h) && h < k < RunStop(nodes, inner, s, h)
    ensures h == HeadOf(nodes, inner, s, k)
  {
  }

  // ----- the same for a whole document -----

  /** Nodes with children. */
  ghost function Inner(d: Doc): set<string>
    requires Valid(d)
  {
    set id | id in d.order && Children(d, Some(id)) != []
  }

  ghost function Siblings(d: Doc, id: string): (s: seq<string>)
    requires Valid(d) && id in d.order
    ensures id in s
  {
    Children(d, ParentOf(d.nodes, id))
  }

  ghost predicate IsAway(d: Doc, id: string)
    requires Valid(d) && id in d.order
  {
    AwayAt(d.nodes, Inner(d), Siblings(d, id), Position(Siblings(d, id), id))
  }

  ghost predicate IsHead(d: Doc, id: string)
    requires Valid(d) && id in d.order
  {
    HeadAt(d.nodes, Inner(d), Siblings(d, id), Position(Siblings(d, id), id))
  }

  ghost function Away(d: Doc): set<string>
    requires Valid(d)
  {
    set id | id in d.order && IsAway(d, id)
  }

  ghost function Joined(d: Doc): map<string, string>
    requires Valid(d)
  {
    map id | id in d.order && IsHead(d, id) :: HeadText(d, id)
  }

  /** The text of the run a head speaks for. */
  ghost function HeadText(d: Doc, id: string): string
    requires Valid(d) && id in d.order
  {
    JoinedAt(d.nodes, Inner(d), Siblings(d, id), Position(Siblings(d, id), id))
  }

  /** Nobody merged is a control, protected, focused, selected, settable or disabled, or has
      children; a head is not away itself. */
  lemma {:induction false} MergedArePassiveLeaves(d: Doc, id: string)
    requires Valid(d) && (id in Away(d) || id in Joined(d))
    ensures id in d.nodes && Passive(d.nodes[id]) && Children(d, Some(id)) == []
    ensures !(id in Away(d) && id in Joined(d))
  {
    var s := Siblings(d, id);
    assert s[Position(s, id)] == id;
  }

  // ----- the traversal -----

  datatype Line = Line(indent: nat, id: string, value: string)

  const MAX_INDENT := 64

  function LineOf(d: Doc, values: map<string, string>, id: string, depth: nat): Line
    requires id in d.nodes
  {
    Line(if depth < MAX_INDENT then depth else MAX_INDENT, id, if id in values then values[id] else d.nodes[id].value)
  }

  /** A stack with the given nodes on it, the first one on top. */
  function Push(ids: seq<string>, depth: nat): (stack: seq<(string, nat)>)
    ensures |stack| == |ids| && forall i | 0 <= i < |ids| :: stack[|ids| - 1 - i] == (ids[i], depth)
  {
    if ids == [] then [] else Push(ids[1..], depth) + [(ids[0], depth)]
  }

  ghost predicate OnStack(d: Doc, stack: seq<(string, nat)>) {
    forall i | 0 <= i < |stack| :: stack[i].0 in d.nodes
  }

  /** The stack after a node was written: its children go on top. */
  ghost function Deeper(d: Doc, rest: seq<(string, nat)>, id: string, depth: nat): (stack: seq<(string, nat)>)
    requires Valid(d) && OnStack(d, rest)
    ensures OnStack(d, stack)
  {
    PushOnStack(d, Children(d, Some(id)), depth + 1);
    rest + Push(Children(d, Some(id)), depth + 1)
  }

  lemma {:induction false} PushOnStack(d: Doc, ids: seq<string>, depth: nat)
    requires forall i | 0 <= i < |ids| :: ids[i] in d.nodes
    ensures OnStack(d, Push(ids, depth))
  {
    var stack := Push(ids, depth);
    forall i | 0 <= i < |stack| ensures stack[i].0 in d.nodes {
      assert stack[|ids| - 1 - (|ids| - 1 - i)] == (ids[|ids| - 1 - i], depth);
    }
  }

  /** What the loop still writes. */
  ghost function Dfs(d: Doc, m: Merge, stack: seq<(string, nat)>, visited: set<string>): seq<Line>
    requires Valid(d) && OnStack(d, stack)
    decreases |d.nodes.Keys - visited|, |stack|
  {
    if stack == [] then []
    else
      var (id, depth) := stack[|stack| - 1];
      var rest := stack[..|stack| - 1];
      if id in visited then Dfs(d, m, rest, visited)
      else
        Fewer(d.nodes.Keys, visited, id);
        if id in m.away then Dfs(d, m, rest, visited + {id})
        else [LineOf(d, m.values, id, depth)] + Dfs(d, m, Deeper(d, rest, id, depth), visited + {id})
  }

  lemma {:induction false} Fewer(all: set<string>, visited: set<string>, id: string)
    requires id in all && id !in visited
    ensures |all - (visited + {id})| < |all - visited|
  {
    assert all - visited == (all - (visited + {id})) + {id};
  }

  /** One turn of the loop, on the specification. */
  lemma {:induction false} DfsTurn(d: Doc, m: Merge, stack: seq<(string, nat)>, visited: set<string>)
    requires Valid(d) && OnStack(d, stack) && stack != []
    ensures var (id, depth) := stack[|stack| - 1];
            var rest := stack[..|stack| - 1];
            && OnStack(d, rest) && id in d.nodes
            && (id in visited ==> Dfs(d, m, stack, visited) == Dfs(d, m, rest, visited))
            && (id !in visited ==> |d.nodes.Keys - (visited + {id})| < |d.nodes.Keys - visited|)
            && (id !in visited && id in m.away ==> Dfs(d, m, stack, visited) == Dfs(d, m, rest, visited + {id}))
            && (id !in visited && id !in m.away ==>
                  Dfs(d, m, stack, visited) ==
                    [LineOf(d, m.values, id, depth)] + Dfs(d, m, Deeper(d, rest, id, depth), visited + {id}))
  {
    if stack[|stack| - 1].0 !in visited {
      Fewer(d.nodes.Keys, visited, stack[|stack| - 1].0);
    }
  }

  datatype Merge = Merge(values: map<string, string>, away: set<string>)

  /** The stack the loop starts with: the roots on top, below them every node. */
  ghost function Start(d: Doc): (stack: seq<(string, nat)>)
    requires Valid(d)
    ensures OnStack(d, stack)
  {
    PushOnStack(d, d.order, 0);
    PushOnStack(d, Children(d, None), 0);
    Push(d.order, 0) + Push(Children(d, None), 0)
  }

  ghost function Projection(d: Doc): seq<Line>
    requires Valid(d)
  {
    Dfs(d, Merge(Joined(d), Away(d)), Start(d), {})
  }

  ghost predicate Listed(stack: seq<(string, nat)>, id: string) {
    exists i :: 0 <= i < |stack| && stack[i].0 == id
  }

  ghost function Ids(lines: seq<Line>): seq<string> {
    seq(|lines|, i requires 0 <= i < |lines| => lines[i].id)
  }

  /** These ids are distinct nodes, not visited and not merged away, and all such nodes on the
      stack are among them. */
  ghost predicate WritesOnce(d: Doc, m: Merge, stack: seq<(string, nat)>, visited: set<string>, ids: seq<string>) {
    && Distinct(ids)
    && (forall i | 0 <= i < |ids| :: ids[i] in d.nodes && ids[i] !in visited && ids[i] !in m.away)
    && (forall id | Listed(stack, id) && id !in visited && id !in m.away :: id in ids)
  }

  /** Whatever the parent relation, cycles included: no node is written twice or when it was
      visited before, and every unvisited node on the stack that is not merged away is written. */
  lemma {:induction false} DfsWritesOnce(d: Doc, m: Merge, stack: seq<(string, nat)>, visited: set<string>)
    requires Valid(d) && OnStack(d, stack)
    ensures WritesOnce(d, m, stack, visited, Ids(Dfs(d, m, stack, visited)))
    decreases |d.nodes.Keys - visited|, |stack|
  {
    if stack != [] {
      var (id, depth) := stack[|stack| - 1];
      var rest := stack[..|stack| - 1];
      DfsTurn(d, m, stack, visited);
      StackRest(stack);
      hide Dfs, Valid, Deeper, LineOf, OnStack, Listed;
      if id in visited {
        DfsWritesOnce(d, m, rest, visited);
      } else if id in m.away {
        DfsWritesOnce(d, m, rest, visited + {id});
      } else {
        var later := Dfs(d, m, Deeper(d, rest, id, depth), visited + {id});
        DfsWritesOnce(d, m, Deeper(d, rest, id, depth), visited + {id});
        DeeperKeeps(d, rest, id, depth);
        hide WritesOnce;
        OneMoreWritten(d, m, stack, Deeper(d, rest, id, depth), visited, id, Ids(later));
        WroteFirst([LineOf(d, m.values, id, depth)] + later, later, id);
      }
    }
  }

  lemma {:induction false} DeeperKeeps(d: Doc, rest: seq<(string, nat)>, id: string, depth: nat)
    requires Valid(d) && OnStack(d, rest)
    ensures forall x | Listed(rest, x) :: Listed(Deeper(d, rest, id, depth), x)
  {
    StackMore(rest, Push(Children(d, Some(id)), depth + 1));
  }

  lemma {:induction false} OneMoreWritten(d: Doc, m: Merge, stack: seq<(string, nat)>, next: seq<(string, nat)>,
      visited: set<string>, id: string, ids: seq<string>)
    requires WritesOnce(d, m, next, visited + {id}, ids) && id in d.nodes && id !in visited && id !in m.away
    requires forall x | Listed(stack, x) :: x == id || Listed(next, x)
    ensures WritesOnce(d, m, stack, visited, [id] + ids)
  {
    hide Listed;
    assert forall i | 0 < i < |[id] + ids| :: ([id] + ids)[i] == ids[i - 1];
    assert forall x | x in ids :: x in [id] + ids;
    assert ([id] + ids)[0] == id;
  }

  lemma {:induction false} StackRest(stack: seq<(string, nat)>)
    requires stack != []
    ensures forall id | Listed(stack, id) :: id == stack[|stack| - 1].0 || Listed(stack[..|stack| - 1], id)
  {
  }

  lemma {:induction false} StackMore(a: seq<(string, nat)>, b: seq<(string, nat)>)
    ensures forall id | Listed(a, id) :: Listed(a + b, id)
  {
    forall id | Listed(a, id) ensures Listed(a + b, id) {
      var i :| 0 <= i < |a| && a[i].0 == id;
      assert (a + b)[i].0 == id;
    }
  }

  lemma {:induction false} WroteFirst(lines: seq<Line>, later: seq<Line>, id: string)
    requires |lines| == |later| + 1 && lines[0].id == id && lines[1..] == later
    ensures Ids(lines) == [id] + Ids(later)
  {
  }
}
