/** What the traversal writes: every node once, and on a forest the preorder of its trees. */
module AxPreorder {
  import opened Common
  import opened AxTree

  lemma {:induction false} OnStackListed(ids: seq<string>, depth: nat, under: seq<(string, nat)>, over: seq<(string,
      nat)>)
    requires under == Push(ids, depth)
    ensures forall id | id in ids :: Listed(under + over, id)
  {
    forall id | id in ids ensures Listed(under + over, id) {
      var i :| 0 <= i < |ids| && ids[i] == id;
      assert (under + over)[|ids| - 1 - i] == (id, depth);
    }
  }

  lemma {:induction false} SeqSize(s: seq<string>, all: set<string>)
    requires Distinct(s) && forall x :: x in s <==> x in all
    ensures |s| == |all|
  {
    if s == [] {
      assert all == {};
    } else {
      var init, last := s[..|s| - 1], s[|s| - 1];
      assert last in s;
      forall x ensures x in init <==> x in all - {last} {
        if x in all - {last} {
          var i :| 0 <= i < |s| && s[i] == x;
          assert init[i] == x;
        }
      }
      SeqSize(init, all - {last});
    }
  }

  /** For any parent relation, with missing parents, self-parents and cycles: the loop writes
      every node exactly once except those merged away, so there are as many lines as nodes less
      the merged ones. */
  lemma {:induction false} EveryNodeOnce(d: Doc)
    requires Valid(d)
    ensures var ids := Ids(Projection(d));
            && Distinct(ids)
            && (forall id :: id in ids <==> id in d.nodes && id !in Away(d))
            && |Projection(d)| == |d.nodes| - |Away(d)|
  {
    var ids := Ids(Projection(d));
    WrittenOnce(d);
    hide Dfs, Children, IsAway, Push, Projection, Ids, Distinct, Valid;
    AwayAreNodes(d);
    SeqSize(ids, d.nodes.Keys - Away(d));
    SizeOfIds(Projection(d));
  }

  lemma {:induction false} AwayAreNodes(d: Doc)
    requires Valid(d)
    ensures Away(d) <= d.nodes.Keys && |d.nodes.Keys - Away(d)| == |d.nodes| - |Away(d)|
  {
    hide IsAway;
    assert Away(d) <= d.nodes.Keys;
    SizeLess(d.nodes.Keys, Away(d));
  }

  lemma {:induction false} SizeLess(all: set<string>, part: set<string>)
    requires part <= all
    ensures |all - part| == |all| - |part|
  {
    assert all == (all - part) + part;
  }

  lemma {:induction false} WrittenOnce(d: Doc)
    requires Valid(d)
    ensures Distinct(Ids(Projection(d))) && forall id :: id in Ids(Projection(d)) <==> id in d.nodes.Keys - Away(d)
  {
    DfsWritesOnce(d, Merge(Joined(d), Away(d)), Start(d), {});
    OnStackListed(d.order, 0, Push(d.order, 0), Push(Children(d, None), 0));
    hide Dfs, Children, IsAway, Push;
  }

  lemma {:induction false} SizeOfIds(lines: seq<Line>)
    ensures |Ids(lines)| == |lines|
  {
  }

  // ----- forests -----

  /** No cycles: ranks grow from parent to child. */
  ghost predicate Forest(d: Doc, rank: map<string, nat>, n: nat)
    requires Valid(d)
  {
    forall id | id in d.nodes :: id in rank && rank[id] <= n && Grows(d, rank, id)
  }

  ghost predicate Grows(d: Doc, rank: map<string, nat>, id: string)
    requires id in d.nodes && id in rank
  {
    var p := ParentOf(d.nodes, id);
    p.Some? ==> p.value in rank && rank[p.value] < rank[id]
  }

  ghost predicate AllIn(d: Doc, rank: map<string, nat>, n: nat, ids: seq<string>, lo: nat)
    requires Valid(d) && Forest(d, rank, n)
  {
    forall i | 0 <= i < |ids| :: ids[i] in d.nodes && rank[ids[i]] >= lo
  }

  lemma {:induction false} KidsIn(d: Doc, rank: map<string, nat>, n: nat, id: string)
    requires Valid(d) && Forest(d, rank, n) && id in d.nodes
    ensures AllIn(d, rank, n, Children(d, Some(id)), rank[id] + 1)
  {
    var kids := Children(d, Some(id));
    forall i | 0 <= i < |kids| ensures kids[i] in d.nodes && rank[kids[i]] >= rank[id] + 1 {
      assert kids[i] in kids;
      assert Grows(d, rank, kids[i]);
    }
  }

  /** The trees of these nodes in preorder, children in document order; `lo` bounds the ranks. */
  ghost function Preorder(d: Doc, rank: map<string, nat>, n: nat, m: Merge, ids: seq<string>, depth: nat,
      lo: nat): seq<Line>
    requires Valid(d) && Forest(d, rank, n) && AllIn(d, rank, n, ids, lo)
    decreases n + 1 - lo, |ids|
  {
    if ids == [] then []
    else
      var id := ids[0];
      KidsIn(d, rank, n, id);
      (if id in m.away then [] else [LineOf(d, m.values, id, depth)])
      + Preorder(d, rank, n, m, Children(d, Some(id)), depth + 1, rank[id] + 1)
      + Preorder(d, rank, n, m, ids[1..], depth, lo)
  }

  /** The node a is x or above it. */
  ghost predicate Above(d: Doc, rank: map<string, nat>, n: nat, a: string, x: string)
    requires Valid(d) && Forest(d, rank, n) && x in d.nodes
    decreases rank[x]
  {
    x == a || (ParentOf(d.nodes, x).Some? && Grows(d, rank, x) && Above(d, rank, n, a, ParentOf(d.nodes, x).value))
  }

  lemma {:induction false} AboveRank(d: Doc, rank: map<string, nat>, n: nat, a: string, x: string)
    requires Valid(d) && Forest(d, rank, n) && x in d.nodes && Above(d, rank, n, a, x)
    ensures a in d.nodes && rank[a] <= rank[x] && (rank[a] == rank[x] ==> a == x)
    decreases rank[x]
  {
    if x != a {
      assert Grows(d, rank, x);
      AboveRank(d, rank, n, a, ParentOf(d.nodes, x).value);
    }
  }

  /** Below a node are the node itself and what is below its children. */
  lemma {:induction false} BelowChildren(d: Doc, rank: map<string, nat>, n: nat, a: string, x: string)
    requires Valid(d) && Forest(d, rank, n) && a in d.nodes && x in d.nodes
    ensures Above(d, rank, n, a, x) <==> x == a || UnderSome(d, rank, n, Children(d, Some(a)), x)
    decreases rank[x]
  {
    var kids, p := Children(d, Some(a)), ParentOf(d.nodes, x);
    assert Grows(d, rank, x);
    if p.Some? {
      BelowChildren(d, rank, n, a, p.value);
      if Above(d, rank, n, a, p.value) {
        if p.value == a {
          assert x in kids;
          var i :| 0 <= i < |kids| && kids[i] == x;
          assert Above(d, rank, n, kids[i], x);
        } else {
          var i :| 0 <= i < |kids| && Above(d, rank, n, kids[i], p.value);
          assert Above(d, rank, n, kids[i], x);
        }
      }
    }
    if UnderSome(d, rank, n, kids, x) {
      var i :| 0 <= i < |kids| && Above(d, rank, n, kids[i], x);
      AboveChild(d, rank, n, a, kids[i], x);
    }
  }

  lemma {:induction false} AboveChild(d: Doc, rank: map<string, nat>, n: nat, a: string, c: string, x: string)
    requires Valid(d) && Forest(d, rank, n) && x in d.nodes && c in d.nodes && ParentOf(d.nodes, c) == Some(a)
    requires Above(d, rank, n, c, x)
    ensures Above(d, rank, n, a, x)
    decreases rank[x]
  {
    assert Grows(d, rank, x);
    if x == c {
      assert Above(d, rank, n, a, a);
    } else {
      AboveChild(d, rank, n, a, c, ParentOf(d.nodes, x).value);
    }
  }

  ghost predicate UnderSome(d: Doc, rank: map<string, nat>, n: nat, ids: seq<string>, x: string)
    requires Valid(d) && Forest(d, rank, n) && x in d.nodes
  {
    exists i :: 0 <= i < |ids| && Above(d, rank, n, ids[i], x)
  }

  ghost function Under(d: Doc, rank: map<string, nat>, n: nat, ids: seq<string>): set<string>
    requires Valid(d) && Forest(d, rank, n)
  {
    set x | x in d.nodes && UnderSome(d, rank, n, ids, x)
  }

  /** Siblings have nothing below both of them. */
  lemma {:induction false} SiblingsApart(d: Doc, rank: map<string, nat>, n: nat, a: string, b: string, x: string)
    requires Valid(d) && Forest(d, rank, n) && x in d.nodes && a in d.nodes && b in d.nodes && a != b
    requires ParentOf(d.nodes, a) == ParentOf(d.nodes, b)
    ensures !(Above(d, rank, n, a, x) && Above(d, rank, n, b, x))
    decreases rank[x]
  {
    var p := ParentOf(d.nodes, x);
    assert Grows(d, rank, x) && Grows(d, rank, a) && Grows(d, rank, b);
    if p.Some? {
      if x == a && Above(d, rank, n, b, p.value) {
        AboveRank(d, rank, n, b, p.value);
      } else if x == b && Above(d, rank, n, a, p.value) {
        AboveRank(d, rank, n, a, p.value);
      } else if x != a && x != b {
        SiblingsApart(d, rank, n, a, b, p.value);
      }
    }
  }

  lemma {:induction false} UnderFirst(d: Doc, rank: map<string, nat>, n: nat, ids: seq<string>)
    requires Valid(d) && Forest(d, rank, n) && ids != [] && ids[0] in d.nodes
    ensures Under(d, rank, n, ids) == Under(d, rank, n, [ids[0]]) + Under(d, rank, n, ids[1..])
    ensures Under(d, rank, n, [ids[0]]) == {ids[0]} + Under(d, rank, n, Children(d, Some(ids[0])))
  {
    forall x | x in d.nodes
      ensures UnderSome(d, rank, n, ids, x) <==> Above(d, rank, n, ids[0], x) || UnderSome(d, rank, n, ids[1..], x)
      ensures UnderSome(d, rank, n, [ids[0]], x) <==> Above(d, rank, n, ids[0], x)
      ensures UnderSome(d, rank, n, [ids[0]], x) <==> x == ids[0] || UnderSome(d, rank, n, Children(d, Some(ids[0])), x)
    {
      BelowChildren(d, rank, n, ids[0], x);
      if Above(d, rank, n, ids[0], x) {
        assert Above(d, rank, n, [ids[0]][0], x);
      }
      if UnderSome(d, rank, n, ids[1..], x) {
        var i :| 0 <= i < |ids[1..]| && Above(d, rank, n, ids[1..][i], x);
        assert Above(d, rank, n, ids[i + 1], x);
      }
      if i :| 0 < i < |ids| && Above(d, rank, n, ids[i], x) {
        assert Above(d, rank, n, ids[1..][i - 1], x);
      }
    }
  }

  /** The siblings of one parent, none visited so far, nor anything below them. */
  ghost predicate Unvisited(d: Doc, rank: map<string, nat>, n: nat, ids: seq<string>, parent: Option<string>,
      visited: set<string>)
    requires Valid(d) && Forest(d, rank, n)
  {
    && Distinct(ids) && (forall i | 0 <= i < |ids| :: ids[i] in d.nodes && ParentOf(d.nodes, ids[i]) == parent)
    && Under(d, rank, n, ids) !! visited
  }

  lemma {:induction false} KidsUnvisited(d: Doc, rank: map<string, nat>, n: nat, ids: seq<string>,
      parent: Option<string>, visited: set<string>)
    requires Valid(d) && Forest(d, rank, n) && ids != [] && Unvisited(d, rank, n, ids, parent, visited)
    ensures ids[0] !in visited
    ensures Unvisited(d, rank, n, Children(d, Some(ids[0])), Some(ids[0]), visited + {ids[0]})
    ensures Unvisited(d, rank, n, ids[1..], parent, visited + Under(d, rank, n, [ids[0]]))
  {
    var id, kids := ids[0], Children(d, Some(ids[0]));
    UnderFirst(d, rank, n, ids);
    assert id in Under(d, rank, n, ids) && Under(d, rank, n, kids) !! visited;
    ChildrenDistinct(d.order, d.nodes, Some(id));
    assert forall i | 0 <= i < |kids| :: kids[i] in kids;
    NotBelowItself(d, rank, n, id);
    RestApart(d, rank, n, ids, parent);
    hide Under, Children, Grows;
  }

  lemma {:induction false} NotBelowItself(d: Doc, rank: map<string, nat>, n: nat, id: string)
    requires Valid(d) && Forest(d, rank, n) && id in d.nodes
    ensures id !in Under(d, rank, n, Children(d, Some(id)))
  {
    var kids := Children(d, Some(id));
    forall i | 0 <= i < |kids| ensures !Above(d, rank, n, kids[i], id) {
      assert kids[i] in kids;
      assert Grows(d, rank, kids[i]);
      if Above(d, rank, n, kids[i], id) {
        AboveRank(d, rank, n, kids[i], id);
      }
    }
  }

  lemma {:induction false} RestApart(d: Doc, rank: map<string, nat>, n: nat, ids: seq<string>, parent: Option<string>)
    requires Valid(d) && Forest(d, rank, n) && ids != [] && Distinct(ids)
    requires forall i | 0 <= i < |ids| :: ids[i] in d.nodes && ParentOf(d.nodes, ids[i]) == parent
    ensures Under(d, rank, n, ids[1..]) !! Under(d, rank, n, [ids[0]])
  {
    forall x | x in Under(d, rank, n, ids[1..]) ensures x !in Under(d, rank, n, [ids[0]]) {
      var i :| 0 <= i < |ids[1..]| && Above(d, rank, n, ids[1..][i], x);
      assert ids[1..][i] == ids[i + 1];
      SiblingsApart(d, rank, n, ids[0], ids[i + 1], x);
    }
  }

  ghost predicate LeavesAway(d: Doc, m: Merge)
    requires Valid(d)
  {
    forall id | id in m.away && id in d.nodes :: Children(d, Some(id)) == []
  }

  lemma {:induction false} PushFirst(rest: seq<(string, nat)>, ids: seq<string>, depth: nat)
    requires ids != []
    ensures var stack := rest + Push(ids, depth);
            stack != [] && stack[|stack| - 1] == (ids[0], depth) && stack[..|stack| - 1] == rest + Push(ids[1..], depth)
  {
  }

  lemma {:induction false} StackIn(d: Doc, rest: seq<(string, nat)>, ids: seq<string>, depth: nat)
    requires Valid(d) && OnStack(d, rest) && forall i | 0 <= i < |ids| :: ids[i] in d.nodes
    ensures OnStack(d, rest + Push(ids, depth))
  {
    PushOnStack(d, ids, depth);
  }

  /** What the loop writes, and the preorder, as values to reason about without unfolding. */
  ghost function Lines(d: Doc, m: Merge, stack: seq<(string, nat)>, visited: set<string>): seq<Line>
    requires Valid(d) && OnStack(d, stack)
  {
    Dfs(d, m, stack, visited)
  }

  ghost function Trees(d: Doc, rank: map<string, nat>, n: nat, m: Merge, ids: seq<string>, depth: nat,
                       lo: nat): seq<Line>
    requires Valid(d) && Forest(d, rank, n) && AllIn(d, rank, n, ids, lo)
  {
    Preorder(d, rank, n, m, ids, depth, lo)
  }

  /** These siblings on top of a stack. */
  ghost function Over(rest: seq<(string, nat)>, ids: seq<string>, depth: nat): seq<(string, nat)> {
    rest + Push(ids, depth)
  }

  /** The siblings on top of the stack are written with everything below them, in preorder,
      before anything deeper on the stack is looked at. */
  lemma {:induction false} DfsIsPreorder(d: Doc, rank: map<string, nat>, n: nat, m: Merge, ids: seq<string>, depth: nat,
                                         lo: nat, parent: Option<string>, rest: seq<(string, nat)>,
                                         visited: set<string>)
    requires Valid(d) && Forest(d, rank, n) && AllIn(d, rank, n, ids, lo) && OnStack(d, rest) && LeavesAway(d, m)
    requires Unvisited(d, rank, n, ids, parent, visited)
    ensures OnStack(d, Over(rest, ids, depth))
    ensures Lines(d, m, Over(rest, ids, depth), visited) ==
              Trees(d, rank, n, m, ids, depth, lo) + Lines(d, m, rest, visited + Under(d, rank, n, ids))
    decreases n + 1 - lo, |ids|
  {
    if ids == [] {
      NothingOnTop(d, rank, n, m, depth, lo, rest, visited);
    } else {
      RestReady(d, rank, n, ids, lo, parent, visited);
      var visited' := visited + Under(d, rank, n, [ids[0]]);
      FirstSubtree(d, rank, n, m, ids, depth, lo, parent, rest, visited);
      FirstThenRest(d, rank, n, m, ids, depth, lo);
      hide *;
      DfsIsPreorder(d, rank, n, m, ids[1..], depth, lo, parent, rest, visited');
      Regroup(First(d, rank, n, m, ids[0], depth), Trees(d, rank, n, m, ids[1..], depth, lo),
              Lines(d, m, rest, visited + Under(d, rank, n, ids)));
    }
  }

  lemma {:induction false} Regroup<T>(a: seq<T>, b: seq<T>, c: seq<T>)
    ensures a + b + c == a + (b + c)
  {
  }

  lemma {:induction false} NothingOnTop(d: Doc, rank: map<string, nat>, n: nat, m: Merge, depth: nat, lo: nat,
      rest: seq<(string, nat)>,
                     visited: set<string>)
    requires Valid(d) && Forest(d, rank, n) && OnStack(d, rest)
    ensures Over(rest, [], depth) == rest && AllIn(d, rank, n, [], lo)
    ensures Trees(d, rank, n, m, [], depth, lo) == [] && visited + Under(d, rank, n, []) == visited
  {
    NoneUnder(d, rank, n);
    hide Under;
  }

  lemma {:induction false} RestReady(d: Doc, rank: map<string, nat>, n: nat, ids: seq<string>, lo: nat,
      parent: Option<string>, visited: set<string>)
    requires Valid(d) && Forest(d, rank, n) && AllIn(d, rank, n, ids, lo) && ids != []
    requires Unvisited(d, rank, n, ids, parent, visited)
    ensures AllIn(d, rank, n, ids[1..], lo)
    ensures var visited' := visited + Under(d, rank, n, [ids[0]]);
            Unvisited(d, rank, n, ids[1..], parent, visited')
            && visited + Under(d, rank, n, ids) == visited' + Under(d, rank, n, ids[1..])
  {
    KidsUnvisited(d, rank, n, ids, parent, visited);
    UnderFirst(d, rank, n, ids);
    hide Under, Unvisited, Children;
  }

  ghost function First(d: Doc, rank: map<string, nat>, n: nat, m: Merge, id: string, depth: nat): seq<Line>
    requires Valid(d) && Forest(d, rank, n) && id in d.nodes
  {
    KidsIn(d, rank, n, id);
    (if id in m.away then [] else [LineOf(d, m.values, id, depth)])
    + Trees(d, rank, n, m, Children(d, Some(id)), depth + 1, rank[id] + 1)
  }

  lemma {:induction false} FirstThenRest(d: Doc, rank: map<string, nat>, n: nat, m: Merge, ids: seq<string>,
      depth: nat, lo: nat)
    requires Valid(d) && Forest(d, rank, n) && AllIn(d, rank, n, ids, lo) && ids != []
    ensures Trees(d, rank, n, m, ids, depth, lo) ==
              First(d, rank, n, m, ids[0], depth) + Trees(d, rank, n, m, ids[1..], depth, lo)
  {
  }

  /** The first of them with everything below it. */
  lemma {:induction false} FirstSubtree(d: Doc, rank: map<string, nat>, n: nat, m: Merge, ids: seq<string>, depth: nat,
      lo: nat, parent: Option<string>, rest: seq<(string, nat)>, visited: set<string>)
    requires Valid(d) && Forest(d, rank, n) && AllIn(d, rank, n, ids, lo) && OnStack(d, rest) && LeavesAway(d, m)
    requires Unvisited(d, rank, n, ids, parent, visited) && ids != []
    ensures OnStack(d, Over(rest, ids, depth)) && OnStack(d, Over(rest, ids[1..], depth))
    ensures Lines(d, m, Over(rest, ids, depth), visited) ==
              First(d, rank, n, m, ids[0], depth)
              + Lines(d, m, Over(rest, ids[1..], depth), visited + Under(d, rank, n, [ids[0]]))
    decreases n + 1 - lo, |ids|, 1
  {
    if ids[0] in m.away {
      FirstAway(d, rank, n, m, ids, depth, lo, parent, rest, visited);
    } else {
      BelowFirst(d, rank, n, m, ids, depth, lo, parent, rest, visited);
      FirstWritten(d, rank, n, m, ids, depth, lo, parent, rest, visited);
    }
  }

  /** What is below the first of them is written next. */
  lemma {:induction false} BelowFirst(d: Doc, rank: map<string, nat>, n: nat, m: Merge, ids: seq<string>, depth: nat,
      lo: nat, parent: Option<string>, rest: seq<(string, nat)>, visited: set<string>)
    requires Valid(d) && Forest(d, rank, n) && AllIn(d, rank, n, ids, lo) && OnStack(d, rest) && LeavesAway(d, m)
    requires Unvisited(d, rank, n, ids, parent, visited) && ids != []
    ensures KidsFollow(d, rank, n, m, ids[0], depth, Over(rest, ids[1..], depth), visited)
    decreases n + 1 - lo, |ids|, 0
  {
    var id, kids, rest' := ids[0], Children(d, Some(ids[0])), Over(rest, ids[1..], depth);
    assert OnStack(d, rest') by {
      StackIn(d, rest, ids[1..], depth);
    }
    KidsReady(d, rank, n, m, ids, lo, parent, visited);
    hide *;
    DfsIsPreorder(d, rank, n, m, kids, depth + 1, rank[id] + 1, Some(id), rest', visited + {id});
    FollowIntro(d, rank, n, m, id, kids, depth, rest', visited);
  }

  lemma {:induction false} FollowIntro(d: Doc, rank: map<string, nat>, n: nat, m: Merge, id: string, kids: seq<string>,
      depth: nat, rest: seq<(string, nat)>, visited: set<string>)
    requires Valid(d) && Forest(d, rank, n) && id in d.nodes && OnStack(d, rest) && kids == Children(d, Some(id))
    requires AllIn(d, rank, n, kids, rank[id] + 1) && OnStack(d, Over(rest, kids, depth + 1))
    requires Lines(d, m, Over(rest, kids, depth + 1), visited + {id}) ==
               Trees(d, rank, n, m, kids, depth + 1, rank[id] + 1)
               + Lines(d, m, rest, visited + {id} + Under(d, rank, n, kids))
    ensures KidsFollow(d, rank, n, m, id, depth, rest, visited)
  {
    hide Dfs, Lines, Under, OnStack, AllIn, Children, Over, Valid, Preorder, Trees, Forest;
  }

  ghost predicate KidsFollow(d: Doc, rank: map<string, nat>, n: nat, m: Merge, id: string, depth: nat,
      rest: seq<(string, nat)>, visited: set<string>)
    requires Valid(d) && Forest(d, rank, n)
  {
    && id in d.nodes && OnStack(d, rest)
    && var kids := Children(d, Some(id));
       && AllIn(d, rank, n, kids, rank[id] + 1) && OnStack(d, Over(rest, kids, depth + 1))
       && Lines(d, m, Over(rest, kids, depth + 1), visited + {id}) ==
            Trees(d, rank, n, m, kids, depth + 1, rank[id] + 1)
            + Lines(d, m, rest, visited + {id} + Under(d, rank, n, kids))
  }

  lemma {:induction false} FirstAway(d: Doc, rank: map<string, nat>, n: nat, m: Merge, ids: seq<string>, depth: nat,
      lo: nat, parent: Option<string>, rest: seq<(string, nat)>, visited: set<string>)
    requires Valid(d) && Forest(d, rank, n) && AllIn(d, rank, n, ids, lo) && OnStack(d, rest) && LeavesAway(d, m)
    requires Unvisited(d, rank, n, ids, parent, visited) && ids != [] && ids[0] in m.away
    ensures OnStack(d, Over(rest, ids, depth)) && OnStack(d, Over(rest, ids[1..], depth))
    ensures Lines(d, m, Over(rest, ids, depth), visited) ==
              First(d, rank, n, m, ids[0], depth)
              + Lines(d, m, Over(rest, ids[1..], depth), visited + Under(d, rank, n, [ids[0]]))
  {
    var id, rest' := ids[0], Over(rest, ids[1..], depth);
    StackReady(d, rank, n, ids, depth, lo, rest);
    KidsReady(d, rank, n, m, ids, lo, parent, visited);
    SetsReady(d, rank, n, id, visited);
    FirstLines(d, rank, n, m, id, depth);
    hide *;
    DfsTop(d, m, rest', id, depth, visited);
    NothingFirst(First(d, rank, n, m, id, depth), Lines(d, m, rest', visited + Under(d, rank, n, [id])));
  }

  lemma {:induction false} FirstWritten(d: Doc, rank: map<string, nat>, n: nat, m: Merge, ids: seq<string>, depth: nat,
      lo: nat, parent: Option<string>, rest: seq<(string, nat)>, visited: set<string>)
    requires Valid(d) && Forest(d, rank, n) && AllIn(d, rank, n, ids, lo) && OnStack(d, rest) && LeavesAway(d, m)
    requires Unvisited(d, rank, n, ids, parent, visited) && ids != [] && ids[0] !in m.away
    requires KidsFollow(d, rank, n, m, ids[0], depth, Over(rest, ids[1..], depth), visited)
    ensures OnStack(d, Over(rest, ids, depth)) && OnStack(d, Over(rest, ids[1..], depth))
    ensures Lines(d, m, Over(rest, ids, depth), visited) ==
              First(d, rank, n, m, ids[0], depth)
              + Lines(d, m, Over(rest, ids[1..], depth), visited + Under(d, rank, n, [ids[0]]))
  {
    var id, kids, rest' := ids[0], Children(d, Some(ids[0])), Over(rest, ids[1..], depth);
    StackReady(d, rank, n, ids, depth, lo, rest);
    assert id !in visited && id in d.nodes by {
      KidsReady(d, rank, n, m, ids, lo, parent, visited);
    }
    KidsWritten(d, rank, n, m, id, depth, rest', visited);
    FirstLines(d, rank, n, m, id, depth);
    TopWritten(d, m, rest', id, kids, depth, visited);
    hide *;
    Glue([LineOf(d, m.values, id, depth)], Trees(d, rank, n, m, kids, depth + 1, rank[id] + 1),
         Lines(d, m, Over(rest', kids, depth + 1), visited + {id}),
         Lines(d, m, rest', visited + Under(d, rank, n, [id])));
  }

  lemma {:induction false} Glue<T>(line: seq<T>, pre: seq<T>, below: seq<T>, later: seq<T>)
    requires below == pre + later
    ensures line + below == line + pre + later
  {
  }

  lemma {:induction false} KidsWritten(d: Doc, rank: map<string, nat>, n: nat, m: Merge, id: string, depth: nat,
      rest: seq<(string, nat)>, visited: set<string>)
    requires Valid(d) && Forest(d, rank, n) && KidsFollow(d, rank, n, m, id, depth, rest, visited)
    ensures id in d.nodes && OnStack(d, rest)
    ensures var kids := Children(d, Some(id));
            && AllIn(d, rank, n, kids, rank[id] + 1) && OnStack(d, Over(rest, kids, depth + 1))
            && Lines(d, m, Over(rest, kids, depth + 1), visited + {id}) ==
                 Trees(d, rank, n, m, kids, depth + 1, rank[id] + 1)
                 + Lines(d, m, rest, visited + Under(d, rank, n, [id]))
  {
    SetsReady(d, rank, n, id, visited);
    hide Dfs, Lines, Under, OnStack, AllIn, Children, Over, Valid, Preorder;
  }

  lemma {:induction false} TopWritten(d: Doc, m: Merge, rest: seq<(string, nat)>, id: string, kids: seq<string>,
                                      depth: nat, visited: set<string>)
    requires Valid(d) && OnStack(d, rest) && id in d.nodes && id !in visited && id !in m.away
    requires Deeper(d, rest, id, depth) == Over(rest, kids, depth + 1)
    ensures OnStack(d, Over(rest, kids, depth + 1)) && OnStack(d, rest + [(id, depth)])
    ensures Lines(d, m, rest + [(id, depth)], visited) ==
              [LineOf(d, m.values, id, depth)] + Lines(d, m, Over(rest, kids, depth + 1), visited + {id})
  {
    DfsTop(d, m, rest, id, depth, visited);
    hide *;
  }

  lemma {:induction false} NothingFirst<T>(a: seq<T>, b: seq<T>)
    requires a == []
    ensures a + b == b
  {
  }

  lemma {:induction false} FirstLines(d: Doc, rank: map<string, nat>, n: nat, m: Merge, id: string, depth: nat)
    requires Valid(d) && Forest(d, rank, n) && id in d.nodes
    ensures AllIn(d, rank, n, Children(d, Some(id)), rank[id] + 1)
    ensures id !in m.away ==>
              First(d, rank, n, m, id, depth) ==
                [LineOf(d, m.values, id, depth)] + Trees(d, rank, n, m, Children(d, Some(id)), depth + 1, rank[id] + 1)
    ensures id in m.away && Children(d, Some(id)) == [] ==> First(d, rank, n, m, id, depth) == []
  {
    KidsIn(d, rank, n, id);
    NoKids(d, rank, n, m, depth + 1, rank[id] + 1);
    hide Children, AllIn, LineOf;
  }

  lemma {:induction false} NoKids(d: Doc, rank: map<string, nat>, n: nat, m: Merge, depth: nat, lo: nat)
    requires Valid(d) && Forest(d, rank, n)
    ensures AllIn(d, rank, n, [], lo) && Trees(d, rank, n, m, [], depth, lo) == []
  {
  }

  /** Taking the first sibling off the stack. */
  lemma {:induction false} StackReady(d: Doc, rank: map<string, nat>, n: nat, ids: seq<string>, depth: nat, lo: nat,
      rest: seq<(string, nat)>)
    requires Valid(d) && Forest(d, rank, n) && AllIn(d, rank, n, ids, lo) && OnStack(d, rest) && ids != []
    ensures OnStack(d, Over(rest, ids, depth)) && OnStack(d, Over(rest, ids[1..], depth))
    ensures Over(rest, ids, depth) == Over(rest, ids[1..], depth) + [(ids[0], depth)]
    ensures Deeper(d, Over(rest, ids[1..], depth), ids[0], depth) ==
              Over(Over(rest, ids[1..], depth), Children(d, Some(ids[0])), depth + 1)
  {
    StackIn(d, rest, ids, depth);
    StackIn(d, rest, ids[1..], depth);
    PushFirst(rest, ids, depth);
    hide Children, OnStack, Push, Valid, Forest;
  }

  lemma {:induction false} KidsReady(d: Doc, rank: map<string, nat>, n: nat, m: Merge, ids: seq<string>,
      lo: nat, parent: Option<string>, visited: set<string>)
    requires Valid(d) && Forest(d, rank, n) && AllIn(d, rank, n, ids, lo) && LeavesAway(d, m)
    requires Unvisited(d, rank, n, ids, parent, visited) && ids != []
    ensures var id, kids := ids[0], Children(d, Some(ids[0]));
            && id in d.nodes && id in rank && lo <= rank[id] <= n && id !in visited
            && AllIn(d, rank, n, kids, rank[id] + 1) && (id in m.away ==> kids == [])
            && Unvisited(d, rank, n, kids, Some(id), visited + {id})
  {
    KidsIn(d, rank, n, ids[0]);
    KidsUnvisited(d, rank, n, ids, parent, visited);
    hide Children, Under, Unvisited;
  }

  /** The same nodes count as visited, however one adds them up. */
  lemma {:induction false} SetsReady(d: Doc, rank: map<string, nat>, n: nat, id: string, visited: set<string>)
    requires Valid(d) && Forest(d, rank, n) && id in d.nodes
    ensures var kids := Children(d, Some(id));
            && visited + {id} + Under(d, rank, n, kids) == visited + Under(d, rank, n, [id])
            && (kids == [] ==> visited + {id} == visited + Under(d, rank, n, [id]))
  {
    UnderFirst(d, rank, n, [id]);
    NoneUnder(d, rank, n);
    hide Children, Under;
  }

  lemma {:induction false} NoneUnder(d: Doc, rank: map<string, nat>, n: nat)
    requires Valid(d) && Forest(d, rank, n)
    ensures Under(d, rank, n, []) == {}
  {
  }

  lemma {:induction false} DfsTop(d: Doc, m: Merge, rest: seq<(string, nat)>, id: string, depth: nat,
      visited: set<string>)
    requires Valid(d) && OnStack(d, rest) && id in d.nodes && id !in visited
    ensures OnStack(d, rest + [(id, depth)])
    ensures Lines(d, m, rest + [(id, depth)], visited) ==
              if id in m.away then Lines(d, m, rest, visited + {id})
              else [LineOf(d, m.values, id, depth)] + Lines(d, m, Deeper(d, rest, id, depth), visited + {id})
  {
    assert (rest + [(id, depth)])[..|rest|] == rest;
    Fewer(d.nodes.Keys, visited, id);
  }

  lemma {:induction false} NothingLeft(d: Doc, m: Merge, stack: seq<(string, nat)>, visited: set<string>)
    requires Valid(d) && OnStack(d, stack) && d.nodes.Keys <= visited
    ensures Lines(d, m, stack, visited) == []
  {
    if stack != [] {
      NothingLeft(d, m, stack[..|stack| - 1], visited);
    }
  }

  /** In a forest everything is below a root. */
  lemma {:induction false} BelowRoot(d: Doc, rank: map<string, nat>, n: nat, x: string)
    requires Valid(d) && Forest(d, rank, n) && x in d.nodes
    ensures UnderSome(d, rank, n, Children(d, None), x)
    decreases rank[x]
  {
    var p, roots := ParentOf(d.nodes, x), Children(d, None);
    assert Grows(d, rank, x);
    if p.None? {
      assert x in roots;
      var i :| 0 <= i < |roots| && roots[i] == x;
      assert Above(d, rank, n, roots[i], x);
    } else {
      BelowRoot(d, rank, n, p.value);
      var i :| 0 <= i < |roots| && Above(d, rank, n, roots[i], p.value);
      assert Above(d, rank, n, roots[i], x);
    }
  }

  /** When the parent relation is a forest, the projection is the preorder of its trees in
      document order, each line indented by its depth up to 64, without the merged-away nodes. */
  lemma {:induction false} ForestIsPreorder(d: Doc, rank: map<string, nat>, n: nat)
    requires Valid(d) && Forest(d, rank, n)
    ensures AllIn(d, rank, n, Children(d, None), 0)
    ensures Projection(d) == Preorder(d, rank, n, Merge(Joined(d), Away(d)), Children(d, None), 0, 0)
  {
    var m, roots, base := Merge(Joined(d), Away(d)), Children(d, None), Push(d.order, 0);
    RootsUnvisited(d, rank, n);
    AwayAreLeaves(d);
    AllBelowRoots(d, rank, n);
    PushOnStack(d, d.order, 0) by {
      AllListed(d);
    }
    hide Children, Dfs, Away, Joined, Preorder, Trees, Push, Forest, Valid, Under, Unvisited, AllIn, OnStack,
         LeavesAway;
    DfsIsPreorder(d, rank, n, m, roots, 0, 0, None, base, {});
    var all := {} + Under(d, rank, n, roots);
    NothingLeft(d, m, base, all);
  }

  lemma {:induction false} AllListed(d: Doc)
    requires Valid(d)
    ensures forall i | 0 <= i < |d.order| :: d.order[i] in d.nodes
  {
  }

  lemma {:induction false} AwayAreLeaves(d: Doc)
    requires Valid(d)
    ensures LeavesAway(d, Merge(Joined(d), Away(d)))
  {
    hide Children;
    forall id | id in Away(d) && id in d.nodes ensures Children(d, Some(id)) == [] {
      MergedArePassiveLeaves(d, id);
    }
    hide Away, Joined;
  }

  lemma {:induction false} RootsUnvisited(d: Doc, rank: map<string, nat>, n: nat)
    requires Valid(d) && Forest(d, rank, n)
    ensures AllIn(d, rank, n, Children(d, None), 0) && Unvisited(d, rank, n, Children(d, None), None, {})
  {
    var roots := Children(d, None);
    assert forall i | 0 <= i < |roots| :: roots[i] in roots;
    ChildrenDistinct(d.order, d.nodes, None);
    hide Under;
  }

  lemma {:induction false} AllBelowRoots(d: Doc, rank: map<string, nat>, n: nat)
    requires Valid(d) && Forest(d, rank, n)
    ensures d.nodes.Keys <= {} + Under(d, rank, n, Children(d, None))
  {
    hide Children, UnderSome;
    forall x | x in d.nodes.Keys ensures x in Under(d, rank, n, Children(d, None)) {
      BelowRoot(d, rank, n, x);
    }
  }
}
