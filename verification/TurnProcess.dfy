/** Grouping a conversation's items into turns. */
module TurnProcess {

  datatype Kind = UserItem | AssistantItem | ToolItem | ThinkingItem | FileChange | TurnDuration | OtherItem

  datatype Item = Item(id: string, kind: Kind, hasOrigin: bool, steers: bool)

  datatype Turn = Turn(items: seq<Item>, completed: bool)

  /** A message typed by the user, neither injected nor a steering follow-up. */
  predicate StartsTurn(item: Item) {
    item.kind == UserItem && !item.hasOrigin && !item.steers
  }

  predicate EndsTurn(item: Item) {
    item.kind == TurnDuration
  }

  // ----- the loop, as a fold -----

  datatype Progress = Progress(turns: seq<Turn>, current: seq<Item>)

  function Finish(p: Progress, completed: bool): Progress {
    if p.current == [] then p else Progress(p.turns + [Turn(p.current, completed)], [])
  }

  function Step(p: Progress, item: Item): Progress {
    var p' := if StartsTurn(item) then Finish(p, true) else p;
    var p'' := p'.(current := p'.current + [item]);
    if EndsTurn(item) then Finish(p'', true) else p''
  }

  function Fold(p: Progress, items: seq<Item>): Progress {
    if items == [] then p else Step(Fold(p, items[..|items| - 1]), items[|items| - 1])
  }

  function GroupTurns(items: seq<Item>, busy: bool): seq<Turn> {
    Finish(Fold(Progress([], []), items), !busy).turns
  }

  method Group(items: seq<Item>, busy: bool) returns (turns: seq<Turn>)
    ensures turns == GroupTurns(items, busy)
  {
    turns := [];
    var current: seq<Item> := [];
    var i := 0;
    while i < |items|
      invariant i <= |items| && Progress(turns, current) == Fold(Progress([], []), items[..i])
    {
      assert items[..i + 1][..i] == items[..i];
      var item := items[i];
      if StartsTurn(item) {
        turns, current := FinishTurn(turns, current, true);
      }
      current := current + [item];
      if EndsTurn(item) {
        turns, current := FinishTurn(turns, current, true);
      }
      i := i + 1;
    }
    assert items[..i] == items;
    turns, current := FinishTurn(turns, current, !busy);
  }

  method FinishTurn(turns: seq<Turn>, current: seq<Item>, completed: bool) returns (turns': seq<Turn>,
      current': seq<Item>)
    ensures Progress(turns', current') == Finish(Progress(turns, current), completed)
  {
    turns', current' := turns, current;
    if current != [] {
      turns' := turns + [Turn(current, completed)];
      current' := [];
    }
  }

  // ----- what the groups are -----

  function Items(turns: seq<Turn>): seq<Item> {
    if turns == [] then [] else Items(turns[..|turns| - 1]) + turns[|turns| - 1].items
  }

  /** A turn is not empty, only its first item may start a turn, only its last may end one. */
  ghost predicate WellFormed(items: seq<Item>) {
    && items != []
    && (forall i | 0 < i < |items| :: !StartsTurn(items[i]))
    && (forall i | 0 <= i < |items| - 1 :: !EndsTurn(items[i]))
  }

  /** Two turns are apart only where something starts or ends one. */
  ghost predicate Justified(a: seq<Item>, b: seq<Item>) {
    a != [] && b != [] && (EndsTurn(a[|a| - 1]) || StartsTurn(b[0]))
  }

  ghost predicate Grouped(turns: seq<Turn>) {
    && (forall k | 0 <= k < |turns| :: WellFormed(turns[k].items))
    && (forall k | 0 < k < |turns| :: Justified(turns[k - 1].items, turns[k].items))
  }

  /** Only the last turn can be unfinished: it is when the conversation is busy and nothing
      ended it. */
  ghost predicate FlagsRight(turns: seq<Turn>, busy: bool) {
    forall k | 0 <= k < |turns| ::
      turns[k].completed == !(busy && k == |turns| - 1 && turns[k].items != []
                              && !EndsTurn(turns[k].items[|turns[k].items| - 1]))
  }

  /** The loop's state: the turns so far and the open one, which nothing has ended. */
  ghost predicate Reached(p: Progress, items: seq<Item>) {
    && Items(p.turns) + p.current == items
    && Grouped(p.turns) && (forall k | 0 <= k < |p.turns| :: p.turns[k].completed)
    && (p.current == [] ==> p.turns == [] || LastEnds(p.turns[|p.turns| - 1].items))
    && (p.current != [] ==> WellFormed(p.current) && !LastEnds(p.current)
                            && (p.turns != [] ==> Justified(p.turns[|p.turns| - 1].items, p.current)))
  }

  ghost predicate LastEnds(items: seq<Item>) {
    items != [] && EndsTurn(items[|items| - 1])
  }

  lemma {:induction false} FinishKeeps(p: Progress, items: seq<Item>, completed: bool)
    requires Reached(p, items) && p.current != []
    ensures var p' := Finish(p, completed);
            Items(p'.turns) == items && Grouped(p'.turns) && p'.current == []
  {
    var p' := Finish(p, completed);
    assert p'.turns[..|p'.turns| - 1] == p.turns;
    hide StartsTurn, EndsTurn, WellFormed;
  }

  /** A turn may grow by an item that starts none, or begin with any item. */
  lemma {:induction false} GrowTurn(current: seq<Item>, item: Item)
    requires current == [] || (WellFormed(current) && !LastEnds(current) && !StartsTurn(item))
    ensures WellFormed(current + [item]) && (LastEnds(current + [item]) <==> EndsTurn(item))
  {
  }

  lemma {:induction false} OpenTurn(turns: seq<Turn>, current: seq<Item>, item: Item, items: seq<Item>)
    requires Reached(Progress(turns, current), items)
    requires StartsTurn(item) ==> current == []
    ensures var current' := current + [item];
            && WellFormed(current') && (turns != [] ==> Justified(turns[|turns| - 1].items, current'))
            && Items(turns) + current' == items + [item] && (LastEnds(current') <==> EndsTurn(item))
  {
    GrowTurn(current, item);
    hide Items, StartsTurn, WellFormed, Grouped;
    Regroup(Items(turns), current, [item]);
    if current == [] {
      assert turns != [] ==> LastEnds(turns[|turns| - 1].items);
    } else {
      assert (current + [item])[0] == current[0];
    }
  }

  lemma {:induction false} Regroup<T>(a: seq<T>, b: seq<T>, c: seq<T>)
    ensures a + b + c == a + (b + c)
  {
  }

  /** Before a starter the open turn is pushed, though nothing in it ended it. */
  lemma {:induction false} StarterKeeps(p: Progress, items: seq<Item>, item: Item)
    requires Reached(p, items) && StartsTurn(item) && p.current != []
    ensures Reached(Step(p, item), items + [item])
  {
    FinishKeeps(p, items, true);
    var turns := p.turns + [Turn(p.current, true)];
    GrowTurn([], item);
    assert [] + [item] == [item];
    assert Step(p, item) == Progress(turns, [item]);
    hide Items, StartsTurn, WellFormed, Step, Grouped, Finish;
    assert Justified(turns[|turns| - 1].items, [item]);
  }

  lemma {:induction false} ItemsMore(turns: seq<Turn>, t: Turn)
    ensures Items(turns + [t]) == Items(turns) + t.items
  {
    assert (turns + [t])[..|turns|] == turns;
  }

  lemma {:induction false} PushEnded(turns: seq<Turn>, current: seq<Item>, items: seq<Item>)
    requires Items(turns) + current == items && Grouped(turns) && (forall k | 0 <= k < |turns| :: turns[k].completed)
    requires WellFormed(current) && LastEnds(current) && (turns != [] ==> Justified(turns[|turns| - 1].items, current))
    ensures Reached(Progress(turns + [Turn(current, true)], []), items)
  {
    var all := turns + [Turn(current, true)];
    ItemsMore(turns, Turn(current, true));
    hide Items, StartsTurn, EndsTurn, WellFormed, Justified, LastEnds;
    assert Items(all) + [] == items;
    assert all[|all| - 1].items == current;
  }

  lemma {:induction false} StepKeeps(p: Progress, items: seq<Item>, item: Item)
    requires Reached(p, items)
    ensures Reached(Step(p, item), items + [item])
  {
    if StartsTurn(item) && p.current != [] {
      StarterKeeps(p, items, item);
    } else {
      OpenTurn(p.turns, p.current, item, items);
      hide Items, StartsTurn, WellFormed, Justified;
      if EndsTurn(item) {
        PushEnded(p.turns, p.current + [item], items + [item]);
      }
    }
  }

  lemma {:induction false} FoldReached(items: seq<Item>)
    ensures Reached(Fold(Progress([], []), items), items)
  {
    hide Reached, Step;
    if items == [] {
      NothingReached();
    } else {
      var init, last := items[..|items| - 1], items[|items| - 1];
      FoldReached(init);
      StepKeeps(Fold(Progress([], []), init), init, last);
      assert items == init + [last];
    }
  }

  lemma {:induction false} NothingReached()
    ensures Reached(Progress([], []), [])
  {
  }

  /** Grouping splits the items, in order, into non-empty turns; only first items start a turn,
      only last items end one; turns part only where something starts or ends one. */
  lemma {:induction false} GroupsPartition(items: seq<Item>, busy: bool)
    ensures var turns := GroupTurns(items, busy);
            Items(turns) == items && Grouped(turns) && FlagsRight(turns, busy)
  {
    FoldReached(items);
    var p := Fold(Progress([], []), items);
    hide Fold;
    if p.current != [] {
      FinishKeeps(p, items, !busy);
    }
    FinishFlags(p, items, busy);
    hide Reached, Items, Grouped, FlagsRight;
  }

  lemma {:induction false} FinishFlags(p: Progress, items: seq<Item>, busy: bool)
    requires Reached(p, items)
    ensures FlagsRight(Finish(p, !busy).turns, busy)
    ensures p.current == [] ==> Items(p.turns) == items && Grouped(p.turns)
  {
    var turns := Finish(p, !busy).turns;
    assert p.turns != [] ==> WellFormed(p.turns[|p.turns| - 1].items);
    hide Items, Justified, StartsTurn, EndsTurn;
    assert p.current == [] ==> Items(p.turns) + p.current == Items(p.turns);
  }

  // ----- where the turns part -----

  /** The number of items before turn t. */
  function Offset(turns: seq<Turn>, t: nat): nat
    requires t <= |turns|
  {
    |Items(turns[..t])|
  }

  lemma {:induction false} OffsetsGrow(turns: seq<Turn>, t: nat)
    requires t <= |turns|
    ensures Offset(turns, t) <= |Items(turns)|
  {
    if t < |turns| {
      OffsetsGrow(turns[..|turns| - 1], t);
      assert turns[..|turns| - 1][..t] == turns[..t];
    } else {
      assert turns[..t] == turns;
    }
  }

  lemma {:induction false} PartsAt(turns: seq<Turn>, k: nat)
    requires Grouped(turns) && 0 < k < |Items(turns)|
    ensures (exists t :: 0 < t < |turns| && Offset(turns, t) == k) <==>
            StartsTurn(Items(turns)[k]) || EndsTurn(Items(turns)[k - 1])
  {
    var init, last := turns[..|turns| - 1], turns[|turns| - 1].items;
    var n := |Items(init)|;
    assert Items(turns) == Items(init) + last;
    assert WellFormed(last);
    assert Offset(turns, |init|) == n;
    forall t: nat | t <= |init| ensures Offset(turns, t) == Offset(init, t) <= n {
      assert turns[..t] == init[..t];
      OffsetsGrow(init, t);
    }
    if k < n {
      PartsAt(init, k);
    } else if k > n {
      InsideTurn(last, k - n);
    } else {
      PartsBetween(turns);
    }
  }

  lemma {:induction false} InsideTurn(t: seq<Item>, i: nat)
    requires WellFormed(t) && 0 < i < |t|
    ensures !StartsTurn(t[i]) && !EndsTurn(t[i - 1])
  {
  }

  lemma {:induction false} PartsBetween(turns: seq<Turn>)
    requires Grouped(turns) && turns != []
    requires var n := |Items(turns[..|turns| - 1])|; 0 < n < |Items(turns)|
    ensures var n := |Items(turns[..|turns| - 1])|;
            |turns| > 1 && (StartsTurn(Items(turns)[n]) || EndsTurn(Items(turns)[n - 1]))
  {
    var init := turns[..|turns| - 1];
    var a, b := init[|init| - 1].items, turns[|init|].items;
    assert Justified(a, b);
    var before := Items(init[..|init| - 1]);
    assert Items(init) == before + a && Items(turns) == before + a + b;
  }

  /** A turn ends before an item exactly if the user typed that item, it being neither injected nor a
      steering follow-up, or the item before it reports the duration of a turn. */
  lemma {:induction false} TurnsPartExactly(items: seq<Item>, busy: bool, k: nat)
    requires 0 < k < |items|
    ensures (exists t :: 0 < t < |GroupTurns(items, busy)| && Offset(GroupTurns(items, busy), t) == k) <==>
            || (items[k].kind == UserItem && !items[k].hasOrigin && !items[k].steers)
            || items[k - 1].kind == TurnDuration
  {
    GroupsPartition(items, busy);
    PartsAt(GroupTurns(items, busy), k);
    hide Items, GroupTurns, Grouped;
  }

  /** Only the last turn can be unfinished: it is if the conversation is busy and the last item is no
      report of a turn's duration. */
  lemma {:induction false} OnlyLastIsOpen(items: seq<Item>, busy: bool, t: nat)
    requires t < |GroupTurns(items, busy)|
    ensures items != []
    ensures GroupTurns(items, busy)[t].completed <==>
            !busy || t < |GroupTurns(items, busy)| - 1 || items[|items| - 1].kind == TurnDuration
  {
    var turns := GroupTurns(items, busy);
    GroupsPartition(items, busy);
    var last := turns[|turns| - 1].items;
    assert WellFormed(last);
    assert last[|last| - 1] == items[|items| - 1];
    hide Items, GroupTurns, Grouped;
  }

  // ----- and that there is only one way -----

  lemma {:induction false} FoldAppend(p: Progress, a: seq<Item>, b: seq<Item>)
    ensures Fold(p, a + b) == Fold(Fold(p, a), b)
  {
    if b == [] {
      assert a + b == a;
    } else {
      FoldAppend(p, a, b[..|b| - 1]);
      assert (a + b)[..|a + b| - 1] == a + b[..|b| - 1];
      hide Step;
    }
  }

  /** The items of one turn after its first, up to n. */
  lemma {:induction false} FoldTurn(turns: seq<Turn>, t: seq<Item>, n: nat)
    requires WellFormed(t) && 0 < n <= |t|
    ensures Fold(Progress(turns, [t[0]]), t[1..n]) ==
              if n > 1 && EndsTurn(t[n - 1]) then Progress(turns + [Turn(t[..n], true)], [])
              else Progress(turns, t[..n])
  {
    if n == 1 {
      assert t[..1] == [t[0]];
    } else {
      FoldTurn(turns, t, n - 1);
      assert t[1..n][..n - 2] == t[1..n - 1];
      assert t[..n] == t[..n - 1] + [t[n - 1]];
    }
  }

  function Completed(turns: seq<Turn>): seq<Turn> {
    seq(|turns|, k requires 0 <= k < |turns| => turns[k].(completed := true))
  }

  /** Where the loop stands after the items of some well-formed turns. */
  ghost function After(turns: seq<Turn>): Progress {
    if turns == [] then Progress([], [])
    else
      var last := turns[|turns| - 1].items;
      if LastEnds(last) then Progress(Completed(turns), []) else Progress(Completed(turns[..|turns| - 1]), last)
  }

  lemma {:induction false} FirstItem(turns: seq<Turn>, t: Turn)
    requires Grouped(turns) && WellFormed(t.items) && (turns != [] ==> Justified(turns[|turns| - 1].items, t.items))
    ensures Step(After(turns), t.items[0]) ==
              if EndsTurn(t.items[0]) then Progress(Completed(turns) + [Turn([t.items[0]], true)], [])
              else Progress(Completed(turns), [t.items[0]])
  {
    if turns != [] {
      var last := turns[|turns| - 1];
      CompletedMore(turns[..|turns| - 1], last);
      assert turns[..|turns| - 1] + [last] == turns;
      hide Completed, WellFormed, StartsTurn, EndsTurn, Grouped;
      assert last.items != [];
      assert [] + [t.items[0]] == [t.items[0]];
    } else {
      assert Completed(turns) == [];
      assert [] + [t.items[0]] == [t.items[0]];
    }
  }

  lemma {:induction false} CompletedMore(init: seq<Turn>, t: Turn)
    ensures Completed(init + [t]) == Completed(init) + [Turn(t.items, true)]
  {
  }

  lemma {:induction false} FoldTurns(turns: seq<Turn>)
    requires Grouped(turns)
    ensures Fold(Progress([], []), Items(turns)) == After(turns)
  {
    if turns != [] {
      var init, t := turns[..|turns| - 1], turns[|turns| - 1];
      assert WellFormed(t.items);
      assert init != [] ==> Justified(init[|init| - 1].items, t.items);
      FoldTurns(init);
      FoldAppend(Progress([], []), Items(init), t.items);
      OneMoreTurn(init, t);
      AfterMore(init, t);
      assert init + [t] == turns;
      hide Items, After, Fold, Justified, WellFormed;
    }
  }

  lemma {:induction false} OneMoreTurn(init: seq<Turn>, t: Turn)
    requires Grouped(init) && WellFormed(t.items) && (init != [] ==> Justified(init[|init| - 1].items, t.items))
    ensures Fold(After(init), t.items) ==
              if LastEnds(t.items) then Progress(Completed(init) + [Turn(t.items, true)], [])
              else Progress(Completed(init), t.items)
  {
    FirstItem(init, t);
    FoldFrom(After(init), t.items);
    var p, n := Completed(init), |t.items|;
    assert t.items[1..n] == t.items[1..] && t.items[..n] == t.items;
    if EndsTurn(t.items[0]) {
      assert n == 1 && t.items == [t.items[0]];
    } else {
      FoldTurn(p, t.items, n);
    }
    hide After, Grouped, Step, Justified, Completed, WellFormed;
  }

  lemma {:induction false} FoldFrom(p: Progress, t: seq<Item>)
    requires t != []
    ensures Fold(p, t) == Fold(Step(p, t[0]), t[1..])
  {
    assert t == [t[0]] + t[1..];
    FoldAppend(p, [t[0]], t[1..]);
    FoldOne(p, t[0]);
    hide Fold, Step;
  }

  lemma {:induction false} FoldOne(p: Progress, item: Item)
    ensures Fold(p, [item]) == Step(p, item)
  {
    assert [item][..0] == [];
    hide Step;
  }

  lemma {:induction false} AfterMore(init: seq<Turn>, t: Turn)
    ensures After(init + [t]) ==
              if LastEnds(t.items) then Progress(Completed(init) + [Turn(t.items, true)], [])
              else Progress(Completed(init), t.items)
  {
    assert (init + [t])[..|init|] == init;
    CompletedMore(init, t);
    hide Completed;
  }

  /** Any way to split items like that, with the right flags, is the grouping. */
  lemma {:induction false} GroupingIsUnique(items: seq<Item>, busy: bool, turns: seq<Turn>)
    requires Items(turns) == items && Grouped(turns) && FlagsRight(turns, busy)
    ensures turns == GroupTurns(items, busy)
  {
    if turns != [] {
      hide Items, Fold, Grouped, FlagsRight, WellFormed, Justified, Completed, After, LastEnds, GroupTurns;
      FoldTurns(turns);
      var init, t := turns[..|turns| - 1], turns[|turns| - 1];
      LastFlags(turns, busy);
      AfterMore(init, t);
      assert init + [t] == turns;
      hide *;
      RejoinLast(items, busy, init, t);
    }
  }

  lemma {:induction false} LastFlags(turns: seq<Turn>, busy: bool)
    requires turns != [] && Grouped(turns) && FlagsRight(turns, busy)
    ensures var init, t := turns[..|turns| - 1], turns[|turns| - 1];
            Completed(init) == init && t.items != [] && t.completed == !(busy && !LastEnds(t.items))
  {
    assert WellFormed(turns[|turns| - 1].items);
    hide EndsTurn, StartsTurn;
  }

  lemma {:induction false} RejoinLast(items: seq<Item>, busy: bool, init: seq<Turn>, t: Turn)
    requires Fold(Progress([], []), items) ==
               if LastEnds(t.items) then Progress(init + [Turn(t.items, true)], []) else Progress(init, t.items)
    requires t.items != [] && t.completed == !(busy && !LastEnds(t.items))
    ensures GroupTurns(items, busy) == init + [t]
  {
    hide Fold, LastEnds;
  }

  // ----- stability -----

  lemma {:induction false} TurnsStay(p: Progress, more: seq<Item>)
    ensures p.turns <= Fold(p, more).turns
  {
    if more != [] {
      TurnsStay(p, more[..|more| - 1]);
    }
  }

  /** The completed turns of a conversation that is still busy stay as they are, and in front,
      whatever is appended. */
  lemma {:induction false} CompletedTurnsStay(items: seq<Item>, more: seq<Item>, busy: bool)
    ensures var before, after := GroupTurns(items, true), GroupTurns(items + more, busy);
            forall k | 0 <= k < |before| && before[k].completed :: k < |after| && after[k] == before[k]
  {
    var p := Fold(Progress([], []), items);
    FoldAppend(Progress([], []), items, more);
    TurnsStay(p, more);
    FoldReached(items);
    hide Reached, Fold;
    assert p.turns <= Fold(p, more).turns <= GroupTurns(items + more, busy);
  }
}
