/** The bounded buffer of debug events: what it drops, what it keeps and in which order, under
    any mix of arriving events, drains and waits for a named event. */
module DapEvents {
  import opened Common

  datatype DapEvent = DapEvent(name: string, body: string)

  /** `dropped` counts events not yet reported to a drain. */
  datatype Buffer = Buffer(capacity: nat, queue: seq<DapEvent>, dropped: nat)

  ghost predicate Bounded(b: Buffer) {
    b.capacity >= 1 && |b.queue| <= b.capacity
  }

  predicate IsOutput(e: DapEvent) {
    e.name == "output"
  }

  function FirstOutput(q: seq<DapEvent>): (k: Option<nat>)
    ensures k.Some? ==> k.value < |q| && IsOutput(q[k.value]) && forall i | 0 <= i < k.value :: !IsOutput(q[i])
    ensures k.None? ==> forall i | 0 <= i < |q| :: !IsOutput(q[i])
  {
    if q == [] then None
    else if IsOutput(q[0]) then Some(0)
    else match FirstOutput(q[1..]) case None => None case Some(k) => Some(k + 1)
  }

  function RemoveAt<T>(q: seq<T>, k: nat): seq<T>
    requires k < |q|
  {
    q[..k] + q[k + 1..]
  }

  /** Which buffered event makes room: the oldest output, or else the oldest of all. */
  function Victim(q: seq<DapEvent>): (k: nat)
    requires q != []
    ensures k < |q|
  {
    var k := FirstOutput(q);
    if k.Some? then k.value else 0
  }

  function Offer(b: Buffer, e: DapEvent): Buffer {
    if |b.queue| < b.capacity then b.(queue := b.queue + [e])
    else if IsOutput(e) then b.(dropped := b.dropped + 1)
    else if b.queue == [] then b.(queue := [e])
    else b.(queue := RemoveAt(b.queue, Victim(b.queue)) + [e], dropped := b.dropped + 1)
  }

  function OfferAll(b: Buffer, es: seq<DapEvent>): Buffer {
    if es == [] then b else Offer(OfferAll(b, es[..|es| - 1]), es[|es| - 1])
  }

  // ----- one offer -----

  /** The event an offer loses, if any. */
  function Lost(b: Buffer, e: DapEvent): multiset<DapEvent> {
    if |b.queue| < b.capacity then multiset{}
    else if IsOutput(e) then multiset{e}
    else if b.queue == [] then multiset{}
    else multiset{b.queue[Victim(b.queue)]}
  }

  lemma {:induction false} RemovedContents<T>(q: seq<T>, k: nat)
    requires k < |q|
    ensures multiset(RemoveAt(q, k)) + multiset{q[k]} == multiset(q)
  {
    assert q == q[..k] + ([q[k]] + q[k + 1..]);
  }

  /** An offer keeps the buffer within its capacity; every event is either in it afterwards or
      counted as dropped. */
  lemma {:induction false} OfferAccounts(b: Buffer, e: DapEvent)
    requires Bounded(b)
    ensures Bounded(Offer(b, e)) && Offer(b, e).capacity == b.capacity
    ensures multiset(Offer(b, e).queue) + Lost(b, e) == multiset(b.queue) + multiset{e}
    ensures Offer(b, e).dropped == b.dropped + |Lost(b, e)|
  {
    if |b.queue| >= b.capacity && !IsOutput(e) {
      var k := Victim(b.queue);
      RemovedContents(b.queue, k);
      assert multiset(RemoveAt(b.queue, k) + [e]) == multiset(RemoveAt(b.queue, k)) + multiset{e};
    } else if |b.queue| < b.capacity {
      assert multiset(b.queue + [e]) == multiset(b.queue) + multiset{e};
    }
  }

  /** Events other than output always get in, as the newest. One of them is given up only if no
      output is buffered and then it is the oldest; the rest stay in order. */
  lemma {:induction false} OfferPrefersEvents(b: Buffer, e: DapEvent)
    requires Bounded(b) && e.name != "output"
    ensures var q := Offer(b, e).queue; q != [] && q[|q| - 1] == e
    ensures Offer(b, e).queue == b.queue + [e]
            || exists k: nat | k < |b.queue| ::
                 Offer(b, e).queue == RemoveAt(b.queue, k) + [e]
                 && (b.queue[k].name == "output"
                     || (k == 0 && forall i | 0 <= i < |b.queue| :: b.queue[i].name != "output"))
                 && forall i | 0 <= i < k :: b.queue[i].name != "output"
  {
    if |b.queue| >= b.capacity {
      var k := Victim(b.queue);
      assert Offer(b, e).queue == RemoveAt(b.queue, k) + [e];
    }
  }

  /** Output never pushes anything out. */
  lemma {:induction false} OutputPushesNothingOut(b: Buffer, e: DapEvent)
    requires Bounded(b) && e.name == "output"
    ensures b.queue <= Offer(b, e).queue
    ensures Offer(b, e).queue == b.queue <==> |b.queue| == b.capacity
  {
  }

  // ----- waits -----

  /** The first buffered event of that name. */
  function Match(q: seq<DapEvent>, name: string): (k: Option<nat>)
    ensures k.Some? ==> k.value < |q| && q[k.value].name == name && forall i | 0 <= i < k.value :: q[i].name != name
    ensures k.None? ==> forall i | 0 <= i < |q| :: q[i].name != name
  {
    if q == [] then None
    else if q[0].name == name then Some(0)
    else match Match(q[1..], name) case None => None case Some(k) => Some(k + 1)
  }

  /** A wait that nothing interrupts: it takes events until one matches or none is left, then
      gives the others back. */
  function Wait(b: Buffer, name: string): Buffer {
    match Match(b.queue, name)
    case Some(k) => OfferAll(b.(queue := b.queue[k + 1..]), b.queue[..k])
    case None => OfferAll(b.(queue := []), b.queue)
  }

  lemma {:induction false} RoomForAll(b: Buffer, es: seq<DapEvent>)
    requires |b.queue| + |es| <= b.capacity
    ensures OfferAll(b, es) == b.(queue := b.queue + es)
  {
    if es == [] {
      assert b.queue + es == b.queue;
    } else {
      RoomForAll(b, es[..|es| - 1]);
      assert b.queue + es == b.queue + es[..|es| - 1] + [es[|es| - 1]];
    }
  }

  /** With no event arriving meanwhile, a wait takes exactly the first match out, drops nothing,
      and leaves the events it skipped behind those it never looked at. */
  lemma {:induction false} WaitTakesTheMatch(b: Buffer, name: string)
    requires Bounded(b)
    ensures Match(b.queue, name).None? ==> Wait(b, name) == b
    ensures Match(b.queue, name).Some? ==>
              var k := Match(b.queue, name).value;
              Wait(b, name) == b.(queue := b.queue[k + 1..] + b.queue[..k])
              && multiset(Wait(b, name).queue) + multiset{b.queue[k]} == multiset(b.queue)
  {
    match Match(b.queue, name)
    case None => RoomForAll(b.(queue := []), b.queue);
    case Some(k) =>
      RoomForAll(b.(queue := b.queue[k + 1..]), b.queue[..k]);
      assert b.queue == b.queue[..k] + ([b.queue[k]] + b.queue[k + 1..]);
  }

  function Over(n: int): nat {
    if n > 0 then n else 0
  }

  // ----- whole runs -----

  /** The buffer, what each wait has taken and not yet given back, and everything that went in
      and out. A wait that is over holds nothing. */
  datatype State = State(buffer: Buffer, waits: seq<Waiting>, offered: multiset<DapEvent>,
                         delivered: multiset<DapEvent>, lost: multiset<DapEvent>, reported: nat)

  datatype Waiting = Waiting(open: bool, held: seq<DapEvent>)

  datatype Step = Arrive(event: DapEvent) | Drain | StartWait | Take(id: nat, name: string) | StopWait(id: nat)

  predicate Enabled(s: State, e: Step) {
    match e
    case Arrive(_) | Drain | StartWait => true
    case Take(id, _) => id < |s.waits| && s.waits[id].open && s.buffer.queue != []
    case StopWait(id) => id < |s.waits| && s.waits[id].open
  }

  function LostAll(b: Buffer, es: seq<DapEvent>): multiset<DapEvent> {
    if es == [] then multiset{}
    else LostAll(b, es[..|es| - 1]) + Lost(OfferAll(b, es[..|es| - 1]), es[|es| - 1])
  }

  /** The wait is over and gives back what it skipped. */
  function PutBack(s: State, id: nat): State
    requires id < |s.waits|
  {
    var es := s.waits[id].held;
    s.(buffer := OfferAll(s.buffer, es), lost := s.lost + LostAll(s.buffer, es),
       waits := s.waits[id := Waiting(false, [])])
  }

  function Next(s: State, e: Step): State
    requires Enabled(s, e)
  {
    match e
    case Arrive(event) =>
      s.(buffer := Offer(s.buffer, event), offered := s.offered + multiset{event},
         lost := s.lost + Lost(s.buffer, event))
    case Drain =>
      s.(buffer := s.buffer.(queue := [], dropped := 0), delivered := s.delivered + multiset(s.buffer.queue),
         reported := s.reported + s.buffer.dropped)
    case StartWait => s.(waits := s.waits + [Waiting(true, [])])
    case Take(id, name) =>
      var event, rest := s.buffer.queue[0], s.buffer.(queue := s.buffer.queue[1..]);
      if event.name == name then PutBack(s.(buffer := rest, delivered := s.delivered + multiset{event}), id)
      else s.(buffer := rest, waits := s.waits[id := Waiting(true, s.waits[id].held + [event])])
    case StopWait(id) => PutBack(s, id)
  }

  function Init(capacity: nat): State {
    State(Buffer(capacity, [], 0), [], multiset{}, multiset{}, multiset{}, 0)
  }

  function Held(waits: seq<Waiting>): multiset<DapEvent> {
    if waits == [] then multiset{} else Held(waits[..|waits| - 1]) + multiset(waits[|waits| - 1].held)
  }

  /** Nothing is invented and nothing disappears: what arrived is what is buffered, held by a
      wait, delivered or lost, and the lost ones are all counted. */
  ghost predicate Balanced(s: State) {
    && Bounded(s.buffer)
    && s.offered == multiset(s.buffer.queue) + Held(s.waits) + s.delivered + s.lost
    && |s.lost| == s.buffer.dropped + s.reported
  }

  /** Giving events back loses exactly as many as do not fit: none if and only if there is room. */
  lemma {:induction false} GivingBackLoses(b: Buffer, es: seq<DapEvent>)
    requires Bounded(b)
    ensures |LostAll(b, es)| == Over(|b.queue| + |es| - b.capacity)
    ensures |OfferAll(b, es).queue| + |LostAll(b, es)| == |b.queue| + |es|
  {
    if es != [] {
      var init, last := es[..|es| - 1], es[|es| - 1];
      GivingBackLoses(b, init);
      OfferAllAccounts(b, init);
      var b1 := OfferAll(b, init);
      assert |Offer(b1, last).queue| == if |b1.queue| < b1.capacity then |b1.queue| + 1 else |b1.queue|;
      assert |Lost(b1, last)| == if |b1.queue| < b1.capacity then 0 else 1;
      hide Offer, Lost;
    }
  }

  /** Adding the same events on both sides. */
  lemma {:induction false} Shift<T>(a: multiset<T>, b: multiset<T>, c: multiset<T>, d: multiset<T>, x: multiset<T>)
    requires a + b == c + d
    ensures (a + x) + b == (c + x) + d && a + (b + x) == c + (d + x)
  {
    forall e ensures ((a + x) + b)[e] == ((c + x) + d)[e] && (a + (b + x))[e] == (c + (d + x))[e] {
      assert (a + b)[e] == (c + d)[e];
    }
  }

  lemma {:induction false} HeldUpdate(waits: seq<Waiting>, id: nat, w: Waiting)
    requires id < |waits|
    ensures Held(waits[id := w]) + multiset(waits[id].held) == Held(waits) + multiset(w.held)
  {
    var n := |waits| - 1;
    if id < n {
      HeldUpdate(waits[..n], id, w);
      assert waits[id := w][..n] == waits[..n][id := w];
      Shift(Held(waits[..n][id := w]), multiset(waits[id].held), Held(waits[..n]), multiset(w.held),
            multiset(waits[n].held));
    } else {
      assert waits[id := w][..n] == waits[..n];
    }
  }

  lemma {:induction false} OfferAllAccounts(b: Buffer, es: seq<DapEvent>)
    requires Bounded(b)
    ensures Bounded(OfferAll(b, es)) && OfferAll(b, es).capacity == b.capacity
    ensures multiset(OfferAll(b, es).queue) + LostAll(b, es) == multiset(b.queue) + multiset(es)
    ensures OfferAll(b, es).dropped == b.dropped + |LostAll(b, es)|
  {
    if es != [] {
      var init, last := es[..|es| - 1], es[|es| - 1];
      OfferAllAccounts(b, init);
      OfferAccounts(OfferAll(b, init), last);
      assert es == init + [last];
      assert multiset(es) == multiset(init) + multiset{last};
      var b1, b2 := OfferAll(b, init), OfferAll(b, es);
      hide Offer, Lost;
      Chain(multiset(b.queue), multiset(init), multiset{last}, multiset(b1.queue), LostAll(b, init),
            multiset(b2.queue), Lost(b1, last));
    }
  }

  lemma {:induction false} Chain<T>(q: multiset<T>, init: multiset<T>, last: multiset<T>, q1: multiset<T>,
      l1: multiset<T>, q2: multiset<T>,
                 l2: multiset<T>)
    requires q1 + l1 == q + init && q2 + l2 == q1 + last
    ensures q2 + (l1 + l2) == q + (init + last)
  {
    forall e ensures (q2 + (l1 + l2))[e] == (q + (init + last))[e] {
      assert (q1 + l1)[e] == (q + init)[e] && (q2 + l2)[e] == (q1 + last)[e];
    }
  }

  lemma {:induction false} PutBackBalances(s: State, id: nat)
    requires Balanced(s) && id < |s.waits|
    ensures Balanced(PutBack(s, id))
  {
    var es, s' := s.waits[id].held, PutBack(s, id);
    OfferAllAccounts(s.buffer, es);
    HeldUpdate(s.waits, id, Waiting(false, []));
    var lost, q, q', h, h' := LostAll(s.buffer, es), s.buffer.queue, s'.buffer.queue, Held(s.waits), Held(s'.waits);
    assert multiset(q') + lost == multiset(q) + multiset(es) && h' + multiset(es) == h;
    hide OfferAll, LostAll, Held, Bounded;
    Rebalance(multiset(q), multiset(q'), lost, multiset(es), h, h', s.delivered, s.lost);
  }

  lemma {:induction false} Rebalance<T>(q: multiset<T>, q': multiset<T>, lost: multiset<T>, es: multiset<T>,
                                        h: multiset<T>, h': multiset<T>, delivered: multiset<T>, before: multiset<T>)
    requires q' + lost == q + es && h' + es == h
    ensures q' + h' + delivered + (before + lost) == q + h + delivered + before
  {
    forall e ensures (q' + h' + delivered + (before + lost))[e] == (q + h + delivered + before)[e] {
      assert (q' + lost)[e] == (q + es)[e] && (h' + es)[e] == h[e];
    }
  }

  lemma {:induction false} TakeBalances(s: State, id: nat, name: string)
    requires Balanced(s) && Enabled(s, Take(id, name))
    ensures Balanced(Next(s, Take(id, name)))
  {
    var event, rest := s.buffer.queue[0], s.buffer.(queue := s.buffer.queue[1..]);
    assert s.buffer.queue == [event] + s.buffer.queue[1..];
    if event.name == name {
      PutBackBalances(s.(buffer := rest, delivered := s.delivered + multiset{event}), id);
      hide PutBack;
    } else {
      SkipBalances(s, id);
    }
  }

  /** A wait keeps an event it was not waiting for. */
  lemma {:induction false} SkipBalances(s: State, id: nat)
    requires Balanced(s) && id < |s.waits| && s.buffer.queue != []
    ensures Balanced(s.(buffer := s.buffer.(queue := s.buffer.queue[1..]),
                        waits := s.waits[id := Waiting(true, s.waits[id].held + [s.buffer.queue[0]])]))
  {
    var q, held, event := s.buffer.queue, s.waits[id].held, s.buffer.queue[0];
    var waits := s.waits[id := Waiting(true, held + [event])];
    HeldUpdate(s.waits, id, Waiting(true, held + [event]));
    assert q == [event] + q[1..];
    assert multiset(q) == multiset{event} + multiset(q[1..]);
    assert multiset(held + [event]) == multiset(held) + multiset{event};
    hide Held;
    Moved(multiset(q), multiset(q[1..]), multiset{event}, Held(s.waits), Held(waits), multiset(held));
    forall e ensures (multiset(q[1..]) + Held(waits))[e] == (multiset(q) + Held(s.waits))[e] {}
    assert s.offered == multiset(q[1..]) + Held(waits) + s.delivered + s.lost;
  }

  lemma {:induction false} Moved<T>(q: multiset<T>, rest: multiset<T>, x: multiset<T>, h: multiset<T>,
      h': multiset<T>, held: multiset<T>)
    requires q == x + rest && h' + held == h + (held + x)
    ensures rest + h' == q + h
  {
    forall e ensures (rest + h')[e] == (q + h)[e] {
      assert (h' + held)[e] == (h + (held + x))[e];
    }
  }

  lemma {:induction false} ArriveBalances(s: State, event: DapEvent)
    requires Balanced(s)
    ensures var s' := Next(s, Arrive(event)); Balanced(s') && s'.buffer.capacity == s.buffer.capacity
  {
    OfferAccounts(s.buffer, event);
    var q, q' := multiset(s.buffer.queue), multiset(Offer(s.buffer, event).queue);
    var l, h := Lost(s.buffer, event), Held(s.waits);
    hide Offer, Lost, Held, Bounded;
    var s' := Next(s, Arrive(event));
    forall e ensures s'.offered[e] == (q' + h + s'.delivered + s'.lost)[e] {
      assert (q' + l)[e] == (q + multiset{event})[e];
      assert s.offered[e] == (q + h + s.delivered + s.lost)[e];
    }
  }

  lemma {:induction false} DrainBalances(s: State)
    requires Balanced(s)
    ensures var s' := Next(s, Drain); Balanced(s') && s'.buffer.capacity == s.buffer.capacity
  {
    hide Held;
    var s' := Next(s, Drain);
    forall e ensures s'.offered[e] == (multiset(s'.buffer.queue) + Held(s'.waits) + s'.delivered + s'.lost)[e] {}
  }

  lemma {:induction false} StartBalances(s: State)
    requires Balanced(s)
    ensures Balanced(Next(s, StartWait))
  {
    assert (s.waits + [Waiting(true, [])])[..|s.waits|] == s.waits;
    assert Held(s.waits + [Waiting(true, [])]) == Held(s.waits);
    hide Held;
  }

  lemma {:induction false} NextBalances(s: State, e: Step)
    requires Balanced(s) && Enabled(s, e)
    ensures Balanced(Next(s, e)) && Next(s, e).buffer.capacity == s.buffer.capacity
  {
    match e
    case Arrive(event) => ArriveBalances(s, event); hide Balanced, Next;
    case Drain => DrainBalances(s); hide Balanced, Next;
    case StartWait => StartBalances(s); hide Balanced;
    case Take(id, name) => TakeBalances(s, id, name); TakeCapacity(s, id, name); hide Balanced, Next;
    case StopWait(id) => PutBackBalances(s, id); StopCapacity(s, id); hide Balanced, PutBack;
  }

  lemma {:induction false} StopCapacity(s: State, id: nat)
    requires Balanced(s) && id < |s.waits|
    ensures PutBack(s, id).buffer.capacity == s.buffer.capacity
  {
    OfferAllAccounts(s.buffer, s.waits[id].held);
    hide OfferAll, LostAll, Held;
  }

  lemma {:induction false} TakeCapacity(s: State, id: nat, name: string)
    requires Balanced(s) && Enabled(s, Take(id, name))
    ensures Next(s, Take(id, name)).buffer.capacity == s.buffer.capacity
  {
    OfferAllAccounts(s.buffer.(queue := s.buffer.queue[1..]), s.waits[id].held);
    hide OfferAll, LostAll, Held;
  }

  ghost predicate Linked(steps: seq<Step>, states: seq<State>, n: nat)
    requires |states| == |steps| + 1 && n < |steps|
  {
    Enabled(states[n], steps[n]) && states[n + 1] == Next(states[n], steps[n])
  }

  ghost predicate Execution(capacity: nat, steps: seq<Step>, states: seq<State>) {
    |states| == |steps| + 1 && states[0] == Init(capacity) && forall n | 0 <= n < |steps| :: Linked(steps, states, n)
  }

  /** In every run, whatever arrives while waits are under way: the buffer never exceeds its
      capacity, every event that ever arrived is accounted for, and the counters say exactly how
      many were lost. */
  lemma {:induction false} EventsAreConserved(capacity: nat, steps: seq<Step>, states: seq<State>, n: nat)
    requires capacity >= 1 && Execution(capacity, steps, states) && n < |states|
    ensures Balanced(states[n]) && states[n].buffer.capacity == capacity
  {
    hide Balanced, Next, Enabled;
    InitBalances(capacity);
    if n > 0 {
      EventsAreConserved(capacity, steps, states, n - 1);
      assert Linked(steps, states, n - 1);
      NextBalances(states[n - 1], steps[n - 1]);
    }
  }

  lemma {:induction false} InitBalances(capacity: nat)
    requires capacity >= 1
    ensures Balanced(Init(capacity)) && Init(capacity).buffer.capacity == capacity
  {
  }

  // ----- waits that lose events -----

  /** What a wait would give back if it ended by this step, and the buffer it finds. */
  function Excess(s: State, e: Step): int
    requires Enabled(s, e)
  {
    match e
    case StopWait(id) => |s.buffer.queue| + |s.waits[id].held| - s.buffer.capacity
    case Take(id, name) =>
      if s.buffer.queue[0].name == name then |s.buffer.queue| - 1 + |s.waits[id].held| - s.buffer.capacity else 0
    case _ => 0
  }

  /** In every run: the end of a wait loses exactly as many events as what it skipped and what has
      arrived meanwhile exceed the buffer together. */
  lemma {:induction false} WaitLoses(capacity: nat, steps: seq<Step>, states: seq<State>, n: nat)
    requires capacity >= 1 && Execution(capacity, steps, states) && n < |steps|
    requires steps[n].StopWait? || steps[n].Take?
    ensures Linked(steps, states, n)
    ensures |states[n + 1].lost| == |states[n].lost| + Over(Excess(states[n], steps[n]))
  {
    EventsAreConserved(capacity, steps, states, n);
    assert Linked(steps, states, n);
    var s := states[n];
    match steps[n]
    case StopWait(id) => GivingBackLoses(s.buffer, s.waits[id].held);
    case Take(id, name) => GivingBackLoses(s.buffer.(queue := s.buffer.queue[1..]), s.waits[id].held);
  }

  lemma {:induction false} Extend(steps: seq<Step>, states: seq<State>, e: Step)
    returns (steps': seq<Step>, states': seq<State>)
    requires Execution(1, steps, states) && Enabled(states[|steps|], e)
    ensures steps' == steps + [e] && Execution(1, steps', states') && |states'| == |steps'| + 1
    ensures states'[|steps'|] == Next(states[|steps|], e)
  {
    hide Enabled, Next;
    steps', states' := steps + [e], states + [Next(states[|steps|], e)];
    forall n | 0 <= n < |steps'| ensures Linked(steps', states', n) {
      if n < |steps| {
        assert Linked(steps, states, n);
      }
    }
  }

  /** What the buffer of one place holds after a wait has skipped its event and another arrived. */
  function Skipped(first: DapEvent, second: DapEvent): State {
    State(Buffer(1, [second], 0), [Waiting(true, [first])], multiset{first, second}, multiset{}, multiset{}, 0)
  }

  lemma {:induction false} Skipping(first: DapEvent, second: DapEvent, name: string)
    requires first.name != name
    ensures var s1 := Next(Init(1), Arrive(first)); var s2 := Next(s1, StartWait);
            Enabled(s2, Take(0, name)) && Next(Next(s2, Take(0, name)), Arrive(second)) == Skipped(first, second)
  {
    var s1 := Next(Init(1), Arrive(first));
    assert s1 == State(Buffer(1, [first], 0), [], multiset{first}, multiset{}, multiset{}, 0);
    var s2 := Next(s1, StartWait);
    assert s2 == s1.(waits := [Waiting(true, [])]);
    assert [first][1..] == [];
    assert Next(s2, Take(0, name)) == s1.(buffer := Buffer(1, [], 0), waits := [Waiting(true, [first])]);
  }

  lemma {:induction false} GivenBack(first: DapEvent, second: DapEvent)
    requires !IsOutput(first) && !IsOutput(second)
    ensures Enabled(Skipped(first, second), StopWait(0))
    ensures Next(Skipped(first, second), StopWait(0)).lost == multiset{second}
  {
    var b := Buffer(1, [second], 0);
    assert [first][..0] == [];
    assert OfferAll(b, []) == b && LostAll(b, []) == multiset{};
    assert LostAll(b, [first]) == multiset{} + Lost(b, first);
  }

  /** A wait does lose events: it skips one, another arrives, and giving the first back pushes the
      second out. */
  lemma {:induction false} LosingExecution() returns (steps: seq<Step>, states: seq<State>)
    ensures Execution(1, steps, states) && states[|steps|].lost == multiset{DapEvent("thread", "2")}
  {
    var first, second := DapEvent("stopped", "1"), DapEvent("thread", "2");
    assert first.name == "stopped" != "exited" && !IsOutput(first) && !IsOutput(second) by { Unlike(); }
    steps, states := LosingSteps(first, second, "exited");
  }

  lemma {:induction false} Unlike()
    ensures "stopped" != "exited" && "stopped" != "output" && "thread" != "output"
  {
    assert "stopped"[0] != "exited"[0] && "stopped"[0] != "output"[0] && "thread"[0] != "output"[0];
  }

  /** The first event came and a wait skipped it. */
  lemma {:induction false} SkippingSteps(first: DapEvent, name: string) returns (steps: seq<Step>, states: seq<State>)
    requires first.name != name
    ensures Execution(1, steps, states) && |states| == |steps| + 1
    ensures states[|steps|] == Next(Next(Next(Init(1), Arrive(first)), StartWait), Take(0, name))
  {
    steps, states := [], [Init(1)];
    assert Execution(1, steps, states);
    Skipping(first, first, name);
    assert forall s: State :: Enabled(s, Arrive(first)) && Enabled(s, StartWait);
    hide Enabled, Next, Linked, Skipped, IsOutput, Execution, Init;
    steps, states := Extend(steps, states, Arrive(first));
    steps, states := Extend(steps, states, StartWait);
    steps, states := Extend(steps, states, Take(0, name));
  }

  lemma {:induction false} LosingSteps(first: DapEvent, second: DapEvent, name: string)
    returns (steps: seq<Step>, states: seq<State>)
    requires first.name != name && !IsOutput(first) && !IsOutput(second)
    ensures Execution(1, steps, states) && |states| == |steps| + 1 && states[|steps|].lost == multiset{second}
  {
    steps, states := SkippingSteps(first, name);
    Skipping(first, second, name);
    GivenBack(first, second);
    assert forall s: State :: Enabled(s, Arrive(second));
    hide Enabled, Next, Linked, Skipped, IsOutput, Execution, Init;
    steps, states := Extend(steps, states, Arrive(second));
    steps, states := Extend(steps, states, StopWait(0));
  }
}
