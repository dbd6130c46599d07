/** The debug client's fields and the methods that update them. */
module DapClient {
  import opened Common
  import opened DapEvents
  import DapRequests

  class DAPClient {
    // requests
    var last: nat
    var futures: map<nat, DapRequests.Future>
    var pending: set<nat>
    var commands: map<nat, string>
    ghost var log: seq<(nat, string)>
    ghost var started: map<nat, nat>
    // events
    const capacity: nat
    var queue: seq<DapEvent>
    var dropped: nat

    ghost function Requests(): DapRequests.State
      reads this
    {
      DapRequests.State(last, futures, pending, commands, log, started)
    }

    function Events(): Buffer
      reads this`queue, this`dropped
    {
      Buffer(capacity, queue, dropped)
    }

    /** Open requests can still be found by their first response and answers are first responses;
        the event buffer is within its capacity. */
    ghost predicate Valid()
      reads this
    {
      DapRequests.Inv(Requests()) && Bounded(Events())
    }

    constructor (maxEvents: int)
      ensures Valid() && Requests() == DapRequests.Init()
      ensures Events() == Buffer(if maxEvents < 1 then 1 else maxEvents, [], 0)
    {
      last, futures, pending, commands := 0, map[], {}, map[];
      log, started := [], map[];
      capacity := if maxEvents < 1 then 1 else maxEvents;
      queue, dropped := [], 0;
    }

    // ----- requests -----

    /** The request gets a number no request had, and is open; the others stay as they are. */
    method StartRequest(command: string) returns (request: nat)
      requires Valid()
      modifies this`last, this`futures, this`pending, this`commands, this`started
      ensures Valid() && Requests() == DapRequests.Next(old(Requests()), DapRequests.Start(command))
      ensures request !in old(futures) && request in pending && futures == old(futures)[request := DapRequests.Unset]
    {
      hide DapRequests.Inv;
      DapRequests.NextKeeps(Requests(), DapRequests.Start(command));
      DapRequests.NextNumberIsFree(Requests());
      last := last + 1;
      request := last;
      futures := futures[request := DapRequests.Unset];
      pending := pending + {request};
      commands := commands[request := command];
      started := started[request := |log|];
    }

    /** A response answers its request if that is still open, and changes no other. */
    method HandleResponse(requestSeq: nat, payload: string)
      requires Valid()
      modifies this`futures, this`log
      ensures Valid() && Requests() == DapRequests.Next(old(Requests()), DapRequests.Respond(requestSeq, payload))
      ensures futures == if requestSeq in old(futures) && old(futures)[requestSeq] == DapRequests.Unset
                         then old(futures)[requestSeq := DapRequests.Answered(payload)] else old(futures)
    {
      hide DapRequests.Inv;
      DapRequests.NextKeeps(Requests(), DapRequests.Respond(requestSeq, payload));
      DapRequests.OpenIsPending(Requests(), requestSeq);
      log := log + [(requestSeq, payload)];
      if requestSeq in pending && requestSeq in futures && futures[requestSeq] == DapRequests.Unset {
        futures := futures[requestSeq := DapRequests.Answered(payload)];
      }
    }

    /** An answer stays; an open request is dropped, so that no response finds it any more. */
    method EndWait(request: nat)
      requires Valid() && request in futures
      modifies this`futures, this`pending, this`commands
      ensures Valid() && Requests() == DapRequests.Next(old(Requests()), DapRequests.EndWait(request))
      ensures request in futures && request !in pending && futures[request] != DapRequests.Unset
      ensures old(futures)[request] != DapRequests.Unset ==> futures == old(futures)
    {
      hide DapRequests.Inv;
      DapRequests.NextKeeps(Requests(), DapRequests.EndWait(request));
      if futures[request] == DapRequests.Unset {
        futures := futures[request := DapRequests.Dropped];
      }
      pending := pending - {request};
      commands := commands - {request};
    }

    /** The reader failed: nobody is left waiting, and no answer is lost. */
    method FailPending()
      requires Valid()
      modifies this`futures
      ensures Valid() && Requests() == DapRequests.Next(old(Requests()), DapRequests.ReaderFails)
      ensures DapRequests.NoneWaiting(Requests())
      ensures forall k | k in old(futures) && old(futures)[k] != DapRequests.Unset ::
                k in futures && futures[k] == old(futures)[k]
    {
      DapRequests.NextKeeps(Requests(), DapRequests.ReaderFails);
      DapRequests.SetAllKeeps(Requests(), DapRequests.Broken);
      BreakPending();
      hide DapRequests.Inv, DapRequests.FutureOk;
    }

    method BreakPending()
      requires pending <= futures.Keys
      modifies this`futures
      ensures Requests() == DapRequests.Next(old(Requests()), DapRequests.ReaderFails)
    {
      var rest := pending;
      while rest != {}
        invariant rest <= pending && futures.Keys == old(futures).Keys
        invariant forall k | k in futures ::
                    futures[k] == if k in pending && k !in rest && old(futures)[k] == DapRequests.Unset
                                  then DapRequests.Broken else old(futures)[k]
        decreases rest
      {
        var k :| k in rest;
        if futures[k] == DapRequests.Unset {
          futures := futures[k := DapRequests.Broken];
        }
        rest := rest - {k};
      }
      SetAllIs(old(futures), futures, pending, DapRequests.Broken);
    }

    static lemma {:induction false} SetAllIs(before: map<nat, DapRequests.Future>, after: map<nat,
        DapRequests.Future>, keys: set<nat>,
                          to: DapRequests.Future)
      requires after.Keys == before.Keys
      requires forall k | k in after ::
                 after[k] == if k in keys && before[k] == DapRequests.Unset then to else before[k]
      ensures after == DapRequests.SetAll(before, keys, to)
    {
      var all := DapRequests.SetAll(before, keys, to);
      assert all.Keys == after.Keys;
      forall k | k in after ensures all[k] == after[k] {
        assert k in before.Keys;
      }
    }

    // ----- events -----

    /** The last two puts cannot fail: an event was taken out before. */
    method QueueEvent(event: DapEvent)
      requires Valid()
      modifies this`queue, this`dropped
      ensures Valid() && Events() == Offer(old(Events()), event)
      ensures if IsOutput(event) then old(queue) <= queue else queue != [] && queue[|queue| - 1] == event
    {
      hide DapRequests.Inv;
      if IsOutput(event) {
        OutputPushesNothingOut(Events(), event);
      } else {
        OfferPrefersEvents(Events(), event);
      }
      PutEvent(event);
    }

    method PutEvent(event: DapEvent)
      requires Bounded(Events())
      modifies this`queue, this`dropped
      ensures Events() == Offer(old(Events()), event) && Bounded(Events())
    {
      if |queue| < capacity {
        queue := queue + [event];
        return;
      }
      if IsOutput(event) {
        dropped := dropped + 1;
        return;
      }
      OfferAccounts(Events(), event);
      var retained := MakeRoom();
      queue := retained;
      dropped := dropped + 1;
      assert |queue| < capacity;
      queue := queue + [event];
    }

    /** Take everything out, leaving aside the first output, or else the first event. */
    method MakeRoom() returns (retained: seq<DapEvent>)
      requires queue != []
      ensures retained == RemoveAt(queue, Victim(queue))
    {
      var i, discarded := 0, false;
      retained := [];
      while i < |queue|
        invariant i <= |queue|
        invariant !discarded ==> retained == queue[..i] && forall j | 0 <= j < i :: !IsOutput(queue[j])
        invariant discarded ==> FirstOutput(queue).Some? && FirstOutput(queue).value < i
                                && retained == RemoveAt(queue[..i], FirstOutput(queue).value)
      {
        assert queue[..i + 1] == queue[..i] + [queue[i]];
        if !discarded && IsOutput(queue[i]) {
          FirstIs(queue, i);
          discarded := true;
        } else {
          retained := retained + [queue[i]];
        }
        i := i + 1;
      }
      assert queue[..i] == queue;
      if !discarded {
        assert FirstOutput(queue).None?;
        retained := retained[1..];
      }
    }

    lemma {:induction false} FirstIs(q: seq<DapEvent>, k: nat)
      requires k < |q| && IsOutput(q[k]) && forall j | 0 <= j < k :: !IsOutput(q[j])
      ensures FirstOutput(q) == Some(k)
    {
    }

    /** Everything buffered in order, and first the number dropped since the last drain. */
    method DrainEvents() returns (notice: Option<nat>, drained: seq<DapEvent>)
      requires Valid()
      modifies this`queue, this`dropped
      ensures Valid() && drained == old(queue) && queue == [] && dropped == 0
      ensures notice == if old(dropped) > 0 then Some(old(dropped)) else None
    {
      hide DapRequests.Inv;
      notice := None;
      if dropped > 0 {
        notice := Some(dropped);
        dropped := 0;
      }
      drained := [];
      while queue != []
        invariant drained + queue == old(queue) && dropped == 0
        decreases |queue|
      {
        drained := drained + [queue[0]];
        queue := queue[1..];
      }
    }

    /** A wait for a named event that gives up once the buffer is empty; what it skipped goes
        back. It takes the first match out and nothing else, and drops nothing. */
    method WaitForEvent(name: string) returns (event: Option<DapEvent>)
      requires Valid()
      modifies this`queue, this`dropped
      ensures Valid() && Events() == Wait(old(Events()), name) && dropped == old(dropped)
      ensures event == match Match(old(queue), name) case None => None case Some(k) => Some(old(queue)[k])
      ensures if event.None? then queue == old(queue)
              else multiset(queue) + multiset{event.value} == multiset(old(queue))
    {
      hide DapRequests.Inv, Wait;
      WaitTakesTheMatch(Events(), name);
      event := LookFor(name);
    }

    method LookFor(name: string) returns (event: Option<DapEvent>)
      requires Bounded(Events())
      modifies this`queue, this`dropped
      ensures Events() == Wait(old(Events()), name) && Bounded(Events())
      ensures event == match Match(old(queue), name) case None => None case Some(k) => Some(old(queue)[k])
    {
      var unmatched;
      event, unmatched := TakeUntil(name);
      hide OfferAll;
      GiveBack(unmatched);
    }

    method TakeUntil(name: string) returns (event: Option<DapEvent>, unmatched: seq<DapEvent>)
      modifies this`queue
      ensures match Match(old(queue), name)
              case None => event == None && unmatched == old(queue) && queue == []
              case Some(k) =>
                event == Some(old(queue)[k]) && unmatched == old(queue)[..k] && queue == old(queue)[k + 1..]
    {
      ghost var q := queue;
      event, unmatched := None, [];
      while queue != []
        invariant unmatched + queue == q && forall j | 0 <= j < |unmatched| :: unmatched[j].name != name
        decreases |queue|
      {
        var next := queue[0];
        queue := queue[1..];
        assert next == q[|unmatched|];
        if next.name == name {
          MatchIs(q, name, |unmatched|);
          return Some(next), unmatched;
        }
        unmatched := unmatched + [next];
      }
      assert unmatched == q;
    }

    lemma {:induction false} MatchIs(q: seq<DapEvent>, name: string, k: nat)
      requires k < |q| && q[k].name == name && forall j | 0 <= j < k :: q[j].name != name
      ensures Match(q, name) == Some(k)
    {
    }

    method GiveBack(unmatched: seq<DapEvent>)
      requires Bounded(Events())
      modifies this`queue, this`dropped
      ensures Events() == OfferAll(old(Events()), unmatched) && Bounded(Events())
    {
      var i := 0;
      while i < |unmatched|
        invariant i <= |unmatched| && Bounded(Events())
        invariant Events() == OfferAll(old(Events()), unmatched[..i])
      {
        assert unmatched[..i + 1][..i] == unmatched[..i];
        hide Offer;
        PutEvent(unmatched[i]);
        i := i + 1;
      }
      assert unmatched[..i] == unmatched;
    }
  }
}
