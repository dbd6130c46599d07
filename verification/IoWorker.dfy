/** The shared variables of the worker module and one method for each atomic stretch of the two
    threads, each proved to be the step of the model. */
module IoWorker {
  import opened Common
  import opened IoWorkerModel
  import opened IoWorkerSafety

  // ----- what one step promises -----

  /** What holds of one call in a valid state. */
  lemma {:induction false} OneOf(s: State, i: nat)
    requires Inv(s) && i < |s.calls|
    ensures CallInv(s.calls[i]) && (i in s.registry <==> Listed(s.calls[i]))
  {
    hide CallInv, Listed;
  }

  /** What the caller's and the supervisor's steps promise about their call. */
  ghost predicate CallerPromise(e: CallerStep, c: Call, d: Call) {
    match e
    case Abort(_) => (d.caller == Gone ==> d.aborted || d.abortRaised) && (d.strays > c.strays ==> IsReaped(d))
    case Delivered => d.result == ResultSet ==> d.released == 1 && !Unreaped(d) && !Listed(d)
    case _ => true
  }

  ghost predicate SupervisorPromise(e: SupervisorStep, c: Call, d: Call) {
    match e
    case PublishStep => if c.abandoned then d.early && d.child.Child? && !d.child.fed else !d.early
    case KillEarlyStep(_) => d.strays == c.strays
    case FeedStep => d.child.Child? && d.child.fed && !d.early
    case PollStep => d.supervisor == Closing ==> IsReaped(d)
    case KillLateStep(raised) => d.strays == c.strays && (raised ==> Unreaped(d) && d.released == 0)
    case ReleaseStep => c.released == 0 && d.released == 1 && !Unreaped(d) && !Listed(d)
    case _ => true
  }

  lemma {:induction false} CallerPromised(c: Call, e: CallerStep)
    requires CallInv(c) && CallerReady(c, e)
    ensures CallerPromise(e, c, MoveCaller(c, e))
  {
    if e.Abort? {
      AbortOutcome(c, e.raised);
      hide CallerAbort, CallInv;
    } else if e.Delivered? {
      DeliveredKeeps(c);
      hide ChildOk, PublishedOk, EarlyOk, AbortedOk, RunDeliver, Evolves;
      assert ChildOk(RunDeliver(c)) && RunDeliver(c).supervisor == Over ==> !Unreaped(RunDeliver(c)) by {
        DeadAtEnd(RunDeliver(c));
      }
    }
  }

  lemma {:induction false} DeadAtEnd(c: Call)
    ensures ChildOk(c) && (c.supervisor == Over || c.supervisor == Delivering || c.supervisor == Releasing) ==>
              !Unreaped(c)
  {
  }

  lemma {:induction false} SupervisorPromised(c: Call, e: SupervisorStep)
    requires CallInv(c) && SupervisorReady(c, e)
    ensures SupervisorPromise(e, c, MoveSupervisor(c, e))
  {
    match e
    case KillEarlyStep(raised) => OwnKillHits(c, raised); hide CallInv, KillEarly;
    case KillLateStep(raised) => OwnKillHits(c, raised); hide PublishedOk, EarlyOk, AbortedOk, ResultOk;
    case PublishStep | FeedStep => hide SlotOk, AbortedOk, ResultOk;
    case ReleaseStep => hide PublishedOk, EarlyOk, AbortedOk, ResultOk;
    case _ => hide CallInv;
  }

  lemma {:induction false} CallerKept(s: State, i: nat, step: CallerStep)
    requires Inv(s) && i < |s.calls| && CallerReady(s.calls[i], step)
    ensures Inv(CallerNext(s, i, step)) && Next(s, CallerMoves(i, step)) == CallerNext(s, i, step)
    ensures CallerPromise(step, s.calls[i], MoveCaller(s.calls[i], step))
    ensures i in CallerNext(s, i, step).registry <==> Listed(MoveCaller(s.calls[i], step))
  {
    hide AllEvolve, CallInv, Listed, CallerPromise, CallerReady, MoveCaller;
    NextKeeps(s, CallerMoves(i, step));
    OneOf(s, i);
    OneOf(CallerNext(s, i, step), i);
    CallerPromised(s.calls[i], step);
  }

  lemma {:induction false} SupervisorKept(s: State, i: nat, move: SupervisorStep)
    requires Inv(s) && i < |s.calls| && SupervisorReady(s.calls[i], move)
    ensures Inv(SupervisorNext(s, i, move)) && Next(s, SupervisorMoves(i, move)) == SupervisorNext(s, i, move)
    ensures SupervisorPromise(move, s.calls[i], MoveSupervisor(s.calls[i], move))
    ensures i in SupervisorNext(s, i, move).registry <==> Listed(MoveSupervisor(s.calls[i], move))
  {
    hide AllEvolve, CallInv, Listed, SupervisorPromise, SupervisorReady, MoveSupervisor;
    NextKeeps(s, SupervisorMoves(i, move));
    OneOf(s, i);
    OneOf(SupervisorNext(s, i, move), i);
    SupervisorPromised(s.calls[i], move);
  }

  lemma {:induction false} AbortOutcome(c: Call, raised: bool)
    requires CallInv(c) && c.caller.Aborting?
    ensures var d := CallerAbort(c, raised);
            (d.caller == Gone ==> d.aborted || d.abortRaised) && (d.strays > c.strays ==> IsReaped(d))
  {
    assert c.caller.pc == Signal ==> c.child.Child?;
    AbortStrays(c, c.caller.pc, raised);
    hide CallInv;
  }

  lemma {:induction false} Bounded(s: State)
    requires Inv(s)
    ensures UnreapedChildren(s.calls) <= Held(s.calls) == SLOTS - s.slots
  {
    UnreapedHeld(s.calls);
    hide CallInv, Listed;
  }

  lemma {:induction false} ChildrenListed(s: State)
    requires Inv(s)
    ensures forall i | 0 <= i < |s.calls| && Unreaped(s.calls[i]) :: i in s.registry
  {
    forall i | 0 <= i < |s.calls| && Unreaped(s.calls[i]) ensures i in s.registry {
      OneOf(s, i);
      hide Inv, AllEvolve;
    }
  }

  // ----- the shared variables -----

  class Workers {
    var slots: nat
    var registry: set<nat>
    var calls: seq<Call>
    var emergencies: seq<Emergency>

    function View(): State
      reads this
    {
      State(slots, registry, calls, emergencies)
    }

    /** Every slot is free or held by one call, each call's child, slot and registration fit its
        two threads, and the emergency records name calls that exist. */
    ghost predicate Valid()
      reads this
    {
      Inv(View())
    }

    constructor ()
      ensures Valid() && View() == Init()
    {
      slots, registry, calls, emergencies := SLOTS, {}, [], [];
    }

    // ----- the calling side -----

    /** Never waits: a caller without a slot is turned away. There are never more unreaped
        children than slots taken, nor more slots taken than there are. */
    method Acquire() returns (taken: bool)
      requires Valid()
      modifies this`slots, this`calls
      ensures Valid() && View() == Next(old(View()), IoWorkerModel.Acquire)
      ensures taken <==> old(slots) > 0
      ensures UnreapedChildren(calls) <= Held(calls) == SLOTS - slots
    {
      NextKeeps(View(), IoWorkerModel.Acquire);
      Bounded(Next(View(), IoWorkerModel.Acquire));
      hide Inv, AllEvolve;
      taken := slots > 0;
      if taken {
        slots := slots - 1;
        calls := calls + [NEW_CALL];
      }
    }

    method RegisterAbort(i: nat)
      requires Valid() && i < |calls| && CallerReady(calls[i], Register)
      modifies this`registry, this`calls
      ensures Valid() && View() == Next(old(View()), CallerMoves(i, Register))
    {
      hide Inv, Next, Enabled;
      CallerKept(View(), i, Register);
      registry := registry + {i};
      calls := calls[i := calls[i].(caller := Starting)];
    }

    method StartThread(i: nat, started: bool)
      requires Valid() && i < |calls| && CallerReady(calls[i], Start(started))
      modifies this`calls
      ensures Valid() && View() == Next(old(View()), CallerMoves(i, Start(started)))
    {
      hide Inv, Next, Enabled;
      CallerKept(View(), i, Start(started));
      var c := calls[i];
      if started {
        c := c.(caller := Awaiting, supervisor := Preparing);
      } else {
        c := c.(caller := Undoing);
      }
      calls := calls[i := c];
    }

    method UndoRegistration(i: nat)
      requires Valid() && i < |calls| && CallerReady(calls[i], Undo)
      modifies this`registry, this`calls
      ensures Valid() && View() == Next(old(View()), CallerMoves(i, Undo))
    {
      hide Inv, Next, Enabled;
      CallerKept(View(), i, Undo);
      registry := registry - {i};
      calls := calls[i := calls[i].(caller := GivingBack)];
    }

    method GiveSlotBack(i: nat)
      requires Valid() && i < |calls| && CallerReady(calls[i], GiveBack)
      modifies this`slots, this`calls
      ensures Valid() && View() == Next(old(View()), CallerMoves(i, GiveBack))
    {
      hide Inv, Next, Enabled;
      CallerKept(View(), i, GiveBack);
      slots := slots + 1;
      calls := calls[i := calls[i].(caller := Failed, released := calls[i].released + 1)];
    }

    /** The wait is over; without a result the abort follows. */
    method LeaveWait(i: nat, cancels: bool)
      requires Valid() && i < |calls| && CallerReady(calls[i], LeaveCall(cancels))
      modifies this`calls
      ensures Valid() && View() == Next(old(View()), CallerMoves(i, LeaveCall(cancels)))
    {
      hide Inv, Next, Enabled;
      CallerKept(View(), i, LeaveCall(cancels));
      var c := calls[i];
      if c.result == ResultSet {
        c := c.(caller := Gone);
      } else {
        c := c.(result := if cancels then Cancelled else c.result, caller := Aborting(Mark));
      }
      calls := calls[i := c];
    }

    /** Nobody has cancelled the future of a caller that still waits. */
    static lemma {:induction false} AwaitedIsOpen(s: State, i: nat)
      requires Inv(s) && i < |s.calls|
      ensures s.calls[i].caller == Awaiting ==> s.calls[i].result != Cancelled
    {
      assert CallInv(s.calls[i]);
    }

    method DeliverResult(i: nat)
      requires Valid() && i < |calls| && CallerReady(calls[i], Delivered)
      modifies this`calls
      ensures Valid() && View() == Next(old(View()), CallerMoves(i, Delivered))
      ensures calls[i].result == ResultSet ==> calls[i].released == 1 && !Unreaped(calls[i]) && i !in registry
      ensures old(calls[i].caller) == Awaiting ==> calls[i].result == ResultSet
    {
      AwaitedIsOpen(View(), i);
      hide Inv, Next, Enabled;
      CallerKept(View(), i, Delivered);
      var c := calls[i].(queued := false);
      if c.result == Pending {
        c := c.(result := ResultSet);
      }
      calls := calls[i := c];
    }

    // ----- abort -----

    static method KillProcess(c: Call) returns (d: Call)
      ensures d == Signalled(c)
    {
      d := c;
      if c.child.Child? {
        if c.child.status == Reaped {
          d := c.(strays := c.strays + 1);
        } else {
          d := c.(child := c.child.(signalled := true));
        }
      }
    }

    /** The guarded section of `abort`, the look at the return code, and the signal. */
    static method AbortSegment(c: Call, pc: AbortPc, raised: bool) returns (d: Call, next: Option<AbortPc>)
      ensures AbortTurn(d, next) == AbortStep(c, pc, raised)
    {
      d, next := c, None;
      match pc {
        case Mark =>
          d := c.(abandoned := true, early := c.early || !c.published);
          if c.published {
            next := Some(Check);
          } else {
            d := d.(aborted := true);
          }
        case Check =>
          if c.child.Child? && c.child.status != Reaped {
            next := Some(Signal);
          } else {
            d := c.(aborted := true);
          }
        case Signal =>
          if raised {
            d := c.(abortRaised := true);
          } else {
            d := KillProcess(c);
            d := d.(aborted := true);
          }
      }
    }

    method AbortOwnCall(i: nat, raised: bool)
      requires Valid() && i < |calls| && CallerReady(calls[i], Abort(raised))
      modifies this`calls
      ensures Valid() && View() == Next(old(View()), CallerMoves(i, Abort(raised)))
      ensures calls[i].caller == Gone ==> calls[i].aborted || calls[i].abortRaised
      ensures calls[i].strays > old(calls[i].strays) ==> IsReaped(calls[i])
    {
      hide Inv, Next, Enabled;
      CallerKept(View(), i, Abort(raised));
      hide AbortStep;
      var d, next := AbortSegment(calls[i], calls[i].caller.pc, raised);
      calls := calls[i := d.(caller := if next.Some? then Aborting(next.value) else Gone)];
    }

    method AbortIoWorkers()
      requires Valid()
      modifies this`emergencies
      ensures Valid() && View() == Next(old(View()), EmergencyStart)
      ensures forall i | 0 <= i < |calls| && Unreaped(calls[i]) :: i in emergencies[|emergencies| - 1].rest
    {
      NextKeeps(View(), EmergencyStart);
      ChildrenListed(View());
      hide Inv, AllEvolve;
      emergencies := emergencies + [Emergency(registry, None, Mark)];
    }

    method NextCallback(k: nat, i: nat)
      requires Valid() && Enabled(View(), EmergencyNext(k, i))
      modifies this`emergencies
      ensures Valid() && View() == Next(old(View()), EmergencyNext(k, i))
    {
      NextKeeps(View(), EmergencyNext(k, i));
      hide Inv, AllEvolve;
      emergencies := emergencies[k := Emergency(emergencies[k].rest - {i}, Some(i), Mark)];
    }

    method RunCallback(k: nat, raised: bool)
      requires Valid() && Enabled(View(), EmergencyStep(k, raised))
      modifies this`calls, this`emergencies
      ensures Valid() && View() == Next(old(View()), EmergencyStep(k, raised))
    {
      NextKeeps(View(), EmergencyStep(k, raised));
      hide Inv, AllEvolve;
      hide AbortStep;
      var em := emergencies[k];
      var d, next := AbortSegment(calls[em.current.value], em.pc, raised);
      calls := calls[em.current.value := d];
      emergencies := emergencies[k := if next.Some? then em.(pc := next.value)
                                      else Emergency(if em.pc == Signal && raised then {} else em.rest, None, Mark)];
    }

    // ----- the supervisor -----

    method StartChild(i: nat, created: bool)
      requires Valid() && i < |calls| && SupervisorReady(calls[i], SpawnStep(created))
      modifies this`calls
      ensures Valid() && View() == Next(old(View()), SupervisorMoves(i, SpawnStep(created)))
    {
      hide Inv, Next, Enabled;
      SupervisorKept(View(), i, SpawnStep(created));
      var c := calls[i];
      if created {
        c := c.(child := Child(Running, false, false), supervisor := Spawned);
      } else {
        c := c.(supervisor := Polling);
      }
      calls := calls[i := c];
    }

    /** Under the guard: show the child to aborters, and look whether one came before. */
    method PublishChild(i: nat)
      requires Valid() && i < |calls| && SupervisorReady(calls[i], PublishStep)
      modifies this`calls
      ensures Valid() && View() == Next(old(View()), SupervisorMoves(i, PublishStep))
      ensures if old(calls[i].abandoned) then calls[i].early && !calls[i].child.fed
              && calls[i].supervisor == KillingEarly
              else !calls[i].early && calls[i].supervisor == Communicating(true)
    {
      hide Inv, Next, Enabled;
      SupervisorKept(View(), i, PublishStep);
      var cancelled := calls[i].abandoned;
      calls := calls[i := calls[i].(published := true,
                                    supervisor := if cancelled then KillingEarly else Communicating(true))];
    }

    method KillBeforeFeeding(i: nat, raised: bool)
      requires Valid() && i < |calls| && SupervisorReady(calls[i], KillEarlyStep(raised))
      modifies this`calls
      ensures Valid() && View() == Next(old(View()), SupervisorMoves(i, KillEarlyStep(raised)))
      ensures calls[i].strays == old(calls[i].strays)
    {
      hide Inv, Next, Enabled;
      SupervisorKept(View(), i, KillEarlyStep(raised));
      var c := calls[i];
      if raised {
        c := c.(killRaised := true, supervisor := Polling);
      } else {
        c := KillProcess(c);
        c := c.(supervisor := Communicating(false));
      }
      calls := calls[i := c];
    }

    method FeedChild(i: nat)
      requires Valid() && i < |calls| && SupervisorReady(calls[i], FeedStep)
      modifies this`calls
      ensures Valid() && View() == Next(old(View()), SupervisorMoves(i, FeedStep))
      ensures calls[i].child.fed && !calls[i].early
    {
      hide Inv, Next, Enabled;
      SupervisorKept(View(), i, FeedStep);
      calls := calls[i := calls[i].(child := calls[i].child.(fed := true), supervisor := Communicating(false))];
    }

    method EndCommunication(i: nat, raised: bool)
      requires Valid() && i < |calls| && SupervisorReady(calls[i], CommunicateStep(raised))
      modifies this`calls
      ensures Valid() && View() == Next(old(View()), SupervisorMoves(i, CommunicateStep(raised)))
    {
      hide Inv, Next, Enabled;
      SupervisorKept(View(), i, CommunicateStep(raised));
      var c := calls[i];
      if !raised {
        c := c.(child := c.child.(status := Reaped));
      }
      calls := calls[i := c.(supervisor := Polling)];
    }

    method PollChild(i: nat)
      requires Valid() && i < |calls| && SupervisorReady(calls[i], PollStep)
      modifies this`calls
      ensures Valid() && View() == Next(old(View()), SupervisorMoves(i, PollStep))
      ensures calls[i].supervisor == Closing ==> IsReaped(calls[i])
    {
      hide Inv, Next, Enabled;
      SupervisorKept(View(), i, PollStep);
      var c := calls[i];
      match c.child {
        case NoChild => c := c.(supervisor := Deregistering);
        case Child(Running, _, _) => c := c.(supervisor := KillingLate);
        case Child(Exited, _, _) | Child(Reaped, _, _) =>
          c := c.(child := c.child.(status := Reaped), supervisor := Closing);
      }
      calls := calls[i := c];
    }

    method KillChild(i: nat, raised: bool)
      requires Valid() && i < |calls| && SupervisorReady(calls[i], KillLateStep(raised))
      modifies this`calls
      ensures Valid() && View() == Next(old(View()), SupervisorMoves(i, KillLateStep(raised)))
      ensures calls[i].strays == old(calls[i].strays)
      ensures raised ==> Unreaped(calls[i]) && calls[i].released == 0
    {
      hide Inv, Next, Enabled;
      SupervisorKept(View(), i, KillLateStep(raised));
      var c := calls[i];
      if raised {
        c := c.(killRaised := true, supervisor := Crashed);
      } else {
        c := KillProcess(c);
        c := c.(supervisor := SupervisorPc.Reaping);
      }
      calls := calls[i := c];
    }

    method WaitForChild(i: nat)
      requires Valid() && i < |calls| && SupervisorReady(calls[i], ReapStep)
      modifies this`calls
      ensures Valid() && View() == Next(old(View()), SupervisorMoves(i, ReapStep))
    {
      hide Inv, Next, Enabled;
      SupervisorKept(View(), i, ReapStep);
      calls := calls[i := calls[i].(child := calls[i].child.(status := Reaped), supervisor := Closing)];
    }

    method CloseStreams(i: nat, raised: bool)
      requires Valid() && i < |calls| && SupervisorReady(calls[i], CloseStep(raised))
      modifies this`calls
      ensures Valid() && View() == Next(old(View()), SupervisorMoves(i, CloseStep(raised)))
    {
      hide Inv, Next, Enabled;
      SupervisorKept(View(), i, CloseStep(raised));
      calls := calls[i := calls[i].(supervisor := if raised then Crashed else Deregistering)];
    }

    method DiscardAbort(i: nat)
      requires Valid() && i < |calls| && SupervisorReady(calls[i], DeregisterStep)
      modifies this`registry, this`calls
      ensures Valid() && View() == Next(old(View()), SupervisorMoves(i, DeregisterStep))
    {
      hide Inv, Next, Enabled;
      SupervisorKept(View(), i, DeregisterStep);
      registry := registry - {i};
      calls := calls[i := calls[i].(supervisor := Releasing)];
    }

    method ReleaseSlot(i: nat)
      requires Valid() && i < |calls| && SupervisorReady(calls[i], ReleaseStep)
      modifies this`slots, this`calls
      ensures Valid() && View() == Next(old(View()), SupervisorMoves(i, ReleaseStep))
      ensures old(calls[i].released) == 0 && calls[i].released == 1 && !Unreaped(calls[i]) && i !in registry
    {
      hide Inv, Next, Enabled;
      SupervisorKept(View(), i, ReleaseStep);
      slots := slots + 1;
      calls := calls[i := calls[i].(supervisor := Delivering, released := calls[i].released + 1)];
    }

    /** Hand the outcome to the loop, unless the loop is closed. */
    method HandOver(i: nat, open: bool)
      requires Valid() && i < |calls| && SupervisorReady(calls[i], DeliverStep(open))
      modifies this`calls
      ensures Valid() && View() == Next(old(View()), SupervisorMoves(i, DeliverStep(open)))
    {
      hide Inv, Next, Enabled;
      SupervisorKept(View(), i, DeliverStep(open));
      calls := calls[i := calls[i].(supervisor := Over, queued := open)];
    }
  }
}
