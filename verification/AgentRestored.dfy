/** What becomes of every persisted entry when snapshots are restored, told from the entry. */
module AgentRestored {
  import opened Common
  import opened AgentModel
  import opened AgentRestore

  /** The entry parses and belongs to the session at hand, or to none. */
  predicate Fits(session: string, item: Item) {
    match item.snapshot
    case Some(s) => s.sessionId == "" || session == "" || s.sessionId == session
    case None => false
  }

  /** Its process is gone although it says otherwise. */
  predicate Phantom(s: Snapshot) {
    s.status.Queued? || s.status.Running?
  }

  /** The snapshot of the run: as persisted, but bound to the session, and stopped if it was still queued or
      running, with the error it had or the reason. */
  predicate Becomes(session: string, now: int, s: Snapshot, s': Snapshot) {
    && s' == s.(sessionId := s'.sessionId, status := s'.status, error := s'.error, updatedAt := s'.updatedAt,
                finishedAt := s'.finishedAt)
    && s'.sessionId == (if s.sessionId == "" then session else s.sessionId)
    && if Phantom(s) then
         && s'.status == Stopped && s'.updatedAt == now && s'.finishedAt == Some(now)
         && s'.error == if s.error == "" then "stopped because the session ended" else s.error
       else s'.status == s.status && s'.error == s.error && s'.updatedAt == s.updatedAt && s'.finishedAt == s.finishedAt
  }

  /** The run of an entry: settled, without a task, with its transcript and its result as running text. */
  ghost predicate Restores(session: string, generation: nat, now: int, item: Item, r: Run) {
    item.snapshot.Some? && Becomes(session, now, item.snapshot.value, r.snapshot)
    && r == Run(r.snapshot, generation, item.transcript, [], item.snapshot.value.finalResult, true, false, false, false,
                [], Free, SpawnOver)
  }

  /** How many of the first n entries fit. */
  function FittingBefore(session: string, items: seq<Item>, n: nat): nat
    requires n <= |items|
  {
    if n == 0 then 0 else FittingBefore(session, items, n - 1) + if Fits(session, items[n - 1]) then 1 else 0
  }

  lemma {:induction false} SameCount(session: string, items: seq<Item>, n: nat, m: nat)
    requires n <= m <= |items|
    ensures FittingBefore(session, items[..m], n) == FittingBefore(session, items, n)
  {
    if n > 0 {
      SameCount(session, items, n - 1, m);
    }
  }

  lemma {:induction false} FitsIff(session: string, item: Item)
    ensures Accepted(session, item) <==> Fits(session, item)
  {
    match item.snapshot
    case Some(s) =>
    case None =>
  }

  lemma {:induction false} RunIs(session: string, generation: nat, now: int, item: Item)
    requires item.snapshot.Some?
    ensures Restores(session, generation, now, item,
                     RestoredRun(generation, Adopt(session, now, item.snapshot.value), item.transcript))
  {
    var s := item.snapshot.value;
    if s.sessionId == "" {
      if Phantom(s) {} else {}
    } else {
      if Phantom(s) {} else {}
    }
  }

  lemma {:induction false} RestoredCount(session: string, generation: nat, now: int, items: seq<Item>)
    ensures |RestoredRuns(session, generation, now, items)| == FittingBefore(session, items, |items|)
  {
    if items != [] {
      var n := |items| - 1;
      RestoredCount(session, generation, now, items[..n]);
      SameCount(session, items, n, n);
      FitsIff(session, items[n]);
      hide Accepted, Fits, RestoredRun, Adopt;
    }
  }

  /** Every entry that fits is restored, as it was persisted and at its place; no other is. */
  lemma {:induction false} RestoredExactly(session: string, generation: nat, now: int, items: seq<Item>, i: nat)
    requires i < |items| && Fits(session, items[i])
    ensures |RestoredRuns(session, generation, now, items)| == FittingBefore(session, items, |items|)
    ensures FittingBefore(session, items, i) < |RestoredRuns(session, generation, now, items)|
    ensures Restores(session, generation, now, items[i],
                     RestoredRuns(session, generation, now, items)[FittingBefore(session, items, i)])
  {
    var n := |items| - 1;
    RestoredCount(session, generation, now, items);
    RestoredCount(session, generation, now, items[..n]);
    SameCount(session, items, i, n);
    FitsIff(session, items[n]);
    hide Accepted, Fits, RestoredRun, Adopt, Restores;
    if i < n {
      assert items[..n][i] == items[i];
      RestoredExactly(session, generation, now, items[..n], i);
    } else {
      FitsSome(session, items[i]);
      RunIs(session, generation, now, items[i]);
    }
  }

  lemma {:induction false} FitsSome(session: string, item: Item)
    requires Fits(session, item)
    ensures item.snapshot.Some?
  {
  }

  /** A callback handed back says of its agent what its restored snapshot says. */
  lemma {:induction false} CallbackSays(session: string, generation: nat, now: int, item: Item)
    ensures CallbackOf(session, generation, now, item) != [] ==>
              exists s :: item.snapshot.Some? && Becomes(session, now, item.snapshot.value, s)
                && CallbackOf(session, generation, now, item)
                   == [Callback(s.agentId, s.sessionId, s.status, s.finalResult, s.error,
                                match s.finishedAt case Some(time) => time case None => s.updatedAt,
                                s.callbackState, s.callbackMessageId, s.callbackEpoch, generation)]
  {
    if CallbackOf(session, generation, now, item) != [] {
      var s := Adopt(session, now, item.snapshot.value);
      RunIs(session, generation, now, item);
      assert Becomes(session, now, item.snapshot.value, s);
      hide Becomes, Adopt;
    }
  }

  /** The projection on disk is rewritten exactly if some entry does not fit or was a phantom. */
  lemma {:induction false} RewriteIff(session: string, item: Item)
    ensures NeedsRewrite(session, item) <==> !Fits(session, item) || Phantom(item.snapshot.value)
  {
    FitsIff(session, item);
  }
}
