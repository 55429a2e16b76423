/**
 * The outbox as the program sees it: tables updated in place, DispatchBatch and ReplayEvent as the
 * statements they issue while other delivery transactions run in between, and the relay's drain loop.
 */
module Relay {
  import opened Wrappers
  import opened Ledger
  import opened Tables
  import opened Retry
  import opened Outbox
  import opened OutboxInv
  import opened OutboxSteps
  import opened OutboxCommit
  import opened OutboxRuns

  type Publisher = (nat, Envelope) -> Option<string>

  /** How a delivery transaction ends: it commits, its answer may get lost, or it dies on the way. */
  datatype Fate = Commits | CommitsUnheard | DiesClaiming(rows: nat) | DiesAfter(attempts: nat)

  /** The delivery transaction an action belongs to. */
  function Actor(a: Action): Option<nat> {
    match a
    case Insert(_, _, _) => None
    case Tick(_) => None
    case _ => Some(a.w)
  }

  predicate Foreign(burst: seq<Action>, w: nat) {
    forall a <- burst :: Actor(a) != Some(w)
  }

  predicate CalmBurst(burst: seq<Action>) {
    forall a <- burst :: CalmAction(a)
  }

  predicate Calm(others: seq<seq<Action>>) {
    forall b <- others :: CalmBurst(b)
  }

  /** How many of these actions are not of this transaction. */
  function ForeignCount(actions: seq<Action>, w: nat): nat {
    if actions == [] then 0
    else ForeignCount(actions[..|actions| - 1], w) + if Actor(actions[|actions| - 1]) == Some(w) then 0 else 1
  }

  function Total(bursts: seq<seq<Action>>): nat {
    if bursts == [] then 0 else |bursts[0]| + Total(bursts[1..])
  }

  class OutboxStore {
    var events: map<Uuid, Event>
    var deliveries: seq<Delivery>
    var workers: map<nat, Worker>
    var locks: map<Uuid, nat>
    var clock: int
    var wire: seq<Publication>
    var orphaned: seq<Publication>

    /** Everything that has happened so far. */
    ghost var performed: seq<Action>

    ghost function State(): Outbox.State
      reads this
    {
      Outbox.State(events, deliveries, workers, locks, clock, wire, orphaned)
    }

    ghost predicate Valid()
      reads this
    {
      State() == Exec(START, performed)
    }

    constructor ()
      ensures Valid() && performed == []
    {
      events, deliveries, workers, locks := map[], [], map[], map[];
      clock, wire, orphaned, performed := 0, [], [], [];
    }

    method InsertEvent(id: Uuid, row: EventRow, createdAt: int)
      modifies this
      ensures State() == Step(old(State()), Insert(id, row, createdAt))
      ensures performed == old(performed) + [Insert(id, row, createdAt)]
    {
      performed := performed + [Insert(id, row, createdAt)];
      if id !in events && createdAt <= clock {
        events := events[id := NewEvent(row, createdAt)];
      }
    }

    method PassTime(ms: nat)
      modifies this
      ensures State() == Step(old(State()), Tick(ms))
      ensures performed == old(performed) + [Tick(ms)]
    {
      performed := performed + [Tick(ms)];
      clock := clock + ms;
    }

    method BeginBatch(w: nat, limit: nat)
      modifies this
      ensures State() == Step(old(State()), BeginRelay(w, limit))
      ensures performed == old(performed) + [BeginRelay(w, limit)]
    {
      performed := performed + [BeginRelay(w, limit)];
      if w !in workers {
        workers := workers[w := Worker(ByRelay, clock, limit, Claiming, [], map[], [], [])];
      }
    }

    method BeginManualReplay(w: nat, id: Uuid)
      modifies this
      ensures State() == Step(old(State()), BeginReplay(w, id))
      ensures performed == old(performed) + [BeginReplay(w, id)]
    {
      performed := performed + [BeginReplay(w, id)];
      if w !in workers {
        workers := workers[w := Worker(ByReplay, clock, 1, Waiting(id), [], map[], [], [])];
      }
    }

    /** End of the transaction: private rows are gone, row locks are released. */
    method End(w: nat)
      requires w in workers
      modifies this`workers, this`locks
      ensures State() == Stop(old(State()), w)
    {
      workers := workers[w := workers[w].(phase := Ended, batch := [], updates := map[], rows := [], sent := [])];
      locks := map id | id in locks && locks[id] != w :: locks[id];
    }

    method TryClaim(w: nat, id: Uuid)
      modifies this
      ensures State() == Step(old(State()), ClaimRow(w, id))
      ensures performed == old(performed) + [ClaimRow(w, id)]
    {
      performed := performed + [ClaimRow(w, id)];
      if w !in workers || workers[w].phase != Claiming { return; }
      var x := workers[w];
      if id in events && id !in locks && Due(events[id], x.now) && |x.batch| < x.limit {
        workers := workers[w := x.(batch := x.batch + [Claimed(id, events[id])])];
        locks := locks[id := w];
      }
    }

    method StartPublishing(w: nat)
      modifies this
      ensures State() == Step(old(State()), CloseBatch(w))
      ensures performed == old(performed) + [CloseBatch(w)]
    {
      performed := performed + [CloseBatch(w)];
      if w !in workers || workers[w].phase != Claiming { return; }
      if workers[w].batch == [] {
        End(w);
      } else {
        workers := workers[w := workers[w].(phase := Publishing)];
      }
    }

    method LockForReplay(w: nat)
      modifies this
      ensures State() == Step(old(State()), ClaimReplay(w))
      ensures performed == old(performed) + [ClaimReplay(w)]
    {
      performed := performed + [ClaimReplay(w)];
      if w !in workers || !workers[w].phase.Waiting? { return; }
      var x := workers[w];
      var id := x.phase.id;
      if id !in events {
        End(w);
      } else if id !in locks {
        workers := workers[w := x.(phase := Publishing, batch := [Claimed(id, events[id])])];
        locks := locks[id := w];
      }
    }

    /** settleAttempt: one private UPDATE of the event and one private delivery row. */
    method SettleAttempt(w: nat, c: Claimed, error: Option<string>)
      requires w in workers && c.id in events
      modifies this`workers
      ensures var x := old(workers)[w];
              workers == old(workers)[w := x.(
                updates := x.updates[c.id := Settle(events[c.id], c.read, error, x.now)],
                rows := x.rows + [DeliveryOf(c.id, error, x.trigger, x.now)])]
    {
      var x := workers[w];
      var attempts := c.read.attempts + 1;
      var updated := events[c.id];
      match error {
        case None =>
          updated := updated.(status := Published, publishedAt := Some(x.now), attempts := attempts, lastError := None);
        case Some(msg) =>
          var status := Pending;
          if attempts >= MAX_ATTEMPTS {
            status := Failed;
          }
          updated := updated.(status := status, attempts := attempts, lastError := Some(msg),
                              availableAt := x.now + DelayMs(attempts));
      }
      var row := Delivery(c.id, x.now, error.None?, x.trigger, error);
      workers := workers[w := x.(updates := x.updates[c.id := updated], rows := x.rows + [row])];
    }

    method PublishNext(w: nat, error: Option<string>)
      modifies this
      ensures State() == Step(old(State()), Publish(w, error))
      ensures performed == old(performed) + [Publish(w, error)]
    {
      performed := performed + [Publish(w, error)];
      if w !in workers || workers[w].phase != Publishing { return; }
      var n := |workers[w].rows|;
      if n >= |workers[w].batch| || workers[w].batch[n].id !in events { return; }
      var c := workers[w].batch[n];
      var p := Publication(EnvelopeOf(c.id, c.read), error.None?);
      wire := wire + [p];
      SettleAttempt(w, c, error);
      workers := workers[w := workers[w].(sent := workers[w].sent + [p])];
    }

    method CommitBatch(w: nat)
      modifies this
      ensures State() == Step(old(State()), CommitWork(w))
      ensures performed == old(performed) + [CommitWork(w)]
    {
      performed := performed + [CommitWork(w)];
      if w !in workers || workers[w].phase != Publishing || |workers[w].rows| < |workers[w].batch| { return; }
      events := events + workers[w].updates;
      deliveries := deliveries + workers[w].rows;
      End(w);
    }

    method Rollback(w: nat)
      modifies this
      ensures State() == Step(old(State()), AbortWork(w))
      ensures performed == old(performed) + [AbortWork(w)]
    {
      performed := performed + [AbortWork(w)];
      if w in workers && workers[w].phase != Ended {
        orphaned := orphaned + workers[w].sent;
        End(w);
      }
    }

    method Perform(a: Action)
      modifies this
      ensures State() == Step(old(State()), a)
      ensures performed == old(performed) + [a]
    {
      hide Step;
      match a {
        case Insert(id, row, createdAt) => InsertEvent(id, row, createdAt);
        case Tick(ms) => PassTime(ms);
        case BeginRelay(w, limit) => BeginBatch(w, limit);
        case ClaimRow(w, id) => TryClaim(w, id);
        case CloseBatch(w) => StartPublishing(w);
        case BeginReplay(w, id) => BeginManualReplay(w, id);
        case ClaimReplay(w) => LockForReplay(w);
        case Publish(w, error) => PublishNext(w, error);
        case CommitWork(w) => CommitBatch(w);
        case AbortWork(w) => Rollback(w);
      }
    }

    /** Actions of other delivery transactions, new events and the passing of time. */
    method Interfere(w: nat, burst: seq<Action>)
      requires Valid() && w in workers && Foreign(burst, w)
      modifies this
      ensures Valid() && performed == old(performed) + burst
      ensures w in workers && workers[w] == old(workers[w]) && old(wire) <= wire
      ensures old(CalmState(State())) && CalmBurst(burst) ==>
        CalmState(State()) && Potential(State()) <= old(Potential(State()))
    {
      hide Step, Exec, Inv, Potential, CalmState;
      ghost var calm := CalmState(State()) && CalmBurst(burst);
      for i := 0 to |burst|
        invariant Valid() && performed == old(performed) + burst[..i]
        invariant w in workers && workers[w] == old(workers[w]) && old(wire) <= wire
        invariant calm ==> CalmState(State()) && Potential(State()) <= old(Potential(State()))
      {
        ExecConcat(performed, burst[i]);
        WireGrows(State(), burst[i]);
        Untouched(State(), burst[i], w);
        if calm {
          CalmStep(State(), burst[i]);
        }
        Perform(burst[i]);
      }
    }

    /** How many actions of others have run since the first n. */
    ghost function Strangers(w: nat, n: nat): nat
      requires n <= |performed|
      reads this
    {
      ForeignCount(performed[n..], w)
    }

    /** Between two statements of a transaction, the next burst of other activity. */
    method Interleave(w: nat, others: seq<seq<Action>>, ghost n: nat) returns (rest: seq<seq<Action>>)
      requires Valid() && n <= |performed| && w in workers && forall b <- others :: Foreign(b, w)
      modifies this
      ensures Valid() && old(performed) <= performed
      ensures w in workers && workers[w] == old(workers[w]) && old(wire) <= wire
      ensures |rest| == (if others == [] then 0 else |others| - 1) && forall b <- rest :: Foreign(b, w)
      ensures Strangers(w, n) + Total(rest) == old(Strangers(w, n)) + Total(others)
      ensures others == [] ==> State() == old(State())
      ensures old(CalmState(State())) && Calm(others) ==>
        CalmState(State()) && Calm(rest) && Potential(State()) <= old(Potential(State()))
    {
      hide CalmState, Potential, Exec;
      if others == [] { return []; }
      assert others[0] in others;
      StrangersRun(performed, others[0], n, w);
      Interfere(w, others[0]);
      rest := others[1..];
    }

    /** The oldest of the candidates. */
    method Oldest(candidates: set<Uuid>, snapshot: map<Uuid, Event>) returns (id: Uuid)
      requires candidates != {} && candidates <= snapshot.Keys
      ensures id in candidates
      ensures forall k :: k in candidates ==> snapshot[id].createdAt <= snapshot[k].createdAt
    {
      id :| id in candidates;
      var rest := candidates - {id};
      while rest != {}
        invariant id in candidates && rest <= candidates
        invariant forall k :: k in candidates && k !in rest ==> snapshot[id].createdAt <= snapshot[k].createdAt
      {
        var k :| k in rest;
        rest := rest - {k};
        if snapshot[k].createdAt < snapshot[id].createdAt {
          id := k;
        }
      }
    }

    /**
     * The claiming SELECT: due events of its snapshot, oldest first, each locked unless somebody else
     * holds it or it is no longer due. Alone, it takes the oldest due events up to the limit. The
     * transaction may die after any number of rows.
     */
    method ClaimPhase(w: nat, fate: Fate, others: seq<seq<Action>>) returns (rest: seq<seq<Action>>)
      requires Valid() && w in workers && workers[w].phase == Claiming && workers[w].batch == []
      requires forall b <- others :: Foreign(b, w)
      modifies this
      ensures Valid() && old(performed) <= performed
      ensures w in workers && workers[w] == old(workers[w]).(batch := workers[w].batch)
      ensures |workers[w].batch| <= old(workers[w].limit)
      ensures forall b <- rest :: Foreign(b, w)
      ensures old(CalmState(State())) && Calm(others) ==>
        CalmState(State()) && Calm(rest) && Potential(State()) <= old(Potential(State()))
      ensures old(locks) == map[] && others == [] && !fate.DiesClaiming? ==>
        && rest == [] && events == old(events) && clock == old(clock) && OnlyBy(locks, w)
        && wire == old(wire) && deliveries == old(deliveries) && TookDue(old(events), workers[w])
        && |workers[w].batch| == Min(old(workers[w].limit), |DueIds(old(events), old(workers[w].now))|)
        && OldestFirst(old(events), workers[w])
        && (|workers[w].batch| < old(workers[w].limit) ==> TookAll(old(events), workers[w]))
    {
      hide Step, Exec, Inv, CalmState, Potential, Foreign, TakenSoFar, InBatch, Due, Calm, TookDue, TookAll, OldestFirst,
        ForeignCount, Total;
      if locks == map[] {
        TakenNothing(events, workers[w]);
      }
      var snapshot := events;
      var todo := DueIds(events, workers[w].now);
      rest := others;
      ghost var quiet := locks == map[] && others == [];
      ghost var calm := CalmState(State()) && Calm(others);
      var seen := 0;
      while todo != {} && |workers[w].batch| < workers[w].limit && (fate.DiesClaiming? ==> seen < fate.rows)
        invariant Valid() && old(performed) <= performed
        invariant w in workers && workers[w] == old(workers[w]).(batch := workers[w].batch)
        invariant workers[w].phase == Claiming && |workers[w].batch| <= workers[w].limit
        invariant todo <= DueIds(snapshot, workers[w].now)
        invariant forall b <- rest :: Foreign(b, w)
        invariant calm ==> CalmState(State()) && Calm(rest) && Potential(State()) <= old(Potential(State()))
        invariant quiet ==>
          && rest == [] && events == snapshot && clock == old(clock) && OnlyBy(locks, w)
          && wire == old(wire) && deliveries == old(deliveries)
          && TakenSoFar(snapshot, workers[w], locks, todo)
        decreases todo
      {
        var id := Oldest(todo, snapshot);
        ExecConcat(performed, ClaimRow(w, id));
        ClaimGoes(State(), w, id);
        if calm {
          CalmStep(State(), ClaimRow(w, id));
        }
        if quiet {
          TakesOldest(snapshot, workers[w], locks, todo, id, w);
        }
        TryClaim(w, id);
        todo := todo - {id};
        seen := seen + 1;
        rest := Interleave(w, rest, 0);
      }
      if quiet && !fate.DiesClaiming? {
        TakenAll(snapshot, workers[w], locks, todo);
      }
    }
  
    /** Publish the claimed events one by one, settling each attempt, for as long as the transaction lives. */
    method PublishPhase(w: nat, publisher: Publisher, fate: Fate, others: seq<seq<Action>>)
      returns (rest: seq<seq<Action>>)
      requires Valid() && w in workers && workers[w].phase == Publishing
      requires forall b <- others :: Foreign(b, w)
      modifies this
      ensures Valid() && old(performed) <= performed
      ensures w in workers && SameClaims(old(workers)[w], workers[w])
      ensures !fate.DiesAfter? ==> |workers[w].rows| == |workers[w].batch|
      ensures others == [] ==>
        && events == old(events) && clock == old(clock) && locks == old(locks) && deliveries == old(deliveries)
        && (old(workers)[w].rows == [] ==> Attempts(publisher, workers[w], workers[w].rows, old(wire), wire))
      ensures old(CalmState(State())) && Calm(others) ==>
        CalmState(State()) && Potential(State()) <= old(Potential(State()))
    {
      hide Step, Exec, Inv, CalmState, Potential, Foreign, Calm, Attempts, EnvelopeOf, ForeignCount, Total;
      rest := others;
      ghost var calm := CalmState(State()) && Calm(others);
      BatchBounds(performed, w);
      NoAttempts(publisher, workers[w], wire);
      while |workers[w].rows| < |workers[w].batch| && (fate.DiesAfter? ==> |workers[w].rows| < fate.attempts)
        invariant Valid() && old(performed) <= performed
        invariant w in workers && SameClaims(old(workers)[w], workers[w])
        invariant |workers[w].rows| <= |workers[w].batch|
        invariant forall b <- rest :: Foreign(b, w)
        invariant calm ==> CalmState(State()) && Calm(rest) && Potential(State()) <= old(Potential(State()))
        invariant others == [] ==>
          && rest == [] && events == old(events) && clock == old(clock) && locks == old(locks) && deliveries == old(deliveries)
          && (old(workers)[w].rows == [] ==> Attempts(publisher, workers[w], workers[w].rows, old(wire), wire))
        decreases |workers[w].batch| - |workers[w].rows|
      {
        BatchBounds(performed, w);
        var c := workers[w].batch[|workers[w].rows|];
        var error := publisher(|wire|, EnvelopeOf(c.id, c.read));
        ExecConcat(performed, Publish(w, error));
        PublishGoes(State(), w, error);
        if calm {
          CalmStep(State(), Publish(w, error));
        }
        ghost var x, sent := workers[w], wire;
        PublishNext(w, error);
        if others == [] && old(workers)[w].rows == [] {
          OneMoreAttempt(publisher, x, workers[w], c, error, old(wire), sent, wire);
        }
        rest := Interleave(w, rest, 0);
      }
    }

    /**
     * Publish and settle the claimed batch, then commit it, unless the transaction dies. The batch is
     * settled whether or not the answer to the commit arrives.
     */
    method FinishBatch(w: nat, publisher: Publisher, fate: Fate, others: seq<seq<Action>>)
      returns (n: Option<nat>)
      requires Valid() && In(State(), w, Publishing)
      requires forall b <- others :: Foreign(b, w)
      modifies this
      ensures Valid() && old(performed) <= performed
      ensures n == if fate.Commits? then Some(|old(workers)[w].batch|) else None
      ensures old(CalmState(State())) && Calm(others) ==>
        CalmState(State()) && Potential(State()) + Settles(fate, |old(workers)[w].batch|) <= old(Potential(State()))
      ensures others == [] && fate.Commits? ==>
        && clock == old(clock) && BatchSettled(old(events), old(workers)[w], events)
        && (old(OnlyBy(locks, w)) ==> locks == map[])
        && (old(workers)[w].rows == [] ==>
              Delivered(publisher, old(workers)[w], old(deliveries), deliveries, old(wire), wire))
    {
      hide Step, Exec, Inv, CalmState, Potential, Foreign, Calm, BatchSettled, Attempts, Delivered;
      ghost var calm := CalmState(State()) && Calm(others);
      ghost var x := workers[w];
      var rest := PublishPhase(w, publisher, fate, others);
      var size := |workers[w].batch|;
      if fate.DiesAfter? || fate.DiesClaiming? {
        ExecConcat(performed, AbortWork(w));
        if calm { CalmStep(State(), AbortWork(w)); }
        Rollback(w);
        return None;
      }
      ExecConcat(performed, CommitWork(w));
      if calm {
        CalmStep(State(), CommitWork(w));
        CommitDispatches(State(), w);
      }
      CommitSettles(performed, w, x);
      CommitGoes(State(), w);
      ghost var rows, filed, sent := workers[w].rows, deliveries, wire;
      if others == [] && x.rows == [] {
        BatchDelivered(publisher, x, workers[w], filed, old(wire), sent);
      }
      CommitBatch(w);
      n := if fate.Commits? then Some(size) else None;
    }

    /** Begin the transaction and claim its batch; nothing claimed, or dead, it is over. */
    method ClaimBatch(w: nat, limit: nat, fate: Fate, others: seq<seq<Action>>) returns (rest: seq<seq<Action>>)
      requires Valid() && w !in workers
      requires forall b <- others :: Foreign(b, w)
      modifies this
      ensures Valid() && old(performed) <= performed
      ensures w in workers && (workers[w].phase == Ended || workers[w].phase == Publishing)
      ensures |workers[w].batch| <= limit && (fate.DiesClaiming? ==> workers[w].phase == Ended)
      ensures forall b <- rest :: Foreign(b, w)
      ensures old(CalmState(State())) && Calm(others) ==>
        CalmState(State()) && Calm(rest) && Potential(State()) <= old(Potential(State()))
      ensures old(locks) == map[] && others == [] && !fate.DiesClaiming? ==>
        && rest == [] && events == old(events) && clock == old(clock)
        && wire == old(wire) && deliveries == old(deliveries)
        && if workers[w].phase == Ended then
             locks == map[] && Min(limit, |DueIds(events, clock)|) == 0 && (limit > 0 ==> DueIds(events, clock) == {})
           else
             && OnlyBy(locks, w) && workers[w].now == clock && workers[w].rows == [] && workers[w].trigger == ByRelay
             && Distinct(workers[w]) && TookDue(events, workers[w]) && OldestFirst(events, workers[w])
             && |workers[w].batch| == Min(limit, |DueIds(events, clock)|)
             && (|workers[w].batch| < limit ==> TookAll(events, workers[w]))
    {
      hide Step, Exec, Inv, CalmState, Potential, Foreign, Calm, DueIds, OldestFirst, TookAll, TookDue, Distinct;
      ghost var calm := CalmState(State()) && Calm(others);
      ExecConcat(performed, BeginRelay(w, limit));
      BeginGoes(State(), w, limit);
      if calm { CalmStep(State(), BeginRelay(w, limit)); }
      BeginBatch(w, limit);
      rest := ClaimPhase(w, fate, others);
      if fate.DiesClaiming? {
        ExecConcat(performed, AbortWork(w));
        AbortGoes(State(), w);
        if calm { CalmStep(State(), AbortWork(w)); }
        Rollback(w);
        return;
      }
      ghost var claimed := workers[w];
      ExecConcat(performed, CloseBatch(w));
      CloseGoes(State(), w);
      if calm { CalmStep(State(), CloseBatch(w)); }
      StartPublishing(w);
      BatchIsDistinct(performed, w);
      if old(locks) == map[] && others == [] {
        if claimed.batch == [] {
          if limit > 0 { NothingTaken(events, claimed); }
        } else {
          SameBatchSame(events, claimed, workers[w]);
        }
      }
    }

    /**
     * DispatchBatch: claim, publish, settle, commit, in one transaction that may die anywhere. A
     * committed batch lowers the potential by its length; alone, it takes every due event up to the
     * limit, and if it stayed below, nothing is due any more.
     */
    method DispatchBatch(w: nat, limit: nat, publisher: Publisher, fate: Fate, others: seq<seq<Action>>)
      returns (n: Option<nat>)
      requires Valid() && w !in workers
      requires forall b <- others :: Foreign(b, w)
      modifies this
      ensures Valid() && old(performed) <= performed
      ensures n.Some? ==> n.value <= limit
      ensures fate.Commits? ==> n.Some?
      ensures old(CalmState(State())) && Calm(others) ==>
        CalmState(State()) && Potential(State()) + (if n.Some? then n.value else 0) <= old(Potential(State()))
      ensures old(locks) == map[] && others == [] && fate.Commits? ==>
        && n.value == Min(limit, |DueIds(old(events), old(clock))|)
        && locks == map[] && clock == old(clock)
        && (n.value < limit ==> DueIds(events, clock) == {})
        && Served(publisher, old(events), old(clock), old(deliveries), deliveries, old(wire), wire)
        && |deliveries| == old(|deliveries|) + n.value
    {
      hide CalmState, Potential, Foreign, Calm, DueIds, TookAll, TookDue, OldestFirst, Distinct, BatchSettled, Delivered, Served, Exec;
      ghost var quiet := locks == map[] && others == [] && fate.Commits?;
      var rest := ClaimBatch(w, limit, fate, others);
      if workers[w].phase == Ended {
        NoneServed(publisher, events, clock, deliveries, wire);
        return if fate.DiesClaiming? then None else Some(0);
      }
      ghost var x, was := workers[w], events;
      n := FinishBatch(w, publisher, fate, rest);
      if quiet {
        if n.value < limit { NothingDue(was, x, events); }
        BatchServed(publisher, was, x, old(deliveries), deliveries, old(wire), wire);
      }
    }

    /** A transaction number nobody has used. */
    method NewWorker() returns (w: nat)
      ensures w !in workers
    {
      var rest := workers.Keys;
      w := 0;
      while rest != {}
        invariant rest <= workers.Keys
        invariant forall k :: k in workers && k !in rest ==> k < w
      {
        var k :| k in rest;
        rest := rest - {k};
        w := if w <= k then k + 1 else w;
      }
    }

    /**
     * The inner loop of Relay.Run: dispatch while batches come back full. Time may pass and other
     * relays may run meanwhile, publishers may fail at will; the number of batches is bounded by what
     * the pending events have left to try. Undisturbed, and with no transaction dying, it leaves
     * nothing due.
     */
    method Drain(batchSize: nat, publisher: Publisher, fates: nat -> Fate, during: (nat, nat) -> seq<seq<Action>>)
      returns (batches: nat)
      requires Valid() && batchSize > 0 && CalmState(State())
      requires forall k: nat, w: nat :: Meanwhile(during(k, w), w)
      modifies this
      ensures Valid() && CalmState(State()) && old(performed) <= performed
      ensures (batches - 1) * batchSize <= old(Potential(State())) - Potential(State())
      ensures 0 <= Potential(State())
      ensures old(locks) == map[] && AllAlone(fates, during) ==>
        && clock == old(clock) && DueIds(events, clock) == {}
        && forall id :: id in old(events) && MayBeTried(History(old(deliveries), id), old(events)[id].createdAt, clock) ==>
             |History(deliveries, id)| > |History(old(deliveries), id)|
    {
      hide Exec, Inv, CalmState, Potential, Calm, Foreign, DueIds;
      batches := 0;
      ghost var quiet := locks == map[] && AllAlone(fates, during);
      AlwaysInv(performed);
      PotentialNonNegative(State());
      while true
        invariant Valid() && old(performed) <= performed && CalmState(State())
        invariant batches * batchSize <= old(Potential(State())) - Potential(State())
        invariant 0 <= Potential(State())
        invariant quiet ==> locks == map[] && clock == old(clock)
        decreases Potential(State())
      {
        var w := NewWorker();
        assert Meanwhile(during(batches, w), w);
        assert quiet ==> during(batches, w) == [] && fates(batches).Commits?;
        var n := DispatchBatch(w, batchSize, publisher, fates(batches), during(batches, w));
        AlwaysInv(performed);
        PotentialNonNegative(State());
        batches := batches + 1;
        if n.None? || n.value < batchSize {
          if quiet { EverythingTried(old(performed), performed, clock); }
          return;
        }
      }
    }

    /** SELECT FOR UPDATE by id: waits while another transaction holds the row, for as long as it lives. */
    method ReplayLock(w: nat, id: Uuid, others: seq<seq<Action>>) returns (rest: seq<seq<Action>>)
      requires Valid() && In(State(), w, Waiting(id))
      requires forall b <- others :: Foreign(b, w)
      modifies this
      ensures Valid() && old(performed) <= performed && w in workers
      ensures forall b <- rest :: Foreign(b, w)
      ensures
        || workers[w] == old(workers)[w]
        || (workers[w].phase == Ended && id !in events)
        || (id in events && workers[w] == old(workers)[w].(phase := Publishing, batch := [Claimed(id, events[id])]))
      ensures workers[w].phase == Waiting(id) ==> rest == []
      ensures Strangers(w, old(|performed|)) + Total(rest) == Total(others)
      ensures old(locks) == map[] ==> !workers[w].phase.Waiting?
      ensures old(locks) == map[] && others == [] ==>
        rest == [] && events == old(events) && deliveries == old(deliveries) && wire == old(wire)
    {
      hide Step, Exec, Inv, Foreign, ForeignCount, Total;
      ghost var start := |performed|;
      NoStrangers(performed, w);
      rest := others;
      while true
        invariant Valid() && old(performed) <= performed
        invariant w in workers && workers[w] == old(workers)[w]
        invariant forall b <- rest :: Foreign(b, w)
        invariant old(locks) == map[] ==> locks == map[]
        invariant Strangers(w, start) + Total(rest) == Total(others)
        invariant others == [] ==> rest == [] && events == old(events) && deliveries == old(deliveries) && wire == old(wire)
        decreases |rest|
      {
        ExecConcat(performed, ClaimReplay(w));
        OwnCount(performed, ClaimReplay(w), start, w);
        ReplayGoes(State(), w, id);
        LockForReplay(w);
        if !workers[w].phase.Waiting? || rest == [] { return; }
        rest := Interleave(w, rest, start);
      }
    }

    /** Publish the one row of a replay and settle the attempt privately. */
    method ReplayPublish(w: nat, publisher: Publisher, others: seq<seq<Action>>)
      returns (rest: seq<seq<Action>>, i: nat)
      requires Valid() && In(State(), w, Publishing) && |workers[w].batch| == 1
      requires workers[w].rows == [] && workers[w].updates == map[]
      requires forall b <- others :: Foreign(b, w)
      modifies this
      ensures Valid() && old(performed) <= performed
      ensures w in workers && SameClaims(old(workers)[w], workers[w]) && |workers[w].rows| == 1
      ensures workers[w].updates.Keys == {workers[w].batch[0].id}
      ensures var c, d := workers[w].batch[0], workers[w].rows[0];
              && i < |wire| && wire[i] == Publication(EnvelopeOf(c.id, c.read), d.succeeded)
              && d.error == publisher(i, EnvelopeOf(c.id, c.read)) && d.succeeded == d.error.None?
      ensures others == [] ==> events == old(events) && deliveries == old(deliveries) && |wire| == old(|wire|) + 1
    {
      hide Step, Exec, Inv, Foreign, Due, InBatch, EnvelopeOf, Settle;
      rest := Interleave(w, others, 0);
      BatchBounds(performed, w);
      var c := workers[w].batch[0];
      i := |wire|;
      var error := publisher(i, EnvelopeOf(c.id, c.read));
      ExecConcat(performed, Publish(w, error));
      PublishGoes(State(), w, error);
      PublishNext(w, error);
      assert wire[i] == Publication(EnvelopeOf(c.id, c.read), error.None?);
      rest := Interleave(w, rest, 0);
    }

    /** Publish and settle the one row of a replay, read the outcome back, commit. */
    method ReplayAttempt(w: nat, publisher: Publisher, fate: Fate, others: seq<seq<Action>>)
      returns (r: Option<(Event, Delivery)>)
      requires Valid() && In(State(), w, Publishing) && |workers[w].batch| == 1
      requires workers[w].rows == [] && workers[w].updates == map[]
      requires forall b <- others :: Foreign(b, w)
      modifies this
      ensures Valid() && old(performed) <= performed
      ensures r.Some? <==> fate.Commits?
      ensures r.Some? ==> Told(events, deliveries, old(workers)[w].batch[0].id, r.value.0, r.value.1)
      ensures r.Some? ==> Answers(publisher, wire, old(workers)[w].batch[0].id, r.value.0, r.value.1)
      ensures r.Some? ==> r.value.1.trigger == old(workers)[w].trigger && r.value.1.at == old(workers)[w].now
      ensures r.Some? && others == [] ==>
        && events == old(events)[old(workers)[w].batch[0].id := r.value.0]
        && deliveries == old(deliveries) + [r.value.1] && |wire| == old(|wire|) + 1
    {
      hide Step, Exec, Inv, Foreign, Told, Due, InBatch, EnvelopeOf, Settle;
      if fate.DiesClaiming? || fate == DiesAfter(0) {
        ExecConcat(performed, AbortWork(w));
        Rollback(w);
        return None;
      }
      var rest, i := ReplayPublish(w, publisher, others);
      var c := workers[w].batch[0];
      if fate.DiesAfter? {
        ExecConcat(performed, AbortWork(w));
        Rollback(w);
        return None;
      }
      ReadBack(performed, w);
      var settled, delivery := workers[w].updates[c.id], workers[w].rows[0];
      assert AnswersAt(publisher, wire, i, c.id, settled, delivery);
      ExecConcat(performed, CommitWork(w));
      ReplayCommits(performed, w);
      CommitGoes(State(), w);
      assert workers[w].rows == [delivery] && workers[w].updates == map[c.id := settled];
      CommitBatch(w);
      r := if fate.Commits? then Some((settled, delivery)) else None;
    }

    /**
     * ReplayEvent: one more publication of the event as it stands, whatever its status. The reply is
     * read back inside the transaction; if it is returned, it is what was committed, and what the
     * publisher answered to a publication of this event. There is no reply only if the transaction did
     * not commit, its answer was lost, or it still waited for the row after everything the others did.
     */
    method ReplayEvent(w: nat, id: Uuid, publisher: Publisher, fate: Fate, others: seq<seq<Action>>)
      returns (r: Option<Result<(Event, Delivery), Uuid>>, unused: seq<seq<Action>>)
      requires Valid() && w !in workers
      requires forall b <- others :: Foreign(b, w)
      modifies this
      ensures Valid() && old(performed) <= performed
      ensures old(locks) == map[] && fate.Commits? ==> r.Some?
      ensures r.None? && fate.Commits? ==> unused == [] && Strangers(w, old(|performed|)) == Total(others)
      ensures r.Some? && r.value.Err? ==> id !in events && r.value.error == id
      ensures r.Some? && r.value.Ok? ==>
        && Told(events, deliveries, id, r.value.value.0, r.value.value.1)
        && Answers(publisher, wire, id, r.value.value.0, r.value.value.1)
        && r.value.value.1.trigger == ByReplay && r.value.value.1.at == old(clock)
      ensures old(locks) == map[] && others == [] && fate.Commits? ==>
        && (r.value.Ok? <==> id in old(events))
        && |deliveries| == old(|deliveries|) + (if r.value.Ok? then 1 else 0)
        && |wire| == old(|wire|) + (if r.value.Ok? then 1 else 0)
        && deliveries == old(deliveries) + (if r.value.Ok? then [r.value.value.1] else [])
        && events == if r.value.Ok? then old(events)[id := r.value.value.0] else old(events)
    {
      hide Step, Exec, Inv, Foreign, Told, Answers, ForeignCount, Total;
      ghost var start := |performed|;
      ExecConcat(performed, BeginReplay(w, id));
      BeginReplayGoes(State(), w, id);
      OwnAfter(performed, BeginReplay(w, id), w);
      BeginManualReplay(w, id);
      unused := ReplayLock(w, id, others);
      SplitCount(performed, start, w);
      if workers[w].phase.Waiting? {
        ExecConcat(performed, AbortWork(w));
        OwnCount(performed, AbortWork(w), start, w);
        NothingUnused();
        Rollback(w);
        return None, unused;
      }
      if workers[w].phase == Ended { return Some(Err(id)), unused; }
      var reply := ReplayAttempt(w, publisher, fate, unused);
      r := if reply.Some? then Some(Ok(reply.value)) else None;
    }
  }

  lemma {:induction false} ForeignCountConcat(xs: seq<Action>, ys: seq<Action>, w: nat)
    ensures ForeignCount(xs + ys, w) == ForeignCount(xs, w) + ForeignCount(ys, w)
  {
    if ys == [] {
      assert xs + ys == xs;
    } else {
      ForeignCountConcat(xs, ys[..|ys| - 1], w);
      assert (xs + ys)[..|xs + ys| - 1] == xs + ys[..|ys| - 1];
    }
  }

  lemma {:induction false} AllForeign(burst: seq<Action>, w: nat)
    requires Foreign(burst, w)
    ensures ForeignCount(burst, w) == |burst|
  {
    if burst != [] {
      AllForeign(burst[..|burst| - 1], w);
      assert burst[|burst| - 1] in burst;
    }
  }

  lemma StrangersRun(performed: seq<Action>, burst: seq<Action>, n: nat, w: nat)
    requires n <= |performed| && Foreign(burst, w)
    ensures ForeignCount((performed + burst)[n..], w) == ForeignCount(performed[n..], w) + |burst|
  {
    AllForeign(burst, w);
    assert (performed + burst)[n..] == performed[n..] + burst;
    ForeignCountConcat(performed[n..], burst, w);
  }

  lemma NothingUnused()
    ensures Total([]) == 0
  {
  }

  lemma NoStrangers(performed: seq<Action>, w: nat)
    ensures ForeignCount(performed[|performed|..], w) == 0
  {
  }

  lemma OwnCount(performed: seq<Action>, a: Action, n: nat, w: nat)
    requires n <= |performed| && Actor(a) == Some(w)
    ensures ForeignCount((performed + [a])[n..], w) == ForeignCount(performed[n..], w)
  {
    assert (performed + [a])[n..] == performed[n..] + [a];
    ForeignCountConcat(performed[n..], [a], w);
    assert [a][..0] == [];
  }

  lemma OwnAfter(performed: seq<Action>, a: Action, w: nat)
    requires Actor(a) == Some(w)
    ensures ForeignCount((performed + [a])[|performed|..], w) == 0
  {
    OwnCount(performed, a, |performed|, w);
  }

  /** One own action first does not change the count. */
  lemma SplitCount(performed: seq<Action>, n: nat, w: nat)
    requires n < |performed| && Actor(performed[n]) == Some(w)
    ensures ForeignCount(performed[n..], w) == ForeignCount(performed[n + 1..], w)
  {
    assert performed[n..] == [performed[n]] + performed[n + 1..];
    ForeignCountConcat([performed[n]], performed[n + 1..], w);
    assert [performed[n]][..0] == [];
  }

  /** Publication i is one of this event, and the delivery records what the publisher answered to it. */
  ghost predicate AnswersAt(publisher: Publisher, wire: seq<Publication>, i: nat, id: Uuid, e: Event, d: Delivery) {
    && i < |wire| && wire[i] == Publication(EnvelopeOf(id, e), d.succeeded)
    && d.error == publisher(i, EnvelopeOf(id, e)) && d.succeeded == d.error.None?
  }

  ghost predicate Answers(publisher: Publisher, wire: seq<Publication>, id: Uuid, e: Event, d: Delivery) {
    exists i: nat :: AnswersAt(publisher, wire, i, id, e, d)
  }

  /** e is the committed event, d its last committed delivery, and e is what its deliveries tell. */
  ghost predicate Told(events: map<Uuid, Event>, deliveries: seq<Delivery>, id: Uuid, e: Event, d: Delivery) {
    var h := History(deliveries, id);
    && id in events && events[id] == e
    && TellsAll(e, h)
    && h != [] && d == h[|h| - 1]
  }

  /** How many events a transaction settles that claimed so many. */
  function Settles(fate: Fate, claimed: nat): nat {
    if fate.Commits? || fate.CommitsUnheard? then claimed else 0
  }

  ghost predicate AllAlone(fates: nat -> Fate, during: (nat, nat) -> seq<seq<Action>>) {
    (forall k: nat :: fates(k).Commits?) && (forall k: nat, w: nat :: during(k, w) == [])
  }

  predicate OnlyBy(locks: map<Uuid, nat>, w: nat) {
    forall id :: id in locks ==> locks[id] == w
  }

  /** Every event due at the worker's time is in its batch. */
  ghost predicate TookAll(snapshot: map<Uuid, Event>, x: Worker) {
    forall id :: id in DueIds(snapshot, x.now) ==> InBatch(x, id)
  }

  /** After the commit of a batch its events are no longer due at the time of the attempt; others are as before. */
  ghost predicate BatchSettled(before: map<Uuid, Event>, x: Worker, after: map<Uuid, Event>) {
    && after.Keys == before.Keys
    && forall id :: id in after ==> if InBatch(x, id) then !Due(after[id], x.now) else after[id] == before[id]
  }

  lemma NothingDue(before: map<Uuid, Event>, x: Worker, after: map<Uuid, Event>)
    requires TookAll(before, x) && BatchSettled(before, x, after)
    ensures DueIds(after, x.now) == {}
  {
    hide InBatch;
    assert forall id :: id in after && !InBatch(x, id) && Due(after[id], x.now) ==> id in DueIds(before, x.now);
  }

  lemma NothingTaken(snapshot: map<Uuid, Event>, x: Worker)
    requires TookAll(snapshot, x) && x.batch == []
    ensures DueIds(snapshot, x.now) == {}
  {
    hide Due;
  }

  lemma WireGrows(s: State, a: Action)
    ensures s.wire <= Step(s, a).wire
  {
    hide Settle, Due, EnvelopeOf, DeliveryOf;
  }

  lemma CommitDispatches(s: State, w: nat)
    requires In(s, w, Publishing) && |s.workers[w].rows| >= |s.workers[w].batch|
    ensures Dispatched(s, CommitWork(w)) == |s.workers[w].batch|
  {
  }

  /** A settled attempt is not due before its delay has passed. */
  lemma SettledNotDue(e: Event, error: Option<string>, now: int)
    ensures !Due(Settle(e, e, error, now), now)
  {
    IntervalExact(e.attempts + 1);
    BackoffMonotone(e.attempts + 1, e.attempts + 1);
  }

  lemma CommitSettles(schedule: seq<Action>, w: nat, x: Worker)
    requires In(Exec(START, schedule), w, Publishing)
    requires |Exec(START, schedule).workers[w].rows| >= |Exec(START, schedule).workers[w].batch|
    requires SameClaims(x, Exec(START, schedule).workers[w])
    ensures var s := Exec(START, schedule);
            var s' := Step(s, CommitWork(w));
            && BatchSettled(s.events, x, s'.events) && s'.clock == s.clock
            && (OnlyBy(s.locks, w) ==> s'.locks == map[])
  {
    hide Exec, Inv;
    AlwaysInv(schedule);
    CommitSettlesNow(Exec(START, schedule), w, x);
  }

  lemma CommitSettlesNow(s: State, w: nat, x: Worker)
    requires Inv(s) && Finished(s, w) && SameClaims(x, s.workers[w])
    ensures var s' := Step(s, CommitWork(w));
            && BatchSettled(s.events, x, s'.events) && s'.clock == s.clock
            && (OnlyBy(s.locks, w) ==> s'.locks == map[])
  {
    hide Inv, WorkerOk, Due, Settle;
    WorkerHolds(s, w);
    Parts(s);
    hide WorkersOk, LocksOk, EnvelopesOk, Accounted, ToldByHistory, History;
    CommitKeys(s, w);
    var s' := Step(s, CommitWork(w));
    assert s' == DoCommit(s, w) && s'.clock == s.clock;
    forall id | id in s'.events
      ensures if InBatch(x, id) then !Due(s'.events[id], x.now) else s'.events[id] == s.events[id]
    {
      if InBatch(x, id) {
        var i :| 0 <= i < |x.batch| && x.batch[i].id == id;
        CommitRow(s, w, i);
        SettledNotDue(s.events[id], s.workers[w].rows[i].error, x.now);
      } else {
        assert !InBatch(s.workers[w], id);
        CommitOther(s, w, id);
      }
    }
  }

  ghost predicate Meanwhile(bursts: seq<seq<Action>>, w: nat) {
    Calm(bursts) && forall b <- bursts :: Foreign(b, w)
  }

  lemma ReplayGoes(s: State, w: nat, id: Uuid)
    requires In(s, w, Waiting(id))
    ensures var s' := Step(s, ClaimReplay(w));
            && w in s'.workers && s'.events == s.events && s'.deliveries == s.deliveries && s'.wire == s.wire
            && if id !in s.events then s'.workers[w].phase == Ended
               else if id in s.locks then s' == s
               else s'.workers[w] == s.workers[w].(phase := Publishing, batch := [Claimed(id, s.events[id])])
  {
  }

  lemma BeginReplayGoes(s: State, w: nat, id: Uuid)
    requires w !in s.workers
    ensures var s' := Step(s, BeginReplay(w, id));
            && s'.workers == s.workers[w := Worker(ByReplay, s.clock, 1, Waiting(id), [], map[], [], [])]
            && s'.events == s.events && s'.locks == s.locks && s'.deliveries == s.deliveries && s'.wire == s.wire
  {
  }

  /** The one attempt of a replay, as its own transaction sees it before the commit. */
  lemma ReadBack(schedule: seq<Action>, w: nat)
    requires var s := Exec(START, schedule);
             w in s.workers && |s.workers[w].batch| == 1 && |s.workers[w].rows| == 1
    ensures var x := Exec(START, schedule).workers[w];
            && x.batch[0].id in x.updates
            && x.rows[0].eventId == x.batch[0].id && x.rows[0].at == x.now && x.rows[0].trigger == x.trigger
            && EnvelopeOf(x.batch[0].id, x.updates[x.batch[0].id]) == EnvelopeOf(x.batch[0].id, x.batch[0].read)
  {
    var s := Exec(START, schedule);
    AlwaysInv(schedule);
    WorkerHolds(s, w);
    hide Exec, Inv, BatchOk, Attempted;
    assert AttemptOk(s.workers[w], 0);
  }

  /** What the replay read back is what its commit makes true for everybody. */
  lemma ReplayCommits(schedule: seq<Action>, w: nat)
    requires var s := Exec(START, schedule);
             In(s, w, Publishing) && |s.workers[w].batch| == 1 && |s.workers[w].rows| == 1
    ensures var s := Exec(START, schedule);
            var x, s' := s.workers[w], Step(s, CommitWork(w));
            var id := x.batch[0].id;
            id in x.updates && Told(s'.events, s'.deliveries, id, x.updates[id], x.rows[0]) && s'.wire == s.wire
  {
    ReadBack(schedule, w);
    ExecConcat(schedule, CommitWork(w));
    CommitGoes(Exec(START, schedule), w);
    hide Exec, Step, Inv, Told;
    AppendedRow(Exec(START, schedule), Step(Exec(START, schedule), CommitWork(w)), w);
  }

  lemma AppendedRow(s: State, s': State, w: nat)
    requires Inv(s') && w in s.workers && |s.workers[w].rows| == 1 && |s.workers[w].batch| == 1
    requires var x := s.workers[w];
             && x.batch[0].id in x.updates && x.rows[0].eventId == x.batch[0].id
             && s'.events == s.events + x.updates && s'.deliveries == s.deliveries + x.rows
    ensures var x := s.workers[w];
            Told(s'.events, s'.deliveries, x.batch[0].id, x.updates[x.batch[0].id], x.rows[0])
  {
    hide TellsAll;
    var x := s.workers[w];
    HistoryConcat(s.deliveries, x.rows, x.batch[0].id);
    OneRow(x.rows[0]);
    assert x.rows == [x.rows[0]];
    Parts(s');
    Telling(s'.events[x.batch[0].id], History(s'.deliveries, x.batch[0].id));
    hide Inv, History, ToldByHistory, WorkersOk, LocksOk, EnvelopesOk, Accounted, RelayWaits;
  }

  lemma CommitGoes(s: State, w: nat)
    requires In(s, w, Publishing) && |s.workers[w].rows| >= |s.workers[w].batch|
    ensures var x, s' := s.workers[w], Step(s, CommitWork(w));
            s'.events == s.events + x.updates && s'.deliveries == s.deliveries + x.rows && s'.wire == s.wire
  {
  }

  lemma OneRow(d: Delivery)
    ensures History([d], d.eventId) == [d]
  {
    assert [d][..0] == [];
  }

  /** Claims are fixed; only attempts are added. */
  predicate SameClaims(x: Worker, y: Worker) {
    && y.phase == x.phase && y.trigger == x.trigger && y.now == x.now && y.batch == x.batch && x.rows <= y.rows
  }

  /** The events a relay must take at this time, whatever has been tried before. */
  function DueIds(events: map<Uuid, Event>, now: int): set<Uuid> {
    set id | id in events && events[id].status == Pending && events[id].availableAt <= now
  }

  /** A batch holds only due events. */
  ghost predicate TookDue(snapshot: map<Uuid, Event>, x: Worker) {
    forall i :: 0 <= i < |x.batch| ==> x.batch[i].id in DueIds(snapshot, x.now)
  }

  ghost predicate Distinct(x: Worker) {
    forall i, j :: 0 <= i < j < |x.batch| ==> x.batch[i].id != x.batch[j].id
  }

  lemma BatchIsDistinct(schedule: seq<Action>, w: nat)
    requires w in Exec(START, schedule).workers
    ensures Distinct(Exec(START, schedule).workers[w])
  {
    AlwaysInv(schedule);
    WorkerHolds(Exec(START, schedule), w);
    hide Exec, Inv, AttemptsOk, Due;
  }

  lemma SameBatchSame(snapshot: map<Uuid, Event>, x: Worker, y: Worker)
    requires y.batch == x.batch && y.now == x.now
    ensures TookAll(snapshot, x) ==> TookAll(snapshot, y)
    ensures TookDue(snapshot, x) ==> TookDue(snapshot, y)
    ensures OldestFirst(snapshot, x) ==> OldestFirst(snapshot, y)
  {
    hide DueIds;
    assert forall id :: InBatch(x, id) <==> InBatch(y, id);
  }

  // ---------- what an undisturbed batch delivers ----------

  /** Attempt i of a batch: its publication, the publisher's answer to it, and its delivery row. */
  ghost predicate AttemptAt(publisher: Publisher, x: Worker, i: nat, d: Delivery, n: nat, p: Publication)
    requires i < |x.batch|
  {
    && d.eventId == x.batch[i].id && d.at == x.now && d.trigger == x.trigger
    && p.envelope.eventId == d.eventId && d.error == publisher(n, p.envelope)
    && p.accepted == d.succeeded == d.error.None?
  }

  ghost predicate Attempts(publisher: Publisher, x: Worker, rows: seq<Delivery>, before: seq<Publication>, wire: seq<Publication>) {
    && before <= wire && |wire| == |before| + |rows| && |rows| <= |x.batch|
    && forall i :: 0 <= i < |rows| ==> AttemptAt(publisher, x, i, rows[i], |before| + i, wire[|before| + i])
  }

  lemma NoAttempts(publisher: Publisher, x: Worker, wire: seq<Publication>)
    ensures x.rows == [] ==> Attempts(publisher, x, x.rows, wire, wire)
  {
  }

  lemma OneMoreAttempt(
      publisher: Publisher, x: Worker, y: Worker, c: Claimed, error: Option<string>,
      before: seq<Publication>, sent: seq<Publication>, wire: seq<Publication>)
    requires Attempts(publisher, x, x.rows, before, sent)
    requires |x.rows| < |x.batch| && c == x.batch[|x.rows|] && error == publisher(|sent|, EnvelopeOf(c.id, c.read))
    requires SameClaims(x, y) && y.rows == x.rows + [DeliveryOf(c.id, error, x.trigger, x.now)]
    requires wire == sent + [Publication(EnvelopeOf(c.id, c.read), error.None?)]
    ensures Attempts(publisher, y, y.rows, before, wire)
  {
    hide AttemptAt;
    forall i | 0 <= i < |y.rows| ensures AttemptAt(publisher, y, i, y.rows[i], |before| + i, wire[|before| + i]) {
      if i < |x.rows| {
        assert AttemptAt(publisher, x, i, x.rows[i], |before| + i, sent[|before| + i]);
        SameAttempt(publisher, x, y, i, x.rows[i], |before| + i, sent[|before| + i]);
      } else {
        LastAttempt(publisher, y, i, y.rows[i], |before| + i, wire[|before| + i], c, error);
      }
    }
  }

  lemma SameAttempt(publisher: Publisher, x: Worker, y: Worker, i: nat, d: Delivery, n: nat, p: Publication)
    requires i < |x.batch| && SameClaims(x, y) && AttemptAt(publisher, x, i, d, n, p)
    ensures AttemptAt(publisher, y, i, d, n, p)
  {
  }

  lemma LastAttempt(
      publisher: Publisher, y: Worker, i: nat, d: Delivery, n: nat, p: Publication, c: Claimed, error: Option<string>)
    requires i < |y.batch| && c == y.batch[i] && error == publisher(n, EnvelopeOf(c.id, c.read))
    requires d == DeliveryOf(c.id, error, y.trigger, y.now) && p == Publication(EnvelopeOf(c.id, c.read), error.None?)
    ensures AttemptAt(publisher, y, i, d, n, p)
  {
  }

  /** One new delivery row and one publication for each event of the batch, in its order. */
  ghost predicate Delivered(
      publisher: Publisher, x: Worker, filed: seq<Delivery>, deliveries: seq<Delivery>,
      before: seq<Publication>, wire: seq<Publication>)
  {
    && filed <= deliveries && |deliveries| == |filed| + |x.batch|
    && Attempts(publisher, x, deliveries[|filed|..], before, wire)
  }

  lemma BatchDelivered(
      publisher: Publisher, x: Worker, y: Worker, filed: seq<Delivery>, before: seq<Publication>, wire: seq<Publication>)
    requires SameClaims(x, y) && |y.rows| == |y.batch| && Attempts(publisher, y, y.rows, before, wire)
    ensures Delivered(publisher, x, filed, filed + y.rows, before, wire)
  {
    hide AttemptAt;
    assert (filed + y.rows)[|filed|..] == y.rows;
    forall i | 0 <= i < |y.rows| ensures AttemptAt(publisher, x, i, y.rows[i], |before| + i, wire[|before| + i]) {
      AttemptBack(publisher, x, y, i, y.rows[i], |before| + i, wire[|before| + i]);
    }
  }

  lemma AttemptBack(publisher: Publisher, x: Worker, y: Worker, i: nat, d: Delivery, n: nat, p: Publication)
    requires i < |y.batch| && SameClaims(x, y) && AttemptAt(publisher, y, i, d, n, p)
    ensures AttemptAt(publisher, x, i, d, n, p)
  {
  }

  /**
   * What an undisturbed batch does to the world: new delivery rows of due events, each event once, by
   * the relay, now, each with its publication and the publisher's answer to it; and no due event left
   * out was created before one served.
   */
  ghost predicate Served(
      publisher: Publisher, snapshot: map<Uuid, Event>, now: int, filed: seq<Delivery>, deliveries: seq<Delivery>,
      before: seq<Publication>, wire: seq<Publication>)
  {
    && filed <= deliveries && before <= wire && |deliveries| - |filed| == |wire| - |before|
    && (forall i :: |filed| <= i < |deliveries| ==>
          OneServed(publisher, snapshot, now, deliveries[i], |before| + i - |filed|, wire[|before| + i - |filed|]))
    && (forall i, j :: |filed| <= i < j < |deliveries| ==> deliveries[i].eventId != deliveries[j].eventId)
    && (forall i, id :: |filed| <= i < |deliveries| && LeftOut(snapshot, now, deliveries[|filed|..], id) ==>
          NotYounger(snapshot, deliveries[i].eventId, id))
  }

  ghost predicate LeftOut(snapshot: map<Uuid, Event>, now: int, rows: seq<Delivery>, id: Uuid) {
    id in DueIds(snapshot, now) && forall d <- rows :: d.eventId != id
  }

  predicate NotYounger(snapshot: map<Uuid, Event>, a: Uuid, b: Uuid) {
    a in snapshot && b in snapshot && snapshot[a].createdAt <= snapshot[b].createdAt
  }

  ghost predicate OneServed(
      publisher: Publisher, snapshot: map<Uuid, Event>, now: int, d: Delivery, n: nat, p: Publication)
  {
    && d.eventId in DueIds(snapshot, now) && d.at == now && d.trigger == ByRelay
    && p.envelope.eventId == d.eventId && d.error == publisher(n, p.envelope)
    && p.accepted == d.succeeded == d.error.None?
  }

  lemma NoneServed(publisher: Publisher, snapshot: map<Uuid, Event>, now: int, deliveries: seq<Delivery>, wire: seq<Publication>)
    ensures Served(publisher, snapshot, now, deliveries, deliveries, wire, wire)
  {
  }

  lemma BatchServed(
      publisher: Publisher, snapshot: map<Uuid, Event>, x: Worker, filed: seq<Delivery>, deliveries: seq<Delivery>,
      before: seq<Publication>, wire: seq<Publication>)
    requires Delivered(publisher, x, filed, deliveries, before, wire)
    requires Distinct(x) && TookDue(snapshot, x) && OldestFirst(snapshot, x) && x.trigger == ByRelay
    ensures Served(publisher, snapshot, x.now, filed, deliveries, before, wire)
    ensures |deliveries| == |filed| + |x.batch|
  {
    hide DueIds, OneServed, AttemptAt, OldestFirst, LeftOut, NotYounger, TookDue;
    var rows := deliveries[|filed|..];
    forall i | 0 <= i < |rows|
      ensures rows[i].eventId == x.batch[i].id
      ensures OneServed(publisher, snapshot, x.now, rows[i], |before| + i, wire[|before| + i])
    {
      RowServed(publisher, snapshot, x, i, rows[i], |before| + i, wire[|before| + i]);
    }
    forall i | |filed| <= i < |deliveries|
      ensures deliveries[i].eventId == x.batch[i - |filed|].id
      ensures OneServed(publisher, snapshot, x.now, deliveries[i], |before| + i - |filed|, wire[|before| + i - |filed|])
    {
      assert deliveries[i] == rows[i - |filed|];
    }
    forall i, id | |filed| <= i < |deliveries| && LeftOut(snapshot, x.now, rows, id)
      ensures NotYounger(snapshot, deliveries[i].eventId, id)
    {
      OlderServed(snapshot, x, rows, i - |filed|, id);
    }
  }

  lemma RowServed(
      publisher: Publisher, snapshot: map<Uuid, Event>, x: Worker, i: nat, d: Delivery, n: nat, p: Publication)
    requires i < |x.batch| && AttemptAt(publisher, x, i, d, n, p) && TookDue(snapshot, x) && x.trigger == ByRelay
    ensures d.eventId == x.batch[i].id && OneServed(publisher, snapshot, x.now, d, n, p)
  {
    hide DueIds;
  }

  lemma OlderServed(snapshot: map<Uuid, Event>, x: Worker, rows: seq<Delivery>, i: nat, id: Uuid)
    requires i < |x.batch| && |rows| == |x.batch|
    requires forall j :: 0 <= j < |rows| ==> rows[j].eventId == x.batch[j].id
    requires OldestFirst(snapshot, x) && TookDue(snapshot, x) && LeftOut(snapshot, x.now, rows, id)
    ensures NotYounger(snapshot, x.batch[i].id, id)
  {
    assert x.batch[i].id in DueIds(snapshot, x.now);
    assert !InBatch(x, id) by {
      assert forall j :: 0 <= j < |rows| ==> rows[j] in rows;
    }
  }

  /** With nothing due any more, every event that might have been tried has been. */
  lemma EverythingTried(before: seq<Action>, after: seq<Action>, now: int)
    requires before <= after && DueIds(Exec(START, after).events, now) == {}
    ensures var s, s' := Exec(START, before), Exec(START, after);
            forall id :: id in s.events && MayBeTried(History(s.deliveries, id), s.events[id].createdAt, now) ==>
              |History(s'.deliveries, id)| > |History(s.deliveries, id)|
  {
    hide Exec, MayBeTried, History;
    var events := Exec(START, after).events;
    forall id | id in Exec(START, before).events
        && MayBeTried(History(Exec(START, before).deliveries, id), Exec(START, before).events[id].createdAt, now)
      ensures |History(Exec(START, after).deliveries, id)| > |History(Exec(START, before).deliveries, id)|
    {
      assert id !in DueIds(events, now);
      TriedMeanwhile(before, after, id, now);
    }
  }

  /** No due event was passed over for a younger one. */
  ghost predicate OldestFirst(snapshot: map<Uuid, Event>, x: Worker) {
    forall i, id | 0 <= i < |x.batch| && x.batch[i].id in snapshot && id in DueIds(snapshot, x.now) && !InBatch(x, id) ::
      snapshot[x.batch[i].id].createdAt <= snapshot[id].createdAt
  }

  /** An undisturbed claim so far: the batch is the oldest part of the due events, todo is the rest. */
  ghost predicate TakenSoFar(snapshot: map<Uuid, Event>, x: Worker, locks: map<Uuid, nat>, todo: set<Uuid>) {
    && (forall id :: id in DueIds(snapshot, x.now) <==> InBatch(x, id) || id in todo)
    && (forall id :: id in locks <==> InBatch(x, id))
    && (forall id :: id in todo ==> !InBatch(x, id))
    && |x.batch| + |todo| == |DueIds(snapshot, x.now)|
    && (forall i, id :: 0 <= i < |x.batch| && id in todo && x.batch[i].id in snapshot && id in snapshot ==>
          snapshot[x.batch[i].id].createdAt <= snapshot[id].createdAt)
  }

  lemma TakenNothing(snapshot: map<Uuid, Event>, x: Worker)
    requires x.batch == []
    ensures TakenSoFar(snapshot, x, map[], DueIds(snapshot, x.now))
  {
  }

  lemma TakesOldest(snapshot: map<Uuid, Event>, x: Worker, locks: map<Uuid, nat>, todo: set<Uuid>, id: Uuid, w: nat)
    requires TakenSoFar(snapshot, x, locks, todo) && id in todo && todo <= DueIds(snapshot, x.now)
    requires forall k :: k in todo ==> snapshot[id].createdAt <= snapshot[k].createdAt
    ensures id !in locks && Due(snapshot[id], x.now)
    ensures TakenSoFar(snapshot, x.(batch := x.batch + [Claimed(id, snapshot[id])]), locks[id := w], todo - {id})
  {
    var y := x.(batch := x.batch + [Claimed(id, snapshot[id])]);
    ClaimGrows(x, y, Claimed(id, snapshot[id]));
    assert |todo - {id}| == |todo| - 1;
    assert Due(snapshot[id], x.now);
    hide InBatch, Due, DueIds;
  }

  lemma TakenAll(snapshot: map<Uuid, Event>, x: Worker, locks: map<Uuid, nat>, todo: set<Uuid>)
    requires TakenSoFar(snapshot, x, locks, todo) && |x.batch| <= x.limit
    requires todo == {} || |x.batch| >= x.limit
    ensures |x.batch| == Min(x.limit, |DueIds(snapshot, x.now)|)
    ensures OldestFirst(snapshot, x)
    ensures |x.batch| < x.limit ==> TookAll(snapshot, x)
    ensures TookDue(snapshot, x)
  {
    forall i | 0 <= i < |x.batch| ensures x.batch[i].id in DueIds(snapshot, x.now) {
      assert InBatch(x, x.batch[i].id);
    }
    hide InBatch, DueIds;
  }

  lemma Untouched(s: State, a: Action, w: nat)
    requires Actor(a) != Some(w) && w in s.workers
    ensures w in Step(s, a).workers && Step(s, a).workers[w] == s.workers[w]
  {
    hide Settle, Due, EnvelopeOf;
  }

  lemma ClaimGoes(s: State, w: nat, id: Uuid)
    requires In(s, w, Claiming) && |s.workers[w].batch| < s.workers[w].limit
    ensures var s' := Step(s, ClaimRow(w, id));
            && s'.events == s.events && s'.clock == s.clock && s'.wire == s.wire && s'.deliveries == s.deliveries
            && if id in s.events && id !in s.locks && Due(s.events[id], s.workers[w].now) then
                 && s'.locks == s.locks[id := w]
                 && s'.workers ==
                    s.workers[w := s.workers[w].(batch := s.workers[w].batch + [Claimed(id, s.events[id])])]
               else s' == s
  {
    hide Due;
  }

  lemma BatchBounds(schedule: seq<Action>, w: nat)
    requires w in Exec(START, schedule).workers
    ensures var s := Exec(START, schedule);
            var x := s.workers[w];
            && |x.rows| <= |x.batch|
            && forall i :: 0 <= i < |x.batch| ==> x.batch[i].id in s.events
  {
    AlwaysInv(schedule);
    WorkerHolds(Exec(START, schedule), w);
    hide Exec, Inv, AttemptOk, Attempted, Due;
  }

  lemma PublishGoes(s: State, w: nat, error: Option<string>)
    requires In(s, w, Publishing) && |s.workers[w].rows| < |s.workers[w].batch|
    requires s.workers[w].batch[|s.workers[w].rows|].id in s.events
    ensures var x, s' := s.workers[w], Step(s, Publish(w, error));
            var c := x.batch[|x.rows|];
            && w in s'.workers && SameClaims(x, s'.workers[w])
            && s'.workers[w].rows == x.rows + [DeliveryOf(c.id, error, x.trigger, x.now)]
            && s'.wire == s.wire + [Publication(EnvelopeOf(c.id, c.read), error.None?)]
            && s'.workers[w].updates == x.updates[c.id := Settle(s.events[c.id], c.read, error, x.now)]
            && s'.events == s.events && s'.clock == s.clock && s'.locks == s.locks && s'.deliveries == s.deliveries
  {
    hide Settle, EnvelopeOf;
  }

  lemma BeginGoes(s: State, w: nat, limit: nat)
    requires w !in s.workers
    ensures var s' := Step(s, BeginRelay(w, limit));
            && s'.workers == s.workers[w := Worker(ByRelay, s.clock, limit, Claiming, [], map[], [], [])]
            && s'.events == s.events && s'.locks == s.locks && s'.clock == s.clock
            && s'.wire == s.wire && s'.deliveries == s.deliveries
  {
  }

  lemma AbortGoes(s: State, w: nat)
    requires w in s.workers && s.workers[w].phase != Ended
    ensures var s' := Step(s, AbortWork(w));
            w in s'.workers && s'.workers[w].phase == Ended && s'.workers[w].batch == []
  {
  }

  lemma CloseGoes(s: State, w: nat)
    requires In(s, w, Claiming)
    ensures var s' := Step(s, CloseBatch(w));
            && w in s'.workers && s'.events == s.events && s'.clock == s.clock
            && s'.wire == s.wire && s'.deliveries == s.deliveries
            && if s.workers[w].batch == [] then
                 s'.workers[w].phase == Ended && s'.workers[w].batch == [] && (OnlyBy(s.locks, w) ==> s'.locks == map[])
               else s'.workers[w] == s.workers[w].(phase := Publishing) && s'.locks == s.locks
  {
  }
}
