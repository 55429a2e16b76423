/** Every action of relays, replays and the publisher keeps the delivery invariant. */
module OutboxSteps {
  import opened Wrappers
  import opened Ledger
  import opened Tables
  import opened Outbox
  import opened OutboxInv

  lemma Parts(s: State)
    requires Inv(s)
    ensures WorkersOk(s) && LocksOk(s) && HistoriesOk(s) && EnvelopesOk(s) && Accounted(s)
  {
    hide WorkersOk, LocksOk, HistoriesOk, EnvelopesOk, Accounted;
  }

  lemma WorkerHolds(s: State, w: nat)
    requires Inv(s) && w in s.workers
    ensures WorkerOk(s, w)
  {
    hide WorkerOk, LocksOk, HistoriesOk, EnvelopesOk, Accounted;
  }

  // ---------- workers ----------

  /** Nothing that a worker other than w has claimed or locked is touched. */
  ghost predicate SparesOthers(s: State, s': State, w: nat) {
    && (forall id :: id in s.locks && s.locks[id] != w && id in s.events ==> id in s'.events && s'.events[id] == s.events[id])
    && (forall v :: v in s'.workers && v != w ==> v in s.workers && s'.workers[v] == s.workers[v])
    && (forall id :: id in s.locks && s.locks[id] != w ==> id in s'.locks && s'.locks[id] == s.locks[id])
  }

  lemma OthersOk(s: State, s': State, w: nat)
    requires WorkersOk(s) && SparesOthers(s, s', w)
    requires w in s'.workers ==> WorkerOk(s', w)
    ensures WorkersOk(s')
  {
    forall v | v in s'.workers ensures WorkerOk(s', v) {
      if v != w {
        OtherOk(s, s', w, v);
      }
    }
    hide WorkerOk;
  }

  lemma OtherOk(s: State, s': State, w: nat, v: nat)
    requires WorkersOk(s) && SparesOthers(s, s', w) && v in s'.workers && v != w
    ensures WorkerOk(s', v)
  {
    hide AttemptsOk, Due;
    assert WorkerOk(s, v);
  }

  lemma LocksStayHeld(s: State, s': State, w: nat)
    requires LocksOk(s)
    requires forall v :: v in s.workers && v != w ==> v in s'.workers && s'.workers[v] == s.workers[v]
    requires forall id :: id in s'.locks && s'.locks[id] != w ==> id in s.locks && s.locks[id] == s'.locks[id]
    requires forall id :: id in s'.locks && s'.locks[id] == w ==> w in s'.workers && InBatch(s'.workers[w], id)
    ensures LocksOk(s')
  {
    hide InBatch;
  }

  // ---------- tables and accounting that a step leaves alone ----------

  lemma SameTables(s: State, s': State)
    requires HistoriesOk(s) && EnvelopesOk(s)
    requires s'.events == s.events && s'.deliveries == s.deliveries && s'.wire == s.wire
    ensures HistoriesOk(s') && EnvelopesOk(s')
  {
    hide ToldByHistory, RelayWaits;
  }

  lemma SameAccounts(s: State, s': State)
    requires Accounted(s)
    requires s'.deliveries == s.deliveries && s'.wire == s.wire && s'.orphaned == s.orphaned
    requires forall id :: InFlight(s', id) == InFlight(s, id)
    ensures Accounted(s')
  {
    hide InFlight, History, Accepted, Successes;
    forall id ensures Accepted(s'.wire, id)
      == Successes(History(s'.deliveries, id)) + Accepted(s'.orphaned, id) + InFlight(s', id)
    {
      assert InFlight(s', id) == InFlight(s, id);
    }
  }

  /** A worker that has published nothing contributes nothing to what is in flight. */
  lemma QuietInFlight(s: State, s': State, w: nat)
    requires w in s'.workers && s'.workers == s.workers[w := s'.workers[w]]
    requires s'.workers[w].sent == [] && (w in s.workers ==> s.workers[w].sent == [])
    requires forall id :: id in s.locks && s.locks[id] != w <==> id in s'.locks && s'.locks[id] != w
    requires forall id :: id in s.locks && s.locks[id] != w ==> s'.locks[id] == s.locks[id]
    requires w !in s.workers ==> forall id :: id in s.locks ==> s.locks[id] != w
    ensures forall id :: InFlight(s', id) == InFlight(s, id)
  {
  }

  lemma InsertKeeps(s: State, id: Uuid, row: EventRow, createdAt: int)
    requires Inv(s)
    ensures Inv(Step(s, Insert(id, row, createdAt)))
  {
    hide Inv, WorkersOk, LocksOk, HistoriesOk, EnvelopesOk, Accounted, InFlight;
    var s' := Step(s, Insert(id, row, createdAt));
    Parts(s);
    if s' != s {
      InsertSpares(s, s', id);
      InsertTables(s, s', id, row, createdAt);
      SameFlights(s, s');
      SameAccounts(s, s');
      Assemble(s');
    }
  }

  lemma SameFlights(s: State, s': State)
    requires s'.locks == s.locks && s'.workers == s.workers
    ensures forall id :: InFlight(s', id) == InFlight(s, id)
  {
  }

  lemma InsertSpares(s: State, s': State, id: Uuid)
    requires WorkersOk(s) && LocksOk(s) && id !in s.events
    requires id in s'.events && s' == s.(events := s.events[id := s'.events[id]])
    ensures WorkersOk(s') && LocksOk(s')
  {
    hide AttemptsOk, Due, InBatch;
    forall w | w in s'.workers ensures WorkerOk(s', w) { assert WorkerOk(s, w); }
  }

  lemma InsertTables(s: State, s': State, id: Uuid, row: EventRow, createdAt: int)
    requires HistoriesOk(s) && EnvelopesOk(s) && id !in s.events
    requires s' == s.(events := s.events[id := NewEvent(row, createdAt)])
    ensures HistoriesOk(s') && EnvelopesOk(s')
  {
    NewEventTold(row, createdAt);
    hide ToldByHistory, RelayWaits, NewEvent, History;
    NoHistory(s.deliveries, id);
    forall p | p in s'.wire
      ensures p.envelope.eventId in s'.events
      ensures p.envelope == EnvelopeOf(p.envelope.eventId, s'.events[p.envelope.eventId])
    {
      assert p in s.wire;
    }
    forall e | e in s'.events
      ensures ToldByHistory(s'.events[e], History(s'.deliveries, e)) && RelayWaits(History(s'.deliveries, e))
    {
      assert e != id ==> e in s.events && s'.events[e] == s.events[e];
    }
  }

  lemma NewEventTold(row: EventRow, createdAt: int)
    ensures ToldByHistory(NewEvent(row, createdAt), []) && RelayWaits([])
  {
  }

  lemma Assemble(s: State)
    requires WorkersOk(s) && LocksOk(s) && HistoriesOk(s) && EnvelopesOk(s) && Accounted(s)
    ensures Inv(s)
  {
    hide WorkersOk, LocksOk, HistoriesOk, EnvelopesOk, Accounted;
  }

  lemma NewWorkerOk(s: State, w: nat)
    requires w in s.workers
    requires var x := s.workers[w];
             && x.batch == [] && x.rows == [] && x.sent == [] && x.updates == map[] && !x.phase.Publishing?
             && (x.phase.Waiting? ==> x.trigger == ByReplay)
    ensures WorkerOk(s, w)
  {
  }

  lemma NobodysLocks(s: State, w: nat)
    requires LocksOk(s) && w !in s.workers
    ensures forall id :: id in s.locks ==> s.locks[id] != w
  {
    hide InBatch;
  }

  lemma BeginKeeps(s: State, w: nat, trigger: Trigger, limit: nat, phase: Phase)
    requires Inv(s) && (phase.Claiming? || (phase.Waiting? && trigger == ByReplay))
    ensures Inv(Begin(s, w, trigger, limit, phase))
  {
    hide Inv, WorkersOk, LocksOk, HistoriesOk, EnvelopesOk, Accounted, InFlight, WorkerOk;
    var s' := Begin(s, w, trigger, limit, phase);
    Parts(s);
    if s' != s {
      NobodysLocks(s, w);
      NewWorkerOk(s', w);
      OthersOk(s, s', w);
      LocksStayHeld(s, s', w);
      SameTables(s, s');
      QuietInFlight(s, s', w);
      SameAccounts(s, s');
      Assemble(s');
    }
  }

  lemma StopKeeps(s: State, w: nat)
    requires Inv(s) && w in s.workers && s.workers[w].sent == []
    ensures Inv(Stop(s, w))
  {
    hide Inv, WorkersOk, LocksOk, HistoriesOk, EnvelopesOk, Accounted, InFlight, WorkerOk;
    var s' := Stop(s, w);
    Parts(s);
    NewWorkerOk(s', w);
    OthersOk(s, s', w);
    LocksStayHeld(s, s', w);
    SameTables(s, s');
    QuietInFlight(s, s', w);
    SameAccounts(s, s');
    Assemble(s');
  }

  lemma ClaimGrows(x: Worker, y: Worker, c: Claimed)
    requires y.batch == x.batch + [c]
    ensures forall id :: InBatch(x, id) || id == c.id <==> InBatch(y, id)
  {
    forall id ensures InBatch(x, id) || id == c.id <==> InBatch(y, id) {
      if InBatch(x, id) {
        var i :| 0 <= i < |x.batch| && x.batch[i].id == id;
        assert y.batch[i].id == id;
      }
      if id == c.id {
        assert y.batch[|x.batch|].id == id;
      }
    }
  }

  /** Taking one free row into the batch, before anything is published. */
  lemma TakeKeeps(s: State, s': State, w: nat, id: Uuid)
    requires Inv(s) && w in s.workers && s.workers[w].rows == [] && id in s.events && id !in s.locks
    requires s.workers[w].trigger == ByRelay ==> Due(s.events[id], s.workers[w].now)
    requires s'.workers.Keys == s.workers.Keys
    requires var x := s.workers[w];
             && s'.workers[w] == x.(batch := x.batch + [Claimed(id, s.events[id])], phase := s'.workers[w].phase)
             && (s'.workers[w].phase == Claiming || s'.workers[w].phase == Publishing)
    requires s' == s.(workers := s.workers[w := s'.workers[w]], locks := s.locks[id := w])
    ensures Inv(s')
  {
    hide Inv, WorkersOk, LocksOk, HistoriesOk, EnvelopesOk, Accounted, InFlight, WorkerOk, InBatch, Due;
    var x, x' := s.workers[w], s'.workers[w];
    Parts(s);
    WorkerHolds(s, w);
    NothingSent(s, w);
    ClaimGrows(x, x', Claimed(id, s.events[id]));
    BatchHeld(s, w, s'.workers[w], id);
    TakenWorkerOk(s, s', w, id);
    OthersOk(s, s', w);
    LocksStayHeld(s, s', w);
    SameTables(s, s');
    QuietInFlight(s, s', w);
    SameAccounts(s, s');
    Assemble(s');
  }

  lemma NothingSent(s: State, w: nat)
    requires w in s.workers && WorkerOk(s, w) && s.workers[w].rows == []
    ensures s.workers[w].sent == []
  {
    hide BatchOk;
  }

  lemma BatchHeld(s: State, w: nat, y: Worker, id: Uuid)
    requires LocksOk(s) && w in s.workers
    requires forall k :: InBatch(s.workers[w], k) || k == id <==> InBatch(y, k)
    ensures InBatch(y, id) && forall k :: k in s.locks && s.locks[k] == w ==> InBatch(y, k)
  {
    hide InBatch;
  }

  lemma TakenWorkerOk(s: State, s': State, w: nat, id: Uuid)
    requires w in s.workers && WorkerOk(s, w) && s.workers[w].rows == [] && id in s.events && id !in s.locks
    requires s.workers[w].trigger == ByRelay ==> Due(s.events[id], s.workers[w].now)
    requires w in s'.workers
    requires var x := s.workers[w];
             && s'.workers[w] == x.(batch := x.batch + [Claimed(id, s.events[id])], phase := s'.workers[w].phase)
             && (s'.workers[w].phase == Claiming || s'.workers[w].phase == Publishing)
    requires s'.events == s.events && s'.locks == s.locks[id := w]
    ensures WorkerOk(s', w)
  {
    hide Due;
  }

  lemma ClaimRowKeeps(s: State, w: nat, id: Uuid)
    requires Inv(s) && In(s, w, Claiming)
    ensures Inv(DoClaimRow(s, w, id))
  {
    hide Inv, Due, WorkerOk;
    var s' := DoClaimRow(s, w, id);
    if s' != s {
      WorkerHolds(s, w);
      NoRowsYet(s, w);
      TakeKeeps(s, s', w, id);
    }
  }

  lemma NoRowsYet(s: State, w: nat)
    requires w in s.workers && WorkerOk(s, w) && !s.workers[w].phase.Publishing?
    ensures s.workers[w].rows == [] && s.workers[w].sent == []
    ensures s.workers[w].phase.Waiting? ==> s.workers[w].batch == [] && s.workers[w].trigger == ByReplay
  {
    hide BatchOk;
  }

  lemma ClaimReplayKeeps(s: State, w: nat)
    requires Inv(s) && w in s.workers && s.workers[w].phase.Waiting?
    ensures Inv(DoClaimReplay(s, w))
  {
    hide Inv, WorkerOk;
    var s' := DoClaimReplay(s, w);
    WorkerHolds(s, w);
    NoRowsYet(s, w);
    if s.workers[w].phase.id !in s.events {
      StopKeeps(s, w);
    } else if s' != s {
      TakeKeeps(s, s', w, s.workers[w].phase.id);
    }
  }

  lemma CloseBatchKeeps(s: State, w: nat)
    requires Inv(s) && In(s, w, Claiming)
    ensures Inv(DoCloseBatch(s, w))
  {
    hide Inv, WorkersOk, LocksOk, HistoriesOk, EnvelopesOk, Accounted, InFlight, WorkerOk, InBatch;
    var s' := DoCloseBatch(s, w);
    WorkerHolds(s, w);
    NoRowsYet(s, w);
    if s.workers[w].batch == [] {
      StopKeeps(s, w);
    } else {
      Parts(s);
      ClosedWorkerOk(s, s', w);
      OthersOk(s, s', w);
      SameBatch(s, w, s'.workers[w]);
      LocksStayHeld(s, s', w);
      SameTables(s, s');
      QuietInFlight(s, s', w);
      SameAccounts(s, s');
      Assemble(s');
    }
  }

  lemma ClosedWorkerOk(s: State, s': State, w: nat)
    requires In(s, w, Claiming) && WorkerOk(s, w)
    requires s' == Put(s, w, s.workers[w].(phase := Publishing))
    ensures WorkerOk(s', w)
  {
    hide Due;
  }

  lemma SameBatch(s: State, w: nat, y: Worker)
    requires LocksOk(s) && w in s.workers && y.batch == s.workers[w].batch
    ensures forall k :: k in s.locks && s.locks[k] == w ==> InBatch(y, k)
  {
    forall k ensures InBatch(y, k) == InBatch(s.workers[w], k) {}
    hide InBatch;
  }

  // ---------- publishing ----------

  lemma PublishWorker(s: State, w: nat, error: Option<string>)
    requires In(s, w, Publishing) && WorkerOk(s, w)
    ensures WorkerOk(DoPublish(s, w, error), w)
  {
    var s' := DoPublish(s, w, error);
    if s' != s {
      PublishAttempts(s, w, error);
      hide AttemptsOk, Due;
    }
  }

  lemma PublishAttempts(s: State, w: nat, error: Option<string>)
    requires In(s, w, Publishing) && WorkerOk(s, w) && DoPublish(s, w, error) != s
    ensures AttemptsOk(DoPublish(s, w, error).workers[w])
  {
    var x, x' := s.workers[w], DoPublish(s, w, error).workers[w];
    var n := |x.rows|;
    hide Due, Settle, EnvelopeOf;
    assert forall i :: 0 <= i < n ==> x.batch[i].id != x.batch[n].id;
    assert s.events[x.batch[n].id] == x.batch[n].read;
    hide BatchOk;
    forall i | 0 <= i < |x'.rows| ensures AttemptOk(x', i) {
      if i < n {
        assert AttemptOk(x, i);
      }
    }
    hide AttemptOk;
    forall id | id in x'.updates ensures Attempted(x', id) {
      if id == x.batch[n].id {
        assert x'.batch[n].id == id;
      } else {
        assert Attempted(x, id);
      }
    }
  }

  lemma PublishAccounts(s: State, w: nat, error: Option<string>, id: Uuid)
    requires In(s, w, Publishing) && WorkerOk(s, w)
    requires DoPublish(s, w, error) != s
    ensures var s' := DoPublish(s, w, error);
            Accepted(s'.wire, id) - Accepted(s.wire, id) == InFlight(s', id) - InFlight(s, id)
  {
    var x, y := s.workers[w], DoPublish(s, w, error).workers[w];
    var c := x.batch[|x.rows|];
    var p := Publication(EnvelopeOf(c.id, c.read), error.None?);
    assert c.id in s.locks && s.locks[c.id] == w;
    hide WorkerOk, Settle;
    var s' := DoPublish(s, w, error);
    assert s'.wire == s.wire + [p] && y.sent == x.sent + [p] && s'.locks == s.locks && s'.workers == s.workers[w := y];
    hide DoPublish;
    AcceptedConcat(s.wire, [p], id);
    AcceptedConcat(x.sent, [p], id);
    OneAccepted(p, id);
    hide Accepted, EnvelopeOf;
    assert id in s.locks && s.locks[id] == w ==> InFlight(s', id) - InFlight(s, id) == Accepted([p], id);
    assert !(id in s.locks && s.locks[id] == w) ==> InFlight(s', id) == InFlight(s, id) && c.id != id;
  }

  lemma OneAccepted(p: Publication, id: Uuid)
    ensures Accepted([p], id) == if p.accepted && p.envelope.eventId == id then 1 else 0
  {
    assert [p][..0] == [];
  }

  lemma PublishKeeps(s: State, w: nat, error: Option<string>)
    requires Inv(s) && In(s, w, Publishing)
    ensures Inv(DoPublish(s, w, error))
  {
    hide Inv, WorkersOk, LocksOk, HistoriesOk, EnvelopesOk, Accounted, InFlight, WorkerOk, InBatch, Settle;
    var s' := DoPublish(s, w, error);
    if s' != s {
      Parts(s);
      WorkerHolds(s, w);
      PublishWorker(s, w, error);
      OthersOk(s, s', w);
      SameBatch(s, w, s'.workers[w]);
      LocksStayHeld(s, s', w);
      PublishTables(s, w, error);
      PublishAccounted(s, w, error);
      Assemble(s');
    }
  }

  lemma PublishTables(s: State, w: nat, error: Option<string>)
    requires HistoriesOk(s) && EnvelopesOk(s)
    requires In(s, w, Publishing) && WorkerOk(s, w) && DoPublish(s, w, error) != s
    ensures HistoriesOk(DoPublish(s, w, error)) && EnvelopesOk(DoPublish(s, w, error))
  {
    hide ToldByHistory, RelayWaits, Settle, Due, AttemptsOk;
    var s' := DoPublish(s, w, error);
    var c := s.workers[w].batch[|s.workers[w].rows|];
    assert s.events[c.id] == c.read;
    hide WorkerOk;
    forall p <- s'.wire
      ensures p.envelope.eventId in s.events && p.envelope == EnvelopeOf(p.envelope.eventId, s.events[p.envelope.eventId])
    {
      if p in s.wire {
      } else {
        assert p.envelope == EnvelopeOf(c.id, c.read);
      }
    }
  }

  lemma PublishAccounted(s: State, w: nat, error: Option<string>)
    requires Accounted(s) && In(s, w, Publishing) && WorkerOk(s, w) && DoPublish(s, w, error) != s
    ensures Accounted(DoPublish(s, w, error))
  {
    var s' := DoPublish(s, w, error);
    assert s'.deliveries == s.deliveries && s'.orphaned == s.orphaned;
    hide WorkerOk, DoPublish, InFlight, Accepted, History, Successes;
    forall id ensures Accepted(s'.wire, id)
      == Successes(History(s'.deliveries, id)) + Accepted(s'.orphaned, id) + InFlight(s', id)
    {
      PublishAccounts(s, w, error, id);
      assert Accepted(s.wire, id) == Successes(History(s.deliveries, id)) + Accepted(s.orphaned, id) + InFlight(s, id);
    }
  }
}
