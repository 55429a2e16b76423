/** How a delivery transaction ends: its attempts become history together, or are orphaned together. */
module OutboxCommit {
  import opened Ledger
  import opened Outbox
  import opened OutboxInv
  import opened OutboxSteps

  /** The whole batch has been attempted. */
  predicate Finished(s: State, w: nat) {
    In(s, w, Publishing) && |s.workers[w].rows| >= |s.workers[w].batch|
  }

  /** The tables after a commit, one event at a time. */
  lemma CommitRow(s: State, w: nat, i: nat)
    requires Finished(s, w) && WorkerOk(s, w) && i < |s.workers[w].batch|
    ensures var x := s.workers[w];
            var s' := DoCommit(s, w);
            var id := x.batch[i].id;
            && i < |x.rows| && id in s.events && id in s'.events
            && s'.events[id] == Settle(s.events[id], s.events[id], x.rows[i].error, x.now)
            && History(s'.deliveries, id) == History(s.deliveries, id) + [x.rows[i]]
  {
    var x := s.workers[w];
    assert AttemptOk(x, i);
    hide Settle, Due;
    forall j, k | 0 <= j < k < |x.rows| ensures x.rows[j].eventId != x.rows[k].eventId {
      assert AttemptOk(x, j) && AttemptOk(x, k);
    }
    HistoryConcat(s.deliveries, x.rows, x.batch[i].id);
    OwnRow(x.rows, i);
  }

  lemma CommitOther(s: State, w: nat, id: Uuid)
    requires Finished(s, w) && WorkerOk(s, w) && !InBatch(s.workers[w], id)
    ensures var s' := DoCommit(s, w);
            && (id in s'.events <==> id in s.events)
            && (id in s.events ==> s'.events[id] == s.events[id])
            && History(s'.deliveries, id) == History(s.deliveries, id)
  {
    var x := s.workers[w];
    hide Settle, Due, BatchOk;
    forall i | 0 <= i < |x.rows| ensures x.rows[i].eventId != id {
      assert AttemptOk(x, i);
    }
    HistoryConcat(s.deliveries, x.rows, id);
    NoHistory(x.rows, id);
    assert id in x.updates ==> Attempted(x, id);
  }

  lemma CommitStory(s: State, w: nat, id: Uuid)
    requires Finished(s, w) && WorkerOk(s, w) && id in s.events
    requires ToldByHistory(s.events[id], History(s.deliveries, id)) && RelayWaits(History(s.deliveries, id))
    ensures var s' := DoCommit(s, w);
            && id in s'.events
            && ToldByHistory(s'.events[id], History(s'.deliveries, id))
            && RelayWaits(History(s'.deliveries, id))
            && EnvelopeOf(id, s'.events[id]) == EnvelopeOf(id, s.events[id])
  {
    var x := s.workers[w];
    if InBatch(x, id) {
      var i :| 0 <= i < |x.batch| && x.batch[i].id == id;
      CommitRow(s, w, i);
      RowFacts(s, w, i);
      hide WorkerOk, DoCommit, Due;
      AttemptExtendsHistory(s.events[id], History(s.deliveries, id), x.rows[i].error, x.rows[i]);
      AttemptWaits(s.events[id], History(s.deliveries, id), x.rows[i]);
    } else {
      CommitOther(s, w, id);
    }
  }

  lemma RowFacts(s: State, w: nat, i: nat)
    requires Finished(s, w) && WorkerOk(s, w) && i < |s.workers[w].batch|
    ensures var x := s.workers[w];
            && i < |x.rows| && x.batch[i].id in s.events
            && x.rows[i].at == x.now
            && x.rows[i].succeeded == x.rows[i].error.None?
            && (x.rows[i].trigger == ByRelay ==> Due(s.events[x.batch[i].id], x.now))
  {
    assert AttemptOk(s.workers[w], i);
    hide Due;
  }

  lemma CommitHistories(s: State, w: nat)
    requires Finished(s, w) && WorkerOk(s, w) && HistoriesOk(s)
    ensures HistoriesOk(DoCommit(s, w))
  {
    hide WorkerOk, DoCommit, ToldByHistory, RelayWaits, EnvelopeOf;
    CommitKeys(s, w);
    var s' := DoCommit(s, w);
    forall id | id in s'.events
      ensures ToldByHistory(s'.events[id], History(s'.deliveries, id)) && RelayWaits(History(s'.deliveries, id))
    {
      CommitStory(s, w, id);
    }
  }

  lemma CommitEnvelopes(s: State, w: nat)
    requires Finished(s, w) && WorkerOk(s, w) && HistoriesOk(s) && EnvelopesOk(s)
    ensures EnvelopesOk(DoCommit(s, w))
  {
    hide WorkerOk, DoCommit, ToldByHistory, RelayWaits, EnvelopeOf;
    CommitKeys(s, w);
    var s' := DoCommit(s, w);
    forall p <- s'.wire
      ensures p.envelope.eventId in s'.events
           && p.envelope == EnvelopeOf(p.envelope.eventId, s'.events[p.envelope.eventId])
    {
      CommitStory(s, w, p.envelope.eventId);
    }
  }

  lemma CommitKeys(s: State, w: nat)
    requires Finished(s, w) && WorkerOk(s, w)
    requires forall d <- s.deliveries :: d.eventId in s.events
    ensures var s' := DoCommit(s, w);
            && s'.events.Keys == s.events.Keys && s'.wire == s.wire && s'.orphaned == s.orphaned
            && forall d <- s'.deliveries :: d.eventId in s'.events
  {
    var x := s.workers[w];
    hide Settle, Due;
    forall id | id in x.updates ensures id in s.events {
      assert Attempted(x, id);
    }
    forall d <- x.rows ensures d.eventId in s.events {
      var i :| 0 <= i < |x.rows| && x.rows[i] == d;
      assert AttemptOk(x, i);
    }
  }

  lemma {:induction false} NoneAccepted(ps: seq<Publication>, id: Uuid)
    requires forall i :: 0 <= i < |ps| ==> ps[i].envelope.eventId != id
    ensures Accepted(ps, id) == 0
  {
    if ps == [] {
    } else {
      NoneAccepted(ps[..|ps| - 1], id);
    }
  }

  /** When a transaction ends, exactly its own accepted publications leave the in-flight account. */
  lemma FlightsEnd(s: State, w: nat, id: Uuid)
    requires w in s.workers && WorkerOk(s, w) && LocksOk(s)
    ensures InFlight(s, id) == InFlight(Stop(s, w), id) + Accepted(s.workers[w].sent, id)
  {
    var x := s.workers[w];
    if id in s.locks && s.locks[id] == w {
    } else {
      forall i | 0 <= i < |x.sent| ensures x.sent[i].envelope.eventId != id {
        assert AttemptOk(x, i);
        assert s.locks[x.batch[i].id] == w;
      }
      NoneAccepted(x.sent, id);
      hide WorkerOk, InBatch;
    }
  }

  lemma CommitAccounts(s: State, w: nat, id: Uuid)
    requires Finished(s, w) && WorkerOk(s, w) && LocksOk(s)
    ensures var s' := DoCommit(s, w);
            Successes(History(s'.deliveries, id)) + InFlight(s', id)
              == Successes(History(s.deliveries, id)) + InFlight(s, id)
  {
    var x := s.workers[w];
    FlightsEnd(s, w, id);
    forall i | 0 <= i < |x.rows|
      ensures x.sent[i].envelope.eventId == x.rows[i].eventId && x.sent[i].accepted == x.rows[i].succeeded
    {
      assert AttemptOk(x, i);
    }
    SentMatchesRows(x.rows, x.sent, id);
    hide WorkerOk, LocksOk;
    HistoryConcat(s.deliveries, x.rows, id);
    SuccessesConcat(History(s.deliveries, id), History(x.rows, id));
    assert InFlight(DoCommit(s, w), id) == InFlight(Stop(s, w), id);
  }

  lemma CommitAccounted(s: State, w: nat)
    requires Finished(s, w) && WorkerOk(s, w) && LocksOk(s) && Accounted(s)
    ensures Accounted(DoCommit(s, w))
  {
    var s' := DoCommit(s, w);
    assert s'.wire == s.wire && s'.orphaned == s.orphaned;
    hide WorkerOk, LocksOk, DoCommit, InFlight, Accepted, History, Successes;
    forall id ensures Accepted(s'.wire, id)
      == Successes(History(s'.deliveries, id)) + Accepted(s'.orphaned, id) + InFlight(s', id)
    {
      CommitAccounts(s, w, id);
      assert Accepted(s.wire, id) == Successes(History(s.deliveries, id)) + Accepted(s.orphaned, id) + InFlight(s, id);
    }
  }

  /** The committed rows were locked by the committer, so nobody else's claim is invalidated. */
  lemma CommitSpares(s: State, w: nat)
    requires Finished(s, w) && WorkerOk(s, w)
    ensures SparesOthers(s, DoCommit(s, w), w)
  {
    var x := s.workers[w];
    hide Settle, Due;
    forall id | id in s.locks && s.locks[id] != w ensures id !in x.updates {
      assert id in x.updates ==> Attempted(x, id);
    }
    hide WorkerOk;
  }

  lemma CommitKeeps(s: State, w: nat)
    requires Inv(s) && Finished(s, w)
    ensures Inv(DoCommit(s, w))
  {
    hide Inv, WorkersOk, LocksOk, HistoriesOk, EnvelopesOk, Accounted, WorkerOk, SparesOthers;
    var s' := DoCommit(s, w);
    Parts(s);
    WorkerHolds(s, w);
    CommitSpares(s, w);
    NewWorkerOk(s', w);
    OthersOk(s, s', w);
    LocksStayHeld(s, s', w);
    CommitHistories(s, w);
    CommitEnvelopes(s, w);
    CommitAccounted(s, w);
    Assemble(s');
  }

  lemma AbortAccounted(s: State, w: nat)
    requires w in s.workers && WorkerOk(s, w) && LocksOk(s) && Accounted(s)
    ensures Accounted(DoAbort(s, w))
  {
    var s' := DoAbort(s, w);
    var x := s.workers[w];
    hide WorkerOk, LocksOk;
    forall id ensures Accepted(s'.wire, id)
      == Successes(History(s'.deliveries, id)) + Accepted(s'.orphaned, id) + InFlight(s', id)
    {
      FlightsEnd(s, w, id);
      AcceptedConcat(s.orphaned, x.sent, id);
      assert InFlight(s', id) == InFlight(Stop(s, w), id);
      assert Accepted(s.wire, id) == Successes(History(s.deliveries, id)) + Accepted(s.orphaned, id) + InFlight(s, id);
      hide InFlight;
    }
  }

  /** A crash after publishing leaves every event, delivery and other worker as it was. */
  lemma AbortKeeps(s: State, w: nat)
    requires Inv(s) && w in s.workers
    ensures Inv(DoAbort(s, w))
  {
    hide Inv, WorkersOk, LocksOk, HistoriesOk, EnvelopesOk, Accounted, WorkerOk;
    var s' := DoAbort(s, w);
    Parts(s);
    WorkerHolds(s, w);
    NewWorkerOk(s', w);
    OthersOk(s, s', w);
    LocksStayHeld(s, s', w);
    SameTables(s, s');
    AbortAccounted(s, w);
    Assemble(s');
  }
}
