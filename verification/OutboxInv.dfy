/** What every reachable state of the delivery machine satisfies, and why each step keeps it. */
module OutboxInv {
  import opened Wrappers
  import opened Ledger
  import opened Retry
  import opened Outbox

  ghost predicate InBatch(x: Worker, id: Uuid) {
    exists i :: 0 <= i < |x.batch| && x.batch[i].id == id
  }

  /** Claimed rows are distinct, locked by this worker, and still as they were read. */
  ghost predicate BatchOk(s: State, w: nat)
    requires w in s.workers
  {
    var x := s.workers[w];
    && (forall i, j :: 0 <= i < j < |x.batch| ==> x.batch[i].id != x.batch[j].id)
    && (forall i :: 0 <= i < |x.batch| ==>
      && x.batch[i].id in s.events
      && s.events[x.batch[i].id] == x.batch[i].read
      && x.batch[i].id in s.locks && s.locks[x.batch[i].id] == w
      && (x.trigger == ByRelay ==> Due(x.batch[i].read, x.now)))
  }

  /** Attempt i: its publication, its delivery row and the private update of the event. */
  ghost predicate AttemptOk(x: Worker, i: nat)
    requires i < |x.rows| && i < |x.sent| && i < |x.batch|
  {
    && x.rows[i].eventId == x.batch[i].id
    && x.rows[i].at == x.now
    && x.rows[i].trigger == x.trigger
    && x.rows[i].succeeded == x.rows[i].error.None?
    && x.sent[i] == Publication(EnvelopeOf(x.batch[i].id, x.batch[i].read), x.rows[i].succeeded)
    && x.batch[i].id in x.updates
    && x.updates[x.batch[i].id] == Settle(x.batch[i].read, x.batch[i].read, x.rows[i].error, x.now)
  }

  ghost predicate Attempted(x: Worker, id: Uuid) {
    exists i :: 0 <= i < |x.rows| && i < |x.batch| && x.batch[i].id == id
  }

  /** The attempts made so far, and no private update besides theirs. */
  ghost predicate AttemptsOk(x: Worker) {
    && |x.rows| == |x.sent| <= |x.batch|
    && (forall i :: 0 <= i < |x.rows| ==> AttemptOk(x, i))
    && (forall id :: id in x.updates ==> Attempted(x, id))
  }

  ghost predicate WorkerOk(s: State, w: nat)
    requires w in s.workers
  {
    var x := s.workers[w];
    && BatchOk(s, w)
    && AttemptsOk(x)
    && (x.phase.Ended? || x.phase.Waiting? ==> x.batch == [])
    && (!x.phase.Publishing? ==> x.rows == [])
    && (x.phase.Waiting? ==> x.trigger == ByReplay)
  }

  ghost predicate WorkersOk(s: State) {
    forall w :: w in s.workers ==> WorkerOk(s, w)
  }

  /** A locked row is in its holder's batch. */
  ghost predicate LocksOk(s: State) {
    forall id :: id in s.locks ==> s.locks[id] in s.workers && InBatch(s.workers[s.locks[id]], id)
  }

  ghost predicate HistoriesOk(s: State) {
    && (forall d <- s.deliveries :: d.eventId in s.events)
    && (forall id :: id in s.events ==>
      && ToldByHistory(s.events[id], History(s.deliveries, id))
      && RelayWaits(History(s.deliveries, id)))
  }

  /** Every publication of an event, by whomever, carried the same envelope. */
  ghost predicate EnvelopesOk(s: State) {
    forall p <- s.wire :: p.envelope.eventId in s.events
                       && p.envelope == EnvelopeOf(p.envelope.eventId, s.events[p.envelope.eventId])
  }

  /** Accepted publications are recorded, orphaned by an abort, or still in flight: none is forgotten. */
  ghost predicate Accounted(s: State) {
    forall id :: Accepted(s.wire, id)
      == Successes(History(s.deliveries, id)) + Accepted(s.orphaned, id) + InFlight(s, id)
  }

  ghost predicate Inv(s: State) {
    WorkersOk(s) && LocksOk(s) && HistoriesOk(s) && EnvelopesOk(s) && Accounted(s)
  }

  // ---------- sequences ----------

  lemma {:induction false} HistoryConcat(xs: seq<Delivery>, ys: seq<Delivery>, id: Uuid)
    ensures History(xs + ys, id) == History(xs, id) + History(ys, id)
  {
    if ys == [] {
      assert xs + ys == xs;
    } else {
      HistoryConcat(xs, ys[..|ys| - 1], id);
      assert (xs + ys)[..|xs + ys| - 1] == xs + ys[..|ys| - 1];
    }
  }

  lemma {:induction false} AcceptedConcat(xs: seq<Publication>, ys: seq<Publication>, id: Uuid)
    ensures Accepted(xs + ys, id) == Accepted(xs, id) + Accepted(ys, id)
  {
    if ys == [] {
      assert xs + ys == xs;
    } else {
      AcceptedConcat(xs, ys[..|ys| - 1], id);
      assert (xs + ys)[..|xs + ys| - 1] == xs + ys[..|ys| - 1];
    }
  }

  lemma {:induction false} SuccessesConcat(xs: seq<Delivery>, ys: seq<Delivery>)
    ensures Successes(xs + ys) == Successes(xs) + Successes(ys)
  {
    if ys == [] {
      assert xs + ys == xs;
    } else {
      SuccessesConcat(xs, ys[..|ys| - 1]);
      assert (xs + ys)[..|xs + ys| - 1] == xs + ys[..|ys| - 1];
    }
  }

  lemma {:induction false} NoHistory(ds: seq<Delivery>, id: Uuid)
    requires forall i :: 0 <= i < |ds| ==> ds[i].eventId != id
    ensures History(ds, id) == []
  {
    if ds == [] {
    } else {
      NoHistory(ds[..|ds| - 1], id);
    }
  }

  /** In a batch of distinct events, each event gets exactly its own row. */
  lemma {:induction false} OwnRow(ds: seq<Delivery>, i: nat)
    requires i < |ds|
    requires forall j, k :: 0 <= j < k < |ds| ==> ds[j].eventId != ds[k].eventId
    ensures History(ds, ds[i].eventId) == [ds[i]]
  {
    var init := ds[..|ds| - 1];
    if i == |ds| - 1 {
      NoHistory(init, ds[i].eventId);
    } else {
      OwnRow(init, i);
    }
  }

  /** Publications and delivery rows are written in step. */
  lemma {:induction false} SentMatchesRows(rows: seq<Delivery>, sent: seq<Publication>, id: Uuid)
    requires |rows| == |sent|
    requires forall i :: 0 <= i < |rows| ==>
      sent[i].envelope.eventId == rows[i].eventId && sent[i].accepted == rows[i].succeeded
    ensures Accepted(sent, id) == Successes(History(rows, id))
  {
    if rows == [] {
    } else {
      var n := |rows| - 1;
      SentMatchesRows(rows[..n], sent[..n], id);
      var tail := if rows[n].eventId == id then [rows[n]] else [];
      assert History(rows, id) == History(rows[..n], id) + tail;
      SuccessesConcat(History(rows[..n], id), tail);
      if rows[n].eventId == id {
        assert [rows[n]][..0] == [];
      }
    }
  }

  // ---------- one more attempt keeps the story straight ----------

  /** Settling an attempt is appending its row to the history. */
  lemma AttemptExtendsHistory(e: Event, h: seq<Delivery>, error: Option<string>, d: Delivery)
    requires ToldByHistory(e, h)
    requires d.succeeded == error.None? && d.error == error
    ensures ToldByHistory(Settle(e, e, error, d.at), h + [d])
  {
    assert (h + [d])[..|h|] == h;
  }

  /** A relay claims only rows that are due, so its attempts respect the schedule. */
  lemma AttemptWaits(e: Event, h: seq<Delivery>, d: Delivery)
    requires ToldByHistory(e, h) && RelayWaits(h)
    requires d.trigger == ByRelay ==> Due(e, d.at)
    ensures RelayWaits(h + [d])
  {
    if h != [] && d.trigger == ByRelay {
      assert AvailableFrom(h, e.createdAt) == h[|h| - 1].at + DelayMs(|h|);
    }
  }
}
