/**
 * Transfers and delivery over one database: the commit of a transfer is what puts its event into the
 * outbox, so every committed transaction is announced and whatever is published really happened.
 */
module EndToEnd {
  import opened Wrappers
  import opened Ledger
  import opened Tables
  import S = Sequential
  import Conservation
  import T = Protocol
  import TI = ProtocolInv
  import TC = CommitStep
  import TP = Progress
  import TR = Refinement
  import O = Outbox
  import OI = OutboxInv
  import OC = OutboxCommit
  import OS = OutboxSteps
  import OR = OutboxRuns

  /** `age` is how long ago the transaction of a transfer began when it commits: its event is as old. */
  datatype Action = Ledger(t: T.Action, age: nat) | Delivery(o: O.Action)

  datatype State = State(t: T.State, o: O.State)

  const START := State(T.START, O.START)

  /** The event a commit makes visible. */
  function Emitted(t: T.State, a: T.Action): (id: Option<Uuid>)
    ensures id.Some? ==> id.value !in t.db.events && id.value in T.Step(t, a).db.events
  {
    if a.Commit? && a.sid in t.sessions && t.sessions[a.sid].supply.eventId !in t.db.events
      && t.sessions[a.sid].supply.eventId in T.Step(t, a).db.events
    then Some(t.sessions[a.sid].supply.eventId)
    else None
  }

  /** One step of either half. The outbox has no other source of events than the commits of transfers. */
  function Step(s: State, a: Action): State {
    match a
    case Ledger(t, age) =>
      var t' := T.Step(s.t, t);
      (match Emitted(s.t, t)
       case None => s.(t := t')
       case Some(id) => State(t', O.Step(s.o, O.Insert(id, t'.db.events[id], s.o.clock - age))))
    case Delivery(o) => if o.Insert? then s else s.(o := O.Step(s.o, o))
  }

  function Exec(s: State, run: seq<Action>): State {
    if run == [] then s else Step(Exec(s, run[..|run| - 1]), run[|run| - 1])
  }

  /** The delivery machine has exactly the events the transfers have committed, and they say the same. */
  ghost predicate Mirrors(s: State) {
    && s.o.events.Keys == s.t.db.events.Keys
    && forall id :: id in s.o.events ==> s.o.events[id].row == s.t.db.events[id]
  }

  ghost predicate Good(s: State) {
    TR.Good(s.t) && OI.Inv(s.o) && Mirrors(s)
  }

  /** A commit emits one new event; nothing else touches the events. */
  lemma LedgerEmits(t: T.State, a: T.Action)
    requires TR.Good(t)
    ensures var events := T.Step(t, a).db.events;
            match Emitted(t, a)
            case None => events == t.db.events
            case Some(id) => events == t.db.events[id := events[id]]
  {
    hide TR.Good;
    if a.Commit? && T.At(t, a.sid, T.Committing) {
      CommitEmits(t, a.sid, a.answered);
    } else {
      NothingEmitted(t, a);
    }
  }

  lemma NothingEmitted(t: T.State, a: T.Action)
    requires !(a.Commit? && T.At(t, a.sid, T.Committing))
    ensures T.Step(t, a).db.events == t.db.events
  {
    TP.OnlyCommitsWrite(t, a);
  }

  lemma CommitEmits(t: T.State, sid: nat, answered: bool)
    requires TR.Good(t) && T.At(t, sid, T.Committing)
    ensures var id := t.sessions[sid].supply.eventId;
            var events := T.Step(t, T.Commit(sid, answered)).db.events;
            id !in t.db.events && id in events && events == t.db.events[id := events[id]]
  {
    hide T.Step, T.DoCommit, T.Finish, S.Answer, S.Post, S.TransferTransaction;
    TR.EntriesHaveTransactions(t);
    hide TR.Good, TI.Inv;
    var x := t.sessions[sid];
    TC.CommitIsPost(t, sid, answered);
    CommitIsStep(t, sid, answered);
    PostEmits(t.db, x.cmd, x.claim, x.supply);
  }

  lemma CommitIsStep(t: T.State, sid: nat, answered: bool)
    requires T.At(t, sid, T.Committing)
    ensures T.Step(t, T.Commit(sid, answered)) == T.DoCommit(t, sid, answered)
  {
    hide T.DoCommit;
  }

  lemma PostEmits(db: Db, cmd: TransferCommand, claim: Claim, v: S.Supply)
    requires S.Answer(db, cmd, claim, v).Posted? && cmd.debit in db.accounts && cmd.credit in db.accounts
    ensures var events := S.Post(db, cmd, claim, v).events;
            v.eventId !in db.events && v.eventId in events && events == db.events[v.eventId := events[v.eventId]]
  {
    hide S.AccountsVerdict, RefUsed, S.BalancesInRange, CreatedEvent, S.TransferEntries;
  }

  /** Settling attempts never touches what an event says, nor which events there are. */
  lemma DeliveryKeepsRows(o: O.State, a: O.Action)
    requires OI.Inv(o) && !a.Insert?
    ensures var o' := O.Step(o, a);
            && o'.events.Keys == o.events.Keys
            && forall id :: id in o'.events ==> o'.events[id].row == o.events[id].row
  {
    hide OI.Inv, O.Step;
    if a.CommitWork? && OC.Finished(o, a.w) {
      CommitKeepsRows(o, a.w);
    } else {
      OR.OtherwiseSameEvents(o, a);
    }
  }

  lemma CommitKeepsRows(o: O.State, w: nat)
    requires OI.Inv(o) && OC.Finished(o, w)
    ensures var o' := O.Step(o, O.CommitWork(w));
            && o'.events.Keys == o.events.Keys
            && forall id :: id in o'.events ==> o'.events[id].row == o.events[id].row
  {
    hide OI.Inv, OI.WorkerOk, OI.WorkersOk, OI.LocksOk, OI.EnvelopesOk, OI.Accounted, O.ToldByHistory, O.DoCommit;
    OS.Parts(o);
    OS.WorkerHolds(o, w);
    OC.CommitKeys(o, w);
    assert O.Step(o, O.CommitWork(w)) == O.DoCommit(o, w);
    forall id | id in O.DoCommit(o, w).events ensures O.DoCommit(o, w).events[id].row == o.events[id].row {
      CommitKeepsRow(o, w, id);
    }
  }

  lemma CommitKeepsRow(o: O.State, w: nat, id: Uuid)
    requires OC.Finished(o, w) && OI.WorkerOk(o, w) && id in o.events && id in O.DoCommit(o, w).events
    ensures O.DoCommit(o, w).events[id].row == o.events[id].row
  {
    if OI.InBatch(o.workers[w], id) {
      var i :| 0 <= i < |o.workers[w].batch| && o.workers[w].batch[i].id == id;
      OC.CommitRow(o, w, i);
    } else {
      OC.CommitOther(o, w, id);
    }
    hide OI.WorkerOk, O.DoCommit;
  }

  lemma InsertAdds(o: O.State, id: Uuid, row: EventRow, createdAt: int)
    requires id !in o.events && createdAt <= o.clock
    ensures O.Step(o, O.Insert(id, row, createdAt)).events == o.events[id := O.NewEvent(row, createdAt)]
  {
  }

  lemma {:induction false} AlwaysGood(run: seq<Action>)
    ensures Good(Exec(START, run))
  {
    if run == [] {
      TR.AlwaysGood([]);
      OR.StartInv();
    } else {
      AlwaysGood(run[..|run| - 1]);
      StepKeeps(Exec(START, run[..|run| - 1]), run[|run| - 1]);
    }
  }

  lemma StepKeeps(s: State, a: Action)
    requires Good(s)
    ensures Good(Step(s, a))
  {
    hide TR.Good, OI.Inv, T.Step, O.Step, Emitted;
    match a {
      case Ledger(t, age) =>
        TR.StepKeeps(s.t, t);
        LedgerEmits(s.t, t);
        if Emitted(s.t, t).Some? {
          var id := Emitted(s.t, t).value;
          var row := T.Step(s.t, t).db.events[id];
          OR.StepKeeps(s.o, O.Insert(id, row, s.o.clock - age));
          InsertAdds(s.o, id, row, s.o.clock - age);
        }
      case Delivery(o) =>
        OR.StepKeeps(s.o, o);
        if !o.Insert? { DeliveryKeepsRows(s.o, o); }
    }
  }

  /** Both halves have the same events, saying the same, and each records exactly one transaction. */
  lemma OneOutbox(run: seq<Action>)
    ensures Mirrors(Exec(START, run)) && Conservation.EventsMatchTransactions(Exec(START, run).t.db)
  {
    AlwaysGood(run);
    hide Exec, OI.Inv, TR.Good, Mirrors;
    TablesConsistent(Exec(START, run).t);
  }

  lemma TablesConsistent(t: T.State)
    requires TR.Good(t)
    ensures Conservation.EventsMatchTransactions(t.db) && Conservation.EntriesWellFormed(t.db)
  {
    hide Conservation.BalancesMatchEntries, Conservation.MoneyConserved, Conservation.RefsUnique,
      Conservation.KeysMatchTransactions, Conservation.EventsMatchTransactions, Conservation.EntriesWellFormed;
  }

  /** Every committed transaction is announced: the delivery machine has its event, which tells its two legs. */
  lemma HappenedIsAnnounced(run: seq<Action>, t: Uuid) returns (id: Uuid)
    requires t in Exec(START, run).t.db.transactions
    ensures var s := Exec(START, run);
            && id in s.o.events && Conservation.EventTells(s.o.events[id].row, s.t.db, t)
            && Conservation.TwoOppositeLegs(s.t.db, t)
  {
    AlwaysGood(run);
    OneOutbox(run);
    TablesConsistent(Exec(START, run).t);
    hide Exec, Good, Conservation.EventTells, Conservation.TwoOppositeLegs;
    var db := Exec(START, run).t.db;
    id :| Conservation.EventRecords(db, id, t);
  }

  /** What an envelope says, field by field: whose event it is, when it arose, and its transaction. */
  ghost predicate EnvelopeTells(e: O.Envelope, s: State) {
    && e.eventId in s.o.events && e.occurredAt == s.o.events[e.eventId].createdAt && e.producer == "sumzero"
    && e.aggregateId in s.t.db.transactions
    && Conservation.EventTells(
         EventRow(e.aggregateType, e.aggregateId, e.eventType, e.schemaVersion, e.payload), s.t.db, e.aggregateId)
  }

  /**
   * Every envelope ever handed to the publisher describes a committed transaction: its payload is
   * that transaction with exactly its two legs, as the tables hold them now.
   */
  lemma PublishedMeansHappened(run: seq<Action>, p: O.Publication)
    requires p in Exec(START, run).o.wire
    ensures EnvelopeTells(p.envelope, Exec(START, run))
    ensures Conservation.TwoOppositeLegs(Exec(START, run).t.db, p.envelope.aggregateId)
  {
    var s := Exec(START, run);
    AlwaysGood(run);
    OS.Parts(s.o);
    hide Exec, OI.Inv, OI.WorkersOk, OI.LocksOk, OI.HistoriesOk, OI.Accounted, Conservation.TwoOppositeLegs,
      Conservation.EventTells;
    var id := p.envelope.eventId;
    assert id in s.o.events && p.envelope == O.EnvelopeOf(id, s.o.events[id]);
    TablesConsistent(s.t);
    hide TR.Good, OI.EnvelopesOk;
    var row := s.o.events[id].row;
    assert row == EventRow(row.aggregateType, row.aggregateId, row.eventType, row.schemaVersion, row.payload);
    assert Conservation.EventRecords(s.t.db, id, p.envelope.aggregateId);
  }
}
