/**
 * Whole runs: any schedule of any number of requests gives the tables and the answers of one
 * sequential run of the reference ledger, and everything that follows from that.
 */
module Linearizability {
  import opened Wrappers
  import opened Ledger
  import opened Tables
  import opened Sequential
  import opened Conservation
  import opened Protocol
  import opened ProtocolInv
  import opened Refinement

  /** The operations that took effect during a schedule, in the order in which they did. */
  function History(schedule: seq<Action>): seq<Op> {
    if schedule == [] then []
    else
      var before := schedule[..|schedule| - 1];
      History(before) + Effective(Exec(START, before), schedule[|schedule| - 1])
  }

  /** Operation i of the history is session p's request, and the reference ledger answers it `o`. */
  ghost predicate TookEffect(ops: seq<Op>, i: nat, p: nat, x: Session, o: Outcome) {
    && i < |ops| && ops[i].Transfer? && ops[i].sid == p
    && ops[i].cmd == x.cmd && ops[i].claim == x.claim
    && AnswerAt(EMPTY_DB, ops, i) == o
  }

  ghost predicate AnswersAgree(s: State, ops: seq<Op>) {
    forall p :: p in s.sessions && Settled(s.sessions[p]).Some? ==>
      exists i: nat :: TookEffect(ops, i, p, s.sessions[p], Settled(s.sessions[p]).value)
  }

  ghost predicate AtMostOnceEach(s: State, ops: seq<Op>) {
    && (forall i :: 0 <= i < |ops| && ops[i].Transfer? ==> Carried(s, ops[i]))
    && (forall i, j :: 0 <= i < j < |ops| && ops[i].Transfer? && ops[j].Transfer? ==> ops[i].sid != ops[j].sid)
  }

  lemma {:induction false} RunConcat(db: Db, xs: seq<Op>, ys: seq<Op>)
    ensures Run(db, xs + ys) == Run(Run(db, xs), ys)
  {
    if ys == [] {
      assert xs + ys == xs;
    } else {
      RunConcat(db, xs, ys[..|ys| - 1]);
      assert (xs + ys)[..|xs + ys| - 1] == xs + ys[..|ys| - 1];
    }
  }

  lemma EarlierAnswersStand(xs: seq<Op>, ys: seq<Op>, i: nat, p: nat, x: Session, o: Outcome)
    requires TookEffect(xs, i, p, x, o)
    ensures TookEffect(xs + ys, i, p, x, o)
  {
    hide Answer;
    assert (xs + ys)[..i] == xs[..i];
  }

  lemma AnswersStep(s: State, s': State, ops: seq<Op>, more: seq<Op>)
    requires s.db == Run(EMPTY_DB, ops) && AnswersAgree(s, ops)
    requires Forward(s, s', more) && Answered(s, s', more)
    ensures AnswersAgree(s', ops + more)
  {
    hide Answer, Settled, Spent, TookEffect;
    forall p | p in s'.sessions && Settled(s'.sessions[p]).Some?
      ensures exists i: nat :: TookEffect(ops + more, i, p, s'.sessions[p], Settled(s'.sessions[p]).value)
    {
      var x' := s'.sessions[p];
      if p in s.sessions && Settled(s.sessions[p]) == Settled(x') {
        var i: nat :| TookEffect(ops, i, p, s.sessions[p], Settled(x').value);
        SameRequest(ops, i, p, s.sessions[p], x', Settled(x').value);
        EarlierAnswersStand(ops, more, i, p, x', Settled(x').value);
      } else {
        LatestAnswer(s.db, ops, more, p, x', Settled(x').value);
      }
    }
  }

  lemma SameRequest(ops: seq<Op>, i: nat, p: nat, x: Session, x': Session, o: Outcome)
    requires TookEffect(ops, i, p, x, o) && x.cmd == x'.cmd && x.claim == x'.claim
    ensures TookEffect(ops, i, p, x', o)
  {
    hide Answer;
  }

  lemma LatestAnswer(db: Db, ops: seq<Op>, more: seq<Op>, p: nat, x: Session, o: Outcome)
    requires db == Run(EMPTY_DB, ops)
    requires |more| == 1 && more[0].Transfer? && more[0].sid == p && more[0].cmd == x.cmd && more[0].claim == x.claim
    requires Answer(db, more[0].cmd, more[0].claim, more[0].supply) == o
    ensures TookEffect(ops + more, |ops|, p, x, o)
  {
    hide Answer;
    assert (ops + more)[..|ops|] == ops;
  }

  lemma OnceStep(s: State, s': State, ops: seq<Op>, more: seq<Op>)
    requires AtMostOnceEach(s, ops) && |more| <= 1 && Forward(s, s', more)
    requires forall op <- more :: op.Transfer? ==> Carried(s', op)
    ensures AtMostOnceEach(s', ops + more)
  {
    hide Spent;
  }

  /**
   * Refinement of the atomic sequential ledger: the committed tables are those of the history run
   * one operation at a time, every answer given is the one that run gives, every operation is the
   * request of a session, answered or not, and no request takes effect twice.
   */
  lemma {:induction false} Linearizable(schedule: seq<Action>)
    ensures var s, ops := Exec(START, schedule), History(schedule);
            && s.db == Run(EMPTY_DB, ops)
            && AnswersAgree(s, ops)
            && AtMostOnceEach(s, ops)
  {
    if schedule == [] {
    } else {
      hide Good, Settled, Spent, Effective, Step, AnswersAgree, AtMostOnceEach, Forward, Answered;
      var before, a := schedule[..|schedule| - 1], schedule[|schedule| - 1];
      Linearizable(before);
      var s, ops := Exec(START, before), History(before);
      AlwaysGood(before);
      StepSimulates(s, a);
      RunConcat(EMPTY_DB, ops, Effective(s, a));
      AnswersStep(s, Step(s, a), ops, Effective(s, a));
      OnceStep(s, Step(s, a), ops, Effective(s, a));
    }
  }

  // ---------- histories respect real time ----------

  lemma {:induction false} HistoryGrows(schedule: seq<Action>, n: nat)
    requires n <= |schedule|
    ensures History(schedule[..n]) <= History(schedule)
  {
    if n == |schedule| {
      assert schedule[..n] == schedule;
    } else {
      hide Effective;
      var before := schedule[..|schedule| - 1];
      HistoryGrows(before, n);
      assert before[..n] == schedule[..n];
    }
  }

  /** If one request had been answered before another arrived, it took effect first. */
  lemma RealTimeOrder(schedule: seq<Action>, n: nat, i: nat, j: nat)
    requires n <= |schedule|
    requires i < |History(schedule)| && History(schedule)[i].Transfer?
    requires j < |History(schedule)| && History(schedule)[j].Transfer?
    requires var p, x := History(schedule)[i].sid, Exec(START, schedule[..n]).sessions;
             p in x && Settled(x[p]).Some?
    requires History(schedule)[j].sid !in Exec(START, schedule[..n]).sessions
    ensures i < j
  {
    hide Settled, Spent, Effective;
    var early := schedule[..n];
    HistoryGrows(schedule, n);
    Linearizable(early);
    Linearizable(schedule);
    var p := History(schedule)[i].sid;
    var x := Exec(START, early).sessions[p];
    var k: nat :| TookEffect(History(early), k, p, x, Settled(x).value);
    assert k == i;
  }

  // ---------- what every reachable state satisfies ----------

  /** Conservation: whatever interleaving and whatever aborts, the committed tables stay consistent. */
  lemma CommittedTablesConsistent(schedule: seq<Action>)
    ensures Consistent(Exec(START, schedule).db)
  {
    AlwaysGood(schedule);
    hide Inv, Consistent;
  }

  /** Errors that only a disagreement between the service and the schema could cause. */
  predicate Internal(e: LedgerError) {
    e in {FloorBreached, UnbalancedTransaction, MissingStoredReply}
  }

  lemma ReferenceNeverInternal(db: Db, cmd: TransferCommand, claim: Claim, v: Supply)
    requires Consistent(db)
    ensures Answer(db, cmd, claim, v).Rejected? ==> !Internal(Answer(db, cmd, claim, v).error)
  {
    assert claim.id in db.keys ==> db.keys[claim.id].reply.Some?;
    hide Consistent, RefUsed, FreshSupply;
  }

  /**
   * The balance-floor constraint, the deferred trigger, the service's post-commit assertion and the
   * missing-response branch are never reached, in any run.
   */
  lemma BackstopsUnreachable(schedule: seq<Action>, p: nat, e: LedgerError)
    requires At(Exec(START, schedule), p, Done(Rejected(e)))
    ensures !Internal(e)
  {
    var s, ops := Exec(START, schedule), History(schedule);
    Linearizable(schedule);
    hide Answer, Effective, Internal, Consistent;
    var i: nat :| TookEffect(ops, i, p, s.sessions[p], Rejected(e));
    EmptyIsConsistent();
    RunKeeps(EMPTY_DB, ops[..i]);
    ReferenceNeverInternal(Run(EMPTY_DB, ops[..i]), ops[i].cmd, ops[i].claim, ops[i].supply);
  }

  // ---------- exactly once ----------

  /** The reply a request succeeded with, executed or replayed. */
  function ReplyOf(o: Outcome): Option<Reply> {
    match o
    case Posted(reply, _) => Some(reply)
    case Replayed(reply) => Some(reply)
    case _ => None
  }

  /** A successful answer is stored under its key, together with the fingerprint it was given for. */
  lemma SuccessIsStored(db: Db, op: Op)
    requires op.Transfer? && ReplyOf(Answer(db, op.cmd, op.claim, op.supply)).Some?
    ensures var db' := Effect(db, op);
            && op.claim.id in db'.keys
            && db'.keys[op.claim.id].hash == op.claim.fingerprint
            && db'.keys[op.claim.id].reply == ReplyOf(Answer(db, op.cmd, op.claim, op.supply))
  {
    hide RefUsed, FreshSupply;
  }

  lemma StoredForever(ops: seq<Op>, i: nat)
    requires i < |ops| && ops[i].Transfer? && ReplyOf(AnswerAt(EMPTY_DB, ops, i)).Some?
    ensures var keys := Run(EMPTY_DB, ops).keys;
            && ops[i].claim.id in keys
            && keys[ops[i].claim.id].hash == ops[i].claim.fingerprint
            && keys[ops[i].claim.id].reply == ReplyOf(AnswerAt(EMPTY_DB, ops, i))
  {
    hide Answer, Effect;
    SuccessIsStored(Run(EMPTY_DB, ops[..i]), ops[i]);
    RunExtends(EMPTY_DB, ops, i + 1);
    assert ops[..i + 1][..i] == ops[..i];
  }

  /** Every successful caller was told what is stored under its key. */
  lemma SuccessMatchesStore(schedule: seq<Action>, p: nat)
    requires var s := Exec(START, schedule);
             p in s.sessions && s.sessions[p].pc.Done? && ReplyOf(s.sessions[p].pc.outcome).Some?
    ensures var s := Exec(START, schedule);
            var x := s.sessions[p];
            && x.claim.id in s.db.keys
            && s.db.keys[x.claim.id].hash == x.claim.fingerprint
            && s.db.keys[x.claim.id].reply == ReplyOf(x.pc.outcome)
  {
    var s, ops := Exec(START, schedule), History(schedule);
    Linearizable(schedule);
    hide Answer, Effective;
    var i: nat :| TookEffect(ops, i, p, s.sessions[p], s.sessions[p].pc.outcome);
    StoredForever(ops, i);
  }

  /** All successful callers of one key sent the same request and received the same status and bytes. */
  lemma SameKeySameReply(schedule: seq<Action>, p: nat, q: nat)
    requires var s := Exec(START, schedule);
             && p in s.sessions && s.sessions[p].pc.Done? && ReplyOf(s.sessions[p].pc.outcome).Some?
             && q in s.sessions && s.sessions[q].pc.Done? && ReplyOf(s.sessions[q].pc.outcome).Some?
             && s.sessions[p].claim.id == s.sessions[q].claim.id
    ensures var s := Exec(START, schedule);
            && s.sessions[p].claim == s.sessions[q].claim
            && ReplyOf(s.sessions[p].pc.outcome) == ReplyOf(s.sessions[q].pc.outcome)
  {
    SuccessMatchesStore(schedule, p);
    SuccessMatchesStore(schedule, q);
    hide Exec;
  }

  /** Exactly once: two operations under one key never both post, whoever else runs in between. */
  lemma PostsOncePerKey(ops: seq<Op>, i: nat, j: nat)
    requires i < j < |ops| && ops[i].Transfer? && ops[j].Transfer? && ops[i].claim.id == ops[j].claim.id
    requires AnswerAt(EMPTY_DB, ops, i).Posted?
    ensures !AnswerAt(EMPTY_DB, ops, j).Posted?
    ensures Validate(ops[j].cmd) == None ==>
      AnswerAt(EMPTY_DB, ops, j) ==
        if ops[j].claim.fingerprint == ops[i].claim.fingerprint then Replayed(AnswerAt(EMPTY_DB, ops, i).reply)
        else Rejected(IdempotencyKeyReuse)
  {
    hide Effect, RefUsed, FreshSupply, AccountsVerdict, BalancesInRange, TransferTransaction, Validate;
    var early := ops[..j];
    assert early[..i] == ops[..i];
    StoredForever(early, i);
  }
}
