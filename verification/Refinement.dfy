/**
 * The concurrent protocol refines the reference ledger. Each request takes effect at one of its own
 * statements: a success at its commit, a replay at its read of the stored row, a rejection at the
 * statement that decides it (for a missing account, the start of the locking SELECT).
 */
module Refinement {
  import opened Wrappers
  import opened Ledger
  import opened Tables
  import opened Sequential
  import opened Conservation
  import opened LockOrder
  import opened Protocol
  import opened ProtocolInv
  import opened CommitStep

  /** Which account the locking SELECT will not deliver, in the order the service reports it. */
  function Missing(x: Session): Option<Uuid> {
    if x.cmd.debit !in x.found && x.cmd.debit !in x.todo then Some(x.cmd.debit)
    else if x.cmd.credit !in x.found && x.cmd.credit !in x.todo then Some(x.cmd.credit)
    else None
  }

  /** The answer a session is bound to give unless it is aborted. */
  function Settled(x: Session): Option<Outcome> {
    match x.pc
    case Done(Lost) => None
    case Done(o) => Some(o)
    case Locking => if Missing(x).Some? then Some(Rejected(AccountNotFound(Missing(x).value))) else None
    case _ => None
  }

  /** The session has taken effect or ended: it will not take effect again. */
  predicate Spent(x: Session) {
    x.pc.Done? || Settled(x).Some?
  }

  function OpOf(x: Session, sid: nat): Op {
    Transfer(sid, x.cmd, x.claim, x.supply)
  }

  /** The operation that takes effect at this action, if one does. */
  function Effective(s: State, a: Action): seq<Op> {
    match a
    case Open(id, currency, allowNegative) => [OpenAccount(id, currency, allowNegative)]
    case Submit(sid, cmd, claim) =>
      if sid !in s.sessions && Validate(cmd).Some? then [Transfer(sid, cmd, claim, NO_SUPPLY)] else []
    case ReadReply(sid) =>
      if At(s, sid, Reading) then [OpOf(s.sessions[sid], sid)] else []
    case SelectAccounts(sid) =>
      if At(s, sid, Selecting) && Settled(DoSelect(s, sid).sessions[sid]).Some? then [OpOf(s.sessions[sid], sid)] else []
    case CheckAccounts(sid) =>
      if At(s, sid, Locking) && Settled(s.sessions[sid]).None? && DoCheck(s, sid).sessions[sid].pc.Done? then
        [OpOf(s.sessions[sid], sid)]
      else []
    case InsertTx(sid, id) =>
      if At(s, sid, InsertingTx) && DoInsertTx(s, sid, id).sessions[sid].pc.Done? then [OpOf(s.sessions[sid], sid)] else []
    case ApplyBalances(sid) =>
      if At(s, sid, Applying) && DoApply(s, sid).sessions[sid].pc.Done? then [OpOf(s.sessions[sid], sid)] else []
    case Commit(sid, answered) =>
      if At(s, sid, Committing) then [OpOf(s.sessions[sid], sid)] else []
    case _ => []
  }

  ghost predicate Good(s: State) {
    Inv(s) && Consistent(s.db)
  }

  /** Session p only moves forward, and takes effect at most once. */
  ghost predicate Forward(s: State, s': State, ops: seq<Op>) {
    forall p :: p in s.sessions ==>
      && p in s'.sessions
      && s'.sessions[p].cmd == s.sessions[p].cmd
      && s'.sessions[p].claim == s.sessions[p].claim
      && (Spent(s.sessions[p]) ==> Spent(s'.sessions[p]) && forall op <- ops :: op.Transfer? ==> op.sid != p)
  }

  /** An answer is the one the reference ledger gives, now or at an earlier action. */
  ghost predicate Answered(s: State, s': State, ops: seq<Op>) {
    forall p :: p in s'.sessions && Settled(s'.sessions[p]).Some? ==>
      || (p in s.sessions && Settled(s.sessions[p]) == Settled(s'.sessions[p]))
      || (&& |ops| == 1 && ops[0].Transfer? && ops[0].sid == p
          && ops[0].cmd == s'.sessions[p].cmd && ops[0].claim == s'.sessions[p].claim
          && Some(Answer(s.db, ops[0].cmd, ops[0].claim, ops[0].supply)) == Settled(s'.sessions[p]))
  }

  /** One action against the operations that take effect at it. */
  ghost predicate Simulates(s: State, s': State, ops: seq<Op>) {
    && |ops| <= 1
    && s'.db == Run(s.db, ops)
    && Forward(s, s', ops)
    && Answered(s, s', ops)
    && (forall op <- ops :: op.Transfer? ==> Carried(s', op))
  }

  /** The operation is the request of a session, which has spent it. */
  predicate Carried(s: State, op: Op)
    requires op.Transfer?
  {
    && op.sid in s.sessions && Spent(s.sessions[op.sid])
    && op.cmd == s.sessions[op.sid].cmd && op.claim == s.sessions[op.sid].claim
  }

  lemma RunOne(db: Db, op: Op)
    ensures Run(db, [op]) == Effect(db, op)
  {
    assert [op][..0] == [];
    assert Run(db, []) == db;
  }

  /** A statement that decides nothing. */
  lemma Undecided(s: State, s': State, sid: nat)
    requires sid in s.sessions && sid in s'.sessions && s'.db == s.db
    requires s'.sessions == s.sessions[sid := s'.sessions[sid]]
    requires s'.sessions[sid].cmd == s.sessions[sid].cmd && s'.sessions[sid].claim == s.sessions[sid].claim
    requires Settled(s'.sessions[sid]) == Settled(s.sessions[sid]) || s'.sessions[sid].pc == Done(Lost)
    requires Spent(s.sessions[sid]) ==> Spent(s'.sessions[sid])
    ensures Simulates(s, s', [])
  {
    hide Settled, Spent;
    assert Settled(s'.sessions[sid]).Some? ==> s'.sessions[sid].pc != Done(Lost) by { LostIsUnsettled(s'.sessions[sid]); }
  }

  lemma LostIsUnsettled(x: Session)
    ensures x.pc == Done(Lost) ==> Settled(x).None?
  {
  }

  /** A statement that decides the session's answer without changing the tables. */
  lemma Decided(s: State, s': State, sid: nat, x: Session)
    requires s'.db == s.db && sid in s'.sessions
    requires sid in s.sessions ==> !Spent(s.sessions[sid]) && s.sessions[sid].cmd == x.cmd && s.sessions[sid].claim == x.claim
    requires s'.sessions == s.sessions[sid := s'.sessions[sid]]
    requires s'.sessions[sid].cmd == x.cmd && s'.sessions[sid].claim == x.claim
    requires Settled(s'.sessions[sid]) == Some(Answer(s.db, x.cmd, x.claim, x.supply))
    requires !Answer(s.db, x.cmd, x.claim, x.supply).Posted?
    ensures Simulates(s, s', [OpOf(x, sid)])
  {
    hide Settled, Answer;
    RunOne(s.db, OpOf(x, sid));
  }

  lemma SimulatesSubmit(s: State, sid: nat, cmd: TransferCommand, claim: Claim)
    ensures Simulates(s, DoSubmit(s, sid, cmd, claim), Effective(s, Submit(sid, cmd, claim)))
  {
    var s' := DoSubmit(s, sid, cmd, claim);
    if sid !in s.sessions && Validate(cmd).Some? {
      Decided(s, s', sid, s'.sessions[sid]);
    } else {
      hide Validate;
    }
  }

  lemma SimulatesRead(s: State, sid: nat)
    requires Inv(s) && At(s, sid, Reading)
    ensures Simulates(s, DoReadReply(s, sid), Effective(s, ReadReply(sid)))
  {
    var x := s.sessions[sid];
    SessionHolds(s, sid);
    hide Inv, LocksOk, WorkAt, TransferEntries, Simulates;
    assert x.claim.id in s.db.keys && Validate(x.cmd).None?;
    hide SessionOk;
    Decided(s, DoReadReply(s, sid), sid, x);
  }

  /** A missing account is missing for the whole statement, whatever is created meanwhile. */
  lemma SelectDecides(s: State, sid: nat)
    requires At(s, sid, Selecting) && SessionOk(s.db, s.minted, s.sessions[sid], sid)
    requires Settled(DoSelect(s, sid).sessions[sid]).Some?
    ensures var x := s.sessions[sid];
            Settled(DoSelect(s, sid).sessions[sid]) == Some(Answer(s.db, x.cmd, x.claim, x.supply))
  {
    hide RefUsed, WorkAt, SupplyOk, FreshSupply;
  }

  lemma SimulatesSelect(s: State, sid: nat)
    requires Inv(s) && At(s, sid, Selecting)
    ensures Simulates(s, DoSelect(s, sid), Effective(s, SelectAccounts(sid)))
  {
    hide Inv, LocksOk, SessionOk, Simulates, Answer, ExistingInOrder, Missing;
    var x := s.sessions[sid];
    SessionHolds(s, sid);
    if Settled(DoSelect(s, sid).sessions[sid]).Some? {
      SelectDecides(s, sid);
      Decided(s, DoSelect(s, sid), sid, x);
    } else {
      Undecided(s, DoSelect(s, sid), sid);
    }
  }

  lemma SimulatesLock(s: State, sid: nat)
    requires At(s, sid, Locking)
    ensures Simulates(s, DoLockNext(s, sid), [])
  {
    var s' := DoLockNext(s, sid);
    if s' == s {
    } else {
      var x, x' := s.sessions[sid], s'.sessions[sid];
      assert x.todo == [x.todo[0]] + x'.todo;
      assert forall id :: id in x.todo <==> id == x.todo[0] || id in x'.todo;
      assert Missing(x') == Missing(x);
      hide Simulates;
      Undecided(s, s', sid);
    }
  }

  lemma CheckDecides(s: State, sid: nat)
    requires At(s, sid, Locking) && SessionOk(s.db, s.minted, s.sessions[sid], sid)
    requires s.sessions[sid].todo == [] && AccountsVerdict(s.sessions[sid].found, s.sessions[sid].cmd).Some?
    ensures var x := s.sessions[sid];
            var verdict := Rejected(AccountsVerdict(x.found, x.cmd).value);
            && (Missing(x).Some? ==> Settled(x) == Some(verdict))
            && (Missing(x).None? ==> Answer(s.db, x.cmd, x.claim, x.supply) == verdict)
  {
    hide RefUsed, WorkAt, SupplyOk, FreshSupply;
    var x := s.sessions[sid];
    if Missing(x).None? {
      assert x.found[x.cmd.debit] == s.db.accounts[x.cmd.debit];
      assert x.found[x.cmd.credit] == s.db.accounts[x.cmd.credit];
    }
  }

  lemma SimulatesCheck(s: State, sid: nat)
    requires Inv(s) && At(s, sid, Locking)
    ensures Simulates(s, DoCheck(s, sid), Effective(s, CheckAccounts(sid)))
  {
    hide Inv, LocksOk, SessionOk, Simulates, Answer, AccountsVerdict, Missing;
    var x := s.sessions[sid];
    SessionHolds(s, sid);
    if x.todo != [] {
      Undecided(s, DoCheck(s, sid), sid);
    } else if AccountsVerdict(x.found, x.cmd).Some? {
      CheckDecides(s, sid);
      if Missing(x).Some? {
        Undecided(s, DoCheck(s, sid), sid);
      } else {
        Decided(s, DoCheck(s, sid), sid, x);
      }
    } else {
      VerdictMeansPresent(x);
      Undecided(s, DoCheck(s, sid), sid);
    }
  }

  lemma VerdictMeansPresent(x: Session)
    requires AccountsVerdict(x.found, x.cmd).None?
    ensures Missing(x).None?
  {
  }

  lemma InsertTxDecides(s: State, sid: nat)
    requires At(s, sid, InsertingTx) && SessionOk(s.db, s.minted, s.sessions[sid], sid)
    requires s.sessions[sid].cmd.externalRef.Some? && RefUsed(s.db, s.sessions[sid].cmd.externalRef.value)
    ensures var x := s.sessions[sid];
            Answer(s.db, x.cmd, x.claim, x.supply) == Rejected(DuplicateExternalRef)
  {
    hide RefUsed, WorkAt, SupplyOk, FreshSupply;
    var x := s.sessions[sid];
    assert x.found[x.cmd.debit] == s.db.accounts[x.cmd.debit];
    assert x.found[x.cmd.credit] == s.db.accounts[x.cmd.credit];
  }

  lemma SimulatesInsertTx(s: State, sid: nat, id: Uuid)
    requires Inv(s) && At(s, sid, InsertingTx)
    ensures Simulates(s, DoInsertTx(s, sid, id), Effective(s, InsertTx(sid, id)))
  {
    hide Inv, LocksOk, SessionOk, Simulates, Answer, RefUsed;
    var x := s.sessions[sid];
    var s' := DoInsertTx(s, sid, id);
    SessionHolds(s, sid);
    if s'.sessions[sid].pc.Done? {
      InsertTxDecides(s, sid);
      Decided(s, s', sid, x);
    } else {
      Undecided(s, s', sid);
    }
  }

  /** Only the bigint range can stop the balance update: the floor was checked on these very rows. */
  lemma ApplyDecides(s: State, sid: nat)
    requires At(s, sid, Applying) && SessionOk(s.db, s.minted, s.sessions[sid], sid)
    requires forall a :: a in s.db.accounts ==> FloorHolds(s.db.accounts[a])
    ensures DoApply(s, sid).sessions[sid].pc.Done? ==>
      var x := s.sessions[sid];
      && DoApply(s, sid) == Finish(s, sid, Rejected(BalanceOutOfRange))
      && Answer(s.db, x.cmd, x.claim, x.supply) == Rejected(BalanceOutOfRange)
  {
    hide RefUsed, WorkAt, SupplyOk, FreshSupply, InInt64;
    var x := s.sessions[sid];
    ApplySeesCheckedRows(s, sid);
    assert x.found[x.cmd.debit] == s.db.accounts[x.cmd.debit];
    assert x.found[x.cmd.credit] == s.db.accounts[x.cmd.credit];
    var b := NewBalances(s.db.accounts, x.cmd);
    if BalancesInRange(s.db.accounts, x.cmd) {
      forall id | id in b ensures InInt64(b[id]) {}
    }
    forall id | id in b ensures FloorHolds(s.db.accounts[id].(balance := b[id])) {}
  }

  lemma SimulatesApply(s: State, sid: nat)
    requires Good(s) && At(s, sid, Applying)
    ensures Simulates(s, DoApply(s, sid), Effective(s, ApplyBalances(sid)))
  {
    hide Inv, LocksOk, SessionOk, Simulates, Answer, InInt64, NewBalances, FloorHolds;
    assert forall a :: a in s.db.accounts ==> FloorHolds(s.db.accounts[a]);
    hide Good;
    var x := s.sessions[sid];
    var s' := DoApply(s, sid);
    SessionHolds(s, sid);
    ApplyDecides(s, sid);
    if s'.sessions[sid].pc.Done? {
      Decided(s, s', sid, x);
    } else {
      Undecided(s, s', sid);
    }
  }

  lemma EntriesHaveTransactions(s: State)
    requires Good(s)
    ensures Inv(s) && forall e <- s.db.entries :: e.transactionId in s.db.transactions
  {
    hide Inv, BalancesMatchEntries, MoneyConserved, RefsUnique, KeysMatchTransactions, EventsMatchTransactions,
      TwoOppositeLegs;
  }

  lemma SimulatesCommit(s: State, sid: nat, answered: bool)
    requires Good(s) && At(s, sid, Committing)
    ensures Simulates(s, DoCommit(s, sid, answered), Effective(s, Commit(sid, answered)))
  {
    hide Inv, LocksOk, SessionOk, DoCommit, Answer, Simulates, Post, Finish, Effective, Spent, Settled;
    EntriesHaveTransactions(s);
    hide Good;
    var x := s.sessions[sid];
    CommitIsPost(s, sid, answered);
    CommitTakesEffect(s, sid, answered);
    FinishedByCommit(s, sid, if answered then Answer(s.db, x.cmd, x.claim, x.supply) else Lost);
    PostedNow(s, DoCommit(s, sid, answered), sid);
  }

  lemma CommitTakesEffect(s: State, sid: nat, answered: bool)
    requires At(s, sid, Committing)
    ensures Effective(s, Commit(sid, answered)) == [OpOf(s.sessions[sid], sid)] && !Spent(s.sessions[sid])
  {
  }

  lemma FinishedByCommit(s: State, sid: nat, outcome: Outcome)
    requires At(s, sid, Committing)
    ensures var x, s' := s.sessions[sid], Finish(s, sid, outcome);
            && sid in s'.sessions && s'.sessions == s.sessions[sid := s'.sessions[sid]]
            && s'.sessions[sid].cmd == x.cmd && s'.sessions[sid].claim == x.claim
            && Spent(s'.sessions[sid])
            && Settled(s'.sessions[sid]) in {None, Some(outcome)}
            && (outcome == Lost ==> Settled(s'.sessions[sid]) == None)
  {
  }

  /** The commit that posts. */
  lemma PostedNow(s: State, s': State, sid: nat)
    requires sid in s.sessions && !Spent(s.sessions[sid])
    requires var x := s.sessions[sid];
             && Answer(s.db, x.cmd, x.claim, x.supply).Posted?
             && x.cmd.debit in s.db.accounts && x.cmd.credit in s.db.accounts
             && s'.db == Post(s.db, x.cmd, x.claim, x.supply)
             && sid in s'.sessions && s'.sessions == s.sessions[sid := s'.sessions[sid]]
             && s'.sessions[sid].cmd == x.cmd && s'.sessions[sid].claim == x.claim
             && Spent(s'.sessions[sid])
             && Settled(s'.sessions[sid]) in {None, Some(Answer(s.db, x.cmd, x.claim, x.supply))}
    ensures Simulates(s, s', [OpOf(s.sessions[sid], sid)])
  {
    var op := OpOf(s.sessions[sid], sid);
    RunOne(s.db, op);
    EffectOfPosting(s.db, op);
    hide Answer, Post, Effect, Run, Settled, Spent;
  }

  lemma EffectOfPosting(db: Db, op: Op)
    requires op.Transfer? && Answer(db, op.cmd, op.claim, op.supply).Posted?
    ensures op.cmd.debit in db.accounts && op.cmd.credit in db.accounts
    ensures Effect(db, op) == Post(db, op.cmd, op.claim, op.supply)
  {
  }

  /** Every action of every session simulates at most one operation of the reference ledger. */
  lemma StepSimulates(s: State, a: Action)
    requires Good(s)
    ensures Simulates(s, Step(s, a), Effective(s, a))
  {
    hide Good, Simulates, Settled;
    match a {
      case Open(id, currency, allowNegative) => SimulatesOpen(s, id, currency, allowNegative);
      case Submit(sid, cmd, claim) => SimulatesSubmit(s, sid, cmd, claim);
      case ClaimKey(sid) => SimulatesClaim(s, sid);
      case ReadReply(sid) => if At(s, sid, Reading) { GoodInv(s); SimulatesRead(s, sid); } else { Idle(s); }
      case SelectAccounts(sid) => if At(s, sid, Selecting) { GoodInv(s); SimulatesSelect(s, sid); } else { Idle(s); }
      case LockNext(sid) => if At(s, sid, Locking) { SimulatesLock(s, sid); } else { Idle(s); }
      case CheckAccounts(sid) => if At(s, sid, Locking) { GoodInv(s); SimulatesCheck(s, sid); } else { Idle(s); }
      case InsertTx(sid, id) => if At(s, sid, InsertingTx) { GoodInv(s); SimulatesInsertTx(s, sid, id); } else { Idle(s); }
      case InsertEntry(sid, id) => SimulatesInsertEntry(s, sid, id);
      case ApplyBalances(sid) => if At(s, sid, Applying) { SimulatesApply(s, sid); } else { Idle(s); }
      case InsertEvent(sid, id) => SimulatesInsertEvent(s, sid, id);
      case StoreReply(sid, reply) => SimulatesStoreReply(s, sid, reply);
      case Commit(sid, answered) => if At(s, sid, Committing) { SimulatesCommit(s, sid, answered); } else { Idle(s); }
      case Abort(sid) => SimulatesAbort(s, sid);
    }
  }

  lemma GoodInv(s: State)
    requires Good(s)
    ensures Inv(s)
  {
    hide Inv, Consistent;
  }

  lemma Idle(s: State)
    ensures Simulates(s, s, [])
  {
    hide Settled, Spent;
  }

  lemma SimulatesOpen(s: State, id: Uuid, currency: string, allowNegative: bool)
    ensures Simulates(s, DoOpen(s, id, currency, allowNegative), Effective(s, Open(id, currency, allowNegative)))
  {
    hide Settled, Spent;
    RunOne(s.db, OpenAccount(id, currency, allowNegative));
  }

  /** Statements that never decide anything, and aborts. */
  lemma SimulatesClaim(s: State, sid: nat)
    ensures Simulates(s, Step(s, ClaimKey(sid)), Effective(s, ClaimKey(sid)))
  {
    hide Simulates, Missing, Answer, Run, Effect;
    var s' := Step(s, ClaimKey(sid));
    if s' == s { Idle(s); } else { Undecided(s, s', sid); }
  }

  lemma SimulatesInsertEntry(s: State, sid: nat, id: Uuid)
    ensures Simulates(s, Step(s, InsertEntry(sid, id)), Effective(s, InsertEntry(sid, id)))
  {
    hide Simulates, Missing, Leg;
    var s' := Step(s, InsertEntry(sid, id));
    if s' == s { Idle(s); } else { Undecided(s, s', sid); }
  }

  lemma SimulatesInsertEvent(s: State, sid: nat, id: Uuid)
    ensures Simulates(s, Step(s, InsertEvent(sid, id)), Effective(s, InsertEvent(sid, id)))
  {
    hide Simulates, Missing, CreatedEvent, ResultOf;
    var s' := Step(s, InsertEvent(sid, id));
    if s' == s { Idle(s); } else { Undecided(s, s', sid); }
  }

  lemma SimulatesStoreReply(s: State, sid: nat, reply: Reply)
    ensures Simulates(s, Step(s, StoreReply(sid, reply)), Effective(s, StoreReply(sid, reply)))
  {
    hide Simulates, Missing;
    var s' := Step(s, StoreReply(sid, reply));
    if s' == s { Idle(s); } else { Undecided(s, s', sid); }
  }

  lemma SimulatesAbort(s: State, sid: nat)
    ensures Simulates(s, Step(s, Abort(sid)), Effective(s, Abort(sid)))
  {
    hide Simulates, Missing, ReleaseAll;
    var s' := Step(s, Abort(sid));
    if s' == s { Idle(s); } else { Undecided(s, s', sid); }
  }

  /** Every action keeps the protocol's invariant and every invariant of the tables. */
  lemma StepKeeps(s: State, a: Action)
    requires Good(s)
    ensures Good(Step(s, a))
  {
    StepSimulates(s, a);
    RunKeeps(s.db, Effective(s, a));
    assert Consistent(Step(s, a).db) by { hide Good, Effective, Forward, Answered, Consistent; }
    StepKeepsInv(s, a);
    hide Inv, Consistent, Simulates;
  }

  lemma StepKeepsInv(s: State, a: Action)
    requires Good(s)
    ensures Inv(Step(s, a))
  {
    hide Inv, Step;
    EntriesHaveTransactions(s);
    hide Good;
    match a {
      case Open(_, _, _) => BeginningKeepsInv(s, a);
      case Submit(_, _, _) => BeginningKeepsInv(s, a);
      case ClaimKey(_) => BeginningKeepsInv(s, a);
      case ReadReply(_) => BeginningKeepsInv(s, a);
      case SelectAccounts(_) => LockingKeepsInv(s, a);
      case LockNext(_) => LockingKeepsInv(s, a);
      case CheckAccounts(_) => LockingKeepsInv(s, a);
      case InsertTx(_, _) => InsertingKeepsInv(s, a);
      case InsertEntry(_, _) => InsertingKeepsInv(s, a);
      case ApplyBalances(_) => InsertingKeepsInv(s, a);
      case InsertEvent(_, _) => EndingKeepsInv(s, a);
      case StoreReply(_, _) => EndingKeepsInv(s, a);
      case Commit(_, _) => EndingKeepsInv(s, a);
      case Abort(_) => EndingKeepsInv(s, a);
    }
  }

  lemma BeginningKeepsInv(s: State, a: Action)
    requires Inv(s) && (a.Open? || a.Submit? || a.ClaimKey? || a.ReadReply?)
    ensures Inv(Step(s, a))
  {
    hide Inv, DoOpen, DoSubmit, DoClaimKey;
    match a
    case Open(id, currency, allowNegative) => CommitStep.OpenKeeps(s, id, currency, allowNegative);
    case Submit(sid, cmd, claim) => SubmitKeeps(s, sid, cmd, claim);
    case ClaimKey(sid) => if At(s, sid, Claiming) { ClaimKeyKeeps(s, sid); }
    case ReadReply(sid) => if At(s, sid, Reading) { FinishKeeps(s, sid, DoReadReply(s, sid).sessions[sid].pc.outcome); }
  }

  lemma LockingKeepsInv(s: State, a: Action)
    requires Inv(s) && (a.SelectAccounts? || a.LockNext? || a.CheckAccounts?)
    ensures Inv(Step(s, a))
  {
    hide Inv, DoSelect, DoLockNext, DoCheck;
    match a
    case SelectAccounts(sid) => if At(s, sid, Selecting) { SelectKeeps(s, sid); }
    case LockNext(sid) => if At(s, sid, Locking) { LockNextKeeps(s, sid); }
    case CheckAccounts(sid) => if At(s, sid, Locking) { CheckKeeps(s, sid); }
  }

  lemma InsertingKeepsInv(s: State, a: Action)
    requires Inv(s) && (a.InsertTx? || a.InsertEntry? || a.ApplyBalances?)
    ensures Inv(Step(s, a))
  {
    hide Inv, DoInsertTx, DoInsertEntry, DoApply;
    match a
    case InsertTx(sid, id) => if At(s, sid, InsertingTx) { InsertTxKeeps(s, sid, id); }
    case InsertEntry(sid, id) =>
      if sid in s.sessions && s.sessions[sid].pc.InsertingEntry? { InsertEntryKeeps(s, sid, id); }
    case ApplyBalances(sid) => if At(s, sid, Applying) { ApplyKeeps(s, sid); }
  }

  lemma EndingKeepsInv(s: State, a: Action)
    requires Inv(s) && (a.InsertEvent? || a.StoreReply? || a.Commit? || a.Abort?)
    requires forall e <- s.db.entries :: e.transactionId in s.db.transactions
    ensures Inv(Step(s, a))
  {
    hide Inv, DoInsertEvent, DoStoreReply, DoCommit, Finish;
    match a
    case InsertEvent(sid, id) => if At(s, sid, Emitting) { InsertEventKeeps(s, sid, id); }
    case StoreReply(sid, reply) => if At(s, sid, Storing) { StoreReplyKeeps(s, sid, reply); }
    case Commit(sid, answered) => if At(s, sid, Committing) { CommitKeeps(s, sid, answered); }
    case Abort(sid) => if sid in s.sessions { FinishKeeps(s, sid, Lost); }
  }

  lemma {:induction false} AlwaysGood(schedule: seq<Action>)
    ensures Good(Exec(START, schedule))
  {
    if schedule == [] {
      EmptyIsConsistent();
      StartInv();
      hide Inv, Consistent;
    } else {
      var before := schedule[..|schedule| - 1];
      AlwaysGood(before);
      StepKeeps(Exec(START, before), schedule[|schedule| - 1]);
      hide Good;
    }
  }
}
