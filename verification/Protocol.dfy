/**
 * Store.Transfer statement by statement, under READ COMMITTED with row and index-tuple locks. Every
 * statement reads the committed tables plus its own transaction's private writes; a statement that
 * would wait for a lock leaves the state unchanged. A schedule is any sequence of actions, so it is
 * any interleaving of any number of requests, with aborts anywhere.
 */
module Protocol {
  import opened Wrappers
  import opened Ledger
  import opened Tables
  import opened Sequential
  import opened LockOrder

  /** The statement a session executes next. */
  datatype Pc =
    | Claiming                    // INSERT INTO idempotency_keys ... ON CONFLICT DO NOTHING
    | Reading                     // SELECT the stored response of a key someone else owns
    | Selecting                   // SELECT ... FOR UPDATE starts: which accounts exist is decided here
    | Locking                     // ... and takes its row locks one by one
    | InsertingTx
    | InsertingEntry(leg: nat)
    | Applying                    // UPDATE accounts SET balance = ...
    | Emitting                    // INSERT INTO outbox_events
    | Storing                     // UPDATE idempotency_keys SET response_status = ...
    | Committing
    | Done(outcome: Outcome)

  /** A database transaction's uncommitted writes. */
  datatype Work = Work(
    transactions: map<Uuid, TxRow>,
    entries: seq<Entry>,
    balances: map<Uuid, int>,
    keys: map<KeyId, KeyRow>,
    events: map<Uuid, EventRow>)

  const NO_WORK := Work(map[], [], map[], map[], map[])

  /** One call of Store.Transfer: its arguments, its local variables and its open transaction. */
  datatype Session = Session(
    cmd: TransferCommand,
    claim: Claim,
    pc: Pc,
    todo: seq<Uuid>,              // rows the locking SELECT has yet to lock
    found: map<Uuid, Account>,    // rows it has locked and read
    supply: Supply,               // identifiers generated and response rendered so far
    work: Work)

  /** `minted` remembers which session generated each identifier: uuid.New() never repeats one. */
  datatype State = State(
    db: Db,
    sessions: map<nat, Session>,
    locks: Locks,
    minted: map<Uuid, nat>)

  datatype Action =
    | Open(id: Uuid, currency: string, allowNegative: bool)
    | Submit(sid: nat, cmd: TransferCommand, claim: Claim)
    | ClaimKey(sid: nat)
    | ReadReply(sid: nat)
    | SelectAccounts(sid: nat)
    | LockNext(sid: nat)
    | CheckAccounts(sid: nat)
    | InsertTx(sid: nat, id: Uuid)
    | InsertEntry(sid: nat, id: Uuid)
    | ApplyBalances(sid: nat)
    | InsertEvent(sid: nat, id: Uuid)
    | StoreReply(sid: nat, reply: Reply)
    | Commit(sid: nat, answered: bool)
    | Abort(sid: nat)

  const NO_SUPPLY := Supply(0, 0, 0, 0, Reply(0, []))

  predicate At(s: State, sid: nat, pc: Pc) {
    sid in s.sessions && s.sessions[sid].pc == pc
  }

  function Goto(s: State, sid: nat, x: Session): State {
    s.(sessions := s.sessions[sid := x])
  }

  /** Commit and rollback alike end the transaction: its locks are released, its writes are gone. */
  function Finish(s: State, sid: nat, outcome: Outcome): State
    requires sid in s.sessions
  {
    Goto(s, sid, s.sessions[sid].(pc := Done(outcome), todo := [], found := map[], work := NO_WORK))
      .(locks := ReleaseAll(s.locks, sid))
  }

  /** Service.Transfer validates before anything is claimed. */
  function DoSubmit(s: State, sid: nat, cmd: TransferCommand, claim: Claim): State {
    if sid in s.sessions then s
    else
      var pc := match Validate(cmd) case None => Claiming case Some(e) => Done(Rejected(e));
      Goto(s, sid, Session(cmd, claim, pc, [], map[], NO_SUPPLY, NO_WORK))
  }

  function DoClaimKey(s: State, sid: nat): State
    requires At(s, sid, Claiming)
  {
    var x := s.sessions[sid];
    var k := x.claim.id;
    if k in s.db.keys then Goto(s, sid, x.(pc := Reading))
    else if !Available(s.locks, KeyTuple(k), sid) then s
    else
      Goto(s, sid, x.(pc := Selecting, work := NO_WORK.(keys := map[k := KeyRow(x.claim.fingerprint, None, None)])))
        .(locks := s.locks[KeyTuple(k) := sid])
  }

  function DoReadReply(s: State, sid: nat): State
    requires At(s, sid, Reading)
  {
    var x := s.sessions[sid];
    if x.claim.id !in s.db.keys then Finish(s, sid, Rejected(MissingStoredReply))
    else Finish(s, sid, StoredAnswer(s.db.keys[x.claim.id], x.claim))
  }

  /** ORDER BY id over the requested accounts that exist. */
  function ExistingInOrder(accounts: map<Uuid, Account>, cmd: TransferCommand): seq<Uuid> {
    var low := if cmd.debit <= cmd.credit then cmd.debit else cmd.credit;
    var high := if cmd.debit <= cmd.credit then cmd.credit else cmd.debit;
    (if low in accounts then [low] else []) + (if high in accounts && high != low then [high] else [])
  }

  function DoSelect(s: State, sid: nat): State
    requires At(s, sid, Selecting)
  {
    var x := s.sessions[sid];
    Goto(s, sid, x.(pc := Locking, todo := ExistingInOrder(s.db.accounts, x.cmd)))
  }

  /** Wait for the next row, then read its latest committed version. */
  function DoLockNext(s: State, sid: nat): State
    requires At(s, sid, Locking)
  {
    var x := s.sessions[sid];
    if x.todo == [] || x.todo[0] !in s.db.accounts || !Available(s.locks, AccountRow(x.todo[0]), sid) then s
    else
      var id := x.todo[0];
      Goto(s, sid, x.(todo := x.todo[1..], found := x.found[id := s.db.accounts[id]]))
        .(locks := s.locks[AccountRow(id) := sid])
  }

  function DoCheck(s: State, sid: nat): State
    requires At(s, sid, Locking)
  {
    var x := s.sessions[sid];
    if x.todo != [] then s
    else match AccountsVerdict(x.found, x.cmd)
      case Some(e) => Finish(s, sid, Rejected(e))
      case None => Goto(s, sid, x.(pc := InsertingTx))
  }

  function DoInsertTx(s: State, sid: nat, id: Uuid): State
    requires At(s, sid, InsertingTx)
  {
    var x := s.sessions[sid];
    var ref := x.cmd.externalRef;
    if id in s.minted then s
    else if ref.Some? && RefUsed(s.db, ref.value) then Finish(s, sid, Rejected(DuplicateExternalRef))
    else if ref.Some? && !Available(s.locks, RefTuple(ref.value), sid) then s
    else
      Goto(s, sid, x.(pc := InsertingEntry(0), supply := x.supply.(txId := id),
                      work := x.work.(transactions := map[id := TxRow(ref, x.cmd.description, x.cmd.currency)])))
        .(locks := if ref.Some? then s.locks[RefTuple(ref.value) := sid] else s.locks,
          minted := s.minted[id := sid])
  }

  /** The two legs in the order they are inserted. */
  function Leg(cmd: TransferCommand, txId: Uuid, leg: nat, id: Uuid): Entry {
    if leg == 0 then Entry(id, txId, cmd.debit, Debit, cmd.amount, cmd.currency)
    else Entry(id, txId, cmd.credit, Credit, cmd.amount, cmd.currency)
  }

  function DoInsertEntry(s: State, sid: nat, id: Uuid): State
    requires sid in s.sessions && s.sessions[sid].pc.InsertingEntry?
  {
    var x := s.sessions[sid];
    var leg := x.pc.leg;
    if id in s.minted then s
    else
      Goto(s, sid, x.(pc := if leg == 0 then InsertingEntry(1) else Applying,
                      supply := if leg == 0 then x.supply.(debitEntry := id) else x.supply.(creditEntry := id),
                      work := x.work.(entries := x.work.entries + [Leg(x.cmd, x.supply.txId, leg, id)])))
        .(minted := s.minted[id := sid])
  }

  /** The new balances, computed from the rows as they are now. */
  function NewBalances(accounts: map<Uuid, Account>, cmd: TransferCommand): map<Uuid, int> {
    map id | id in accounts && id in {cmd.debit, cmd.credit} ::
      if id == cmd.debit then accounts[id].balance + cmd.amount else accounts[id].balance - cmd.amount
  }

  function DoApply(s: State, sid: nat): State
    requires At(s, sid, Applying)
  {
    var x := s.sessions[sid];
    var balances := NewBalances(s.db.accounts, x.cmd);
    if exists id :: id in balances && !InInt64(balances[id]) then Finish(s, sid, Rejected(BalanceOutOfRange))
    else if exists id :: id in balances && id in s.db.accounts
                         && !FloorHolds(s.db.accounts[id].(balance := balances[id])) then
      Finish(s, sid, Rejected(FloorBreached))
    else Goto(s, sid, x.(pc := Emitting, work := x.work.(balances := balances)))
  }

  /** The transaction value writeTransaction returns. */
  function ResultOf(x: Session): Transaction {
    Transaction(x.supply.txId, x.cmd.externalRef, x.cmd.description, x.cmd.currency, x.work.entries)
  }

  function DoInsertEvent(s: State, sid: nat, id: Uuid): State
    requires At(s, sid, Emitting)
  {
    var x := s.sessions[sid];
    if id in s.minted then s
    else
      Goto(s, sid, x.(pc := Storing, supply := x.supply.(eventId := id),
                      work := x.work.(events := map[id := CreatedEvent(ResultOf(x))])))
        .(minted := s.minted[id := sid])
  }

  function DoStoreReply(s: State, sid: nat, reply: Reply): State
    requires At(s, sid, Storing)
  {
    var x := s.sessions[sid];
    var keys := map k | k in x.work.keys ::
      if k == x.claim.id then x.work.keys[k].(reply := Some(reply), transactionId := Some(x.supply.txId))
      else x.work.keys[k];
    Goto(s, sid, x.(pc := Committing, supply := x.supply.(reply := reply), work := x.work.(keys := keys)))
  }

  /** Private writes become the committed state. */
  function Merge(db: Db, w: Work): Db {
    Db(map id | id in db.accounts ::
         if id in w.balances then db.accounts[id].(balance := w.balances[id]) else db.accounts[id],
       db.transactions + w.transactions,
       db.entries + w.entries,
       db.keys + w.keys,
       db.events + w.events)
  }

  /**
   * COMMIT: the deferred trigger runs over every leg of the transaction; then the writes become
   * visible. The answer may still be lost on its way; if it arrives, the service asserts balance.
   */
  function DoCommit(s: State, sid: nat, answered: bool): State
    requires At(s, sid, Committing)
  {
    var x := s.sessions[sid];
    if !TriggerPasses(LegsOf(s.db.entries + x.work.entries, x.supply.txId)) then
      Finish(s, sid, Rejected(UnbalancedTransaction))
    else
      var outcome :=
        if !answered then Lost
        else if WrappedSum(x.work.entries) != 0 then Rejected(UnbalancedTransaction)
        else Posted(x.supply.reply, ResultOf(x));
      Finish(s, sid, outcome).(db := Merge(s.db, x.work))
  }

  function DoOpen(s: State, id: Uuid, currency: string, allowNegative: bool): State {
    if ValidCurrency(currency) && id !in s.db.accounts then
      s.(db := s.db.(accounts := s.db.accounts[id := Account(currency, 0, allowNegative)]))
    else s
  }

  /** One action. An action whose session is elsewhere, or that would wait, changes nothing. */
  function Step(s: State, a: Action): State {
    match a
    case Open(id, currency, allowNegative) => DoOpen(s, id, currency, allowNegative)
    case Submit(sid, cmd, claim) => DoSubmit(s, sid, cmd, claim)
    case ClaimKey(sid) => if At(s, sid, Claiming) then DoClaimKey(s, sid) else s
    case ReadReply(sid) => if At(s, sid, Reading) then DoReadReply(s, sid) else s
    case SelectAccounts(sid) => if At(s, sid, Selecting) then DoSelect(s, sid) else s
    case LockNext(sid) => if At(s, sid, Locking) then DoLockNext(s, sid) else s
    case CheckAccounts(sid) => if At(s, sid, Locking) then DoCheck(s, sid) else s
    case InsertTx(sid, id) => if At(s, sid, InsertingTx) then DoInsertTx(s, sid, id) else s
    case InsertEntry(sid, id) =>
      if sid in s.sessions && s.sessions[sid].pc.InsertingEntry? then DoInsertEntry(s, sid, id) else s
    case ApplyBalances(sid) => if At(s, sid, Applying) then DoApply(s, sid) else s
    case InsertEvent(sid, id) => if At(s, sid, Emitting) then DoInsertEvent(s, sid, id) else s
    case StoreReply(sid, reply) => if At(s, sid, Storing) then DoStoreReply(s, sid, reply) else s
    case Commit(sid, answered) => if At(s, sid, Committing) then DoCommit(s, sid, answered) else s
    case Abort(sid) => if sid in s.sessions && !s.sessions[sid].pc.Done? then Finish(s, sid, Lost) else s
  }

  /** The state after a schedule. */
  function Exec(s: State, schedule: seq<Action>): State {
    if schedule == [] then s
    else Step(Exec(s, schedule[..|schedule| - 1]), schedule[|schedule| - 1])
  }

  const START := State(EMPTY_DB, map[], map[], map[])
}
