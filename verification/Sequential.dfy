/**
 * The reference ledger: every request is one indivisible operation on the committed tables. The
 * concurrent protocol is proved to behave like a run of these operations.
 */
module Sequential {
  import opened Wrappers
  import opened Ledger
  import opened Tables

  datatype Outcome =
    | Posted(reply: Reply, transaction: Transaction)  // work done now
    | Replayed(reply: Reply)                          // answered from the stored response
    | Rejected(error: LedgerError)
    | Lost                                            // aborted, or the commit's answer never arrived

  /** What a transfer obtains from outside: generated identifiers and the rendered response. */
  datatype Supply = Supply(txId: Uuid, debitEntry: Uuid, creditEntry: Uuid, eventId: Uuid, reply: Reply)

  datatype Op =
    | OpenAccount(id: Uuid, currency: string, allowNegative: bool)
    | Transfer(sid: nat, cmd: TransferCommand, claim: Claim, supply: Supply)

  function TransferEntries(cmd: TransferCommand, s: Supply): (r: seq<Entry>)
    ensures |r| == 2
  {
    [Entry(s.debitEntry, s.txId, cmd.debit, Debit, cmd.amount, cmd.currency),
     Entry(s.creditEntry, s.txId, cmd.credit, Credit, cmd.amount, cmd.currency)]
  }

  function TransferTransaction(cmd: TransferCommand, s: Supply): Transaction {
    Transaction(s.txId, cmd.externalRef, cmd.description, cmd.currency, TransferEntries(cmd, s))
  }

  function StoredAnswer(row: KeyRow, claim: Claim): Outcome {
    if row.hash != claim.fingerprint then Rejected(IdempotencyKeyReuse)
    else match row.reply
      case None => Rejected(MissingStoredReply)
      case Some(reply) => Replayed(reply)
  }

  ghost predicate FreshSupply(db: Db, s: Supply) {
    && s.txId !in db.transactions
    && s.eventId !in db.events
    && s.debitEntry != s.creditEntry
    && !HasEntryId(db.entries, s.debitEntry)
    && !HasEntryId(db.entries, s.creditEntry)
  }

  /** The rules that need the two accounts, in the order the service applies them. */
  function AccountsVerdict(accounts: map<Uuid, Account>, cmd: TransferCommand): (r: Option<LedgerError>)
    ensures r == None ==> cmd.debit in accounts && cmd.credit in accounts
  {
    if cmd.debit !in accounts then Some(AccountNotFound(cmd.debit))
    else if cmd.credit !in accounts then Some(AccountNotFound(cmd.credit))
    else
      var debit, credit := accounts[cmd.debit], accounts[cmd.credit];
      if debit.currency != cmd.currency || credit.currency != cmd.currency then Some(CurrencyMismatch)
      else if !credit.allowNegative && credit.balance < cmd.amount then
        Some(InsufficientFunds(credit.balance, cmd.amount))
      else None
  }

  predicate BalancesInRange(accounts: map<Uuid, Account>, cmd: TransferCommand)
    requires cmd.debit in accounts && cmd.credit in accounts
  {
    InInt64(accounts[cmd.debit].balance + cmd.amount) && InInt64(accounts[cmd.credit].balance - cmd.amount)
  }

  /** The answer to one request executed alone on `db`. */
  ghost function Answer(db: Db, cmd: TransferCommand, claim: Claim, s: Supply): Outcome {
    if Validate(cmd).Some? then Rejected(Validate(cmd).value)
    else if claim.id in db.keys then StoredAnswer(db.keys[claim.id], claim)
    else if AccountsVerdict(db.accounts, cmd).Some? then Rejected(AccountsVerdict(db.accounts, cmd).value)
    else if cmd.externalRef.Some? && RefUsed(db, cmd.externalRef.value) then Rejected(DuplicateExternalRef)
    else if !BalancesInRange(db.accounts, cmd) then Rejected(BalanceOutOfRange)
    else if !FreshSupply(db, s) then Rejected(DuplicateId)
    else Posted(s.reply, TransferTransaction(cmd, s))
  }

  /** The tables after a request that posts. */
  function Post(db: Db, cmd: TransferCommand, claim: Claim, s: Supply): Db
    requires cmd.debit in db.accounts && cmd.credit in db.accounts
  {
    var debit, credit := db.accounts[cmd.debit], db.accounts[cmd.credit];
    Db(db.accounts[cmd.debit := debit.(balance := debit.balance + cmd.amount)]
                  [cmd.credit := credit.(balance := credit.balance - cmd.amount)],
       db.transactions[s.txId := TxRow(cmd.externalRef, cmd.description, cmd.currency)],
       db.entries + TransferEntries(cmd, s),
       db.keys[claim.id := KeyRow(claim.fingerprint, Some(s.reply), Some(s.txId))],
       db.events[s.eventId := CreatedEvent(TransferTransaction(cmd, s))])
  }

  ghost predicate Posts(db: Db, op: Op) {
    op.Transfer? && Answer(db, op.cmd, op.claim, op.supply).Posted?
  }

  /** The tables after one operation. A new account starts at zero. */
  ghost function Effect(db: Db, op: Op): Db {
    match op
    case OpenAccount(id, currency, allowNegative) =>
      if ValidCurrency(currency) && id !in db.accounts then
        db.(accounts := db.accounts[id := Account(currency, 0, allowNegative)])
      else db
    case Transfer(_, cmd, claim, s) =>
      if Posts(db, op) then Post(db, cmd, claim, s) else db
  }

  /** The tables after a sequence of operations. */
  ghost function Run(db: Db, ops: seq<Op>): Db {
    if ops == [] then db
    else Effect(Run(db, ops[..|ops| - 1]), ops[|ops| - 1])
  }

  /** The answer given to operation i of a sequence. */
  ghost function AnswerAt(db: Db, ops: seq<Op>, i: nat): Outcome
    requires i < |ops| && ops[i].Transfer?
  {
    Answer(Run(db, ops[..i]), ops[i].cmd, ops[i].claim, ops[i].supply)
  }
}
