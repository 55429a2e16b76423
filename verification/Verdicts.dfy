/**
 * When a transfer is accepted and when it is refused, and with which error, told over the rows of the
 * tables; and what exactly a posting writes.
 */
module Verdicts {
  import opened Wrappers
  import opened Ledger
  import opened Tables
  import opened Sequential

  /** Three capital letters. */
  predicate CurrencyOk(s: string) {
    |s| == 3 && 'A' <= s[0] <= 'Z' && 'A' <= s[1] <= 'Z' && 'A' <= s[2] <= 'Z'
  }

  predicate CommandOk(cmd: TransferCommand) {
    0 < cmd.amount && CurrencyOk(cmd.currency) && cmd.debit != cmd.credit
  }

  predicate AccountsExist(db: Db, cmd: TransferCommand) {
    cmd.debit in db.accounts && cmd.credit in db.accounts
  }

  predicate CurrenciesAgree(db: Db, cmd: TransferCommand)
    requires AccountsExist(db, cmd)
  {
    db.accounts[cmd.debit].currency == cmd.currency && db.accounts[cmd.credit].currency == cmd.currency
  }

  /** The credited account funds the transfer, or may go below zero. */
  predicate Funded(db: Db, cmd: TransferCommand)
    requires AccountsExist(db, cmd)
  {
    db.accounts[cmd.credit].allowNegative || cmd.amount <= db.accounts[cmd.credit].balance
  }

  /** Both new balances are bigints. */
  predicate Representable(db: Db, cmd: TransferCommand)
    requires AccountsExist(db, cmd)
  {
    && -0x8000_0000_0000_0000 <= db.accounts[cmd.debit].balance + cmd.amount <= 0x7FFF_FFFF_FFFF_FFFF
    && -0x8000_0000_0000_0000 <= db.accounts[cmd.credit].balance - cmd.amount <= 0x7FFF_FFFF_FFFF_FFFF
  }

  ghost predicate RefIsFree(db: Db, cmd: TransferCommand) {
    cmd.externalRef.Some? ==> forall t :: t in db.transactions ==> db.transactions[t].externalRef != cmd.externalRef
  }

  /** All that a transfer needs from the tables. */
  ghost predicate Acceptable(db: Db, cmd: TransferCommand, claim: Claim) {
    && CommandOk(cmd) && claim.id !in db.keys
    && AccountsExist(db, cmd) && CurrenciesAgree(db, cmd) && Funded(db, cmd)
    && RefIsFree(db, cmd) && Representable(db, cmd)
  }

  ghost predicate IdsAreFree(db: Db, v: Supply) {
    && v.txId !in db.transactions && v.eventId !in db.events && v.debitEntry != v.creditEntry
    && forall e <- db.entries :: e.id != v.debitEntry && e.id != v.creditEntry
  }

  lemma CurrencyMeaning(s: string)
    ensures ValidCurrency(s) <==> CurrencyOk(s)
  {
    if CurrencyOk(s) {
      forall c | c in s ensures 'A' <= c <= 'Z' {
        var i :| 0 <= i < |s| && s[i] == c;
        assert i == 0 || i == 1 || i == 2;
      }
    } else if |s| == 3 {
      assert s[0] in s && s[1] in s && s[2] in s;
    }
  }

  lemma SameMeaning(db: Db, cmd: TransferCommand, v: Supply)
    ensures ValidCurrency(cmd.currency) <==> CurrencyOk(cmd.currency)
    ensures IdsAreFree(db, v) <==> FreshSupply(db, v)
    ensures RefIsFree(db, cmd) <==> (cmd.externalRef.Some? ==> !RefUsed(db, cmd.externalRef.value))
  {
    forall e | e in db.entries && FreshSupply(db, v) ensures e.id != v.debitEntry && e.id != v.creditEntry {
      var i :| 0 <= i < |db.entries| && db.entries[i] == e;
      assert HasEntryId(db.entries, e.id);
    }
    CurrencyMeaning(cmd.currency);
  }

  /** A transfer posts exactly when the tables allow it: neither more nor less is accepted. */
  lemma PostsExactlyWhen(db: Db, cmd: TransferCommand, claim: Claim, v: Supply)
    ensures Answer(db, cmd, claim, v).Posted? <==> Acceptable(db, cmd, claim) && IdsAreFree(db, v)
  {
    SameMeaning(db, cmd, v);
    hide ValidCurrency, CurrencyOk, FreshSupply, IdsAreFree, RefUsed, RefIsFree;
  }

  /** Errors of the command itself come first, in this order. */
  lemma CommandRefusedExactlyWhen(db: Db, cmd: TransferCommand, claim: Claim, v: Supply)
    ensures var o := Answer(db, cmd, claim, v);
            && (o == Rejected(InvalidAmount) <==> cmd.amount <= 0)
            && (o == Rejected(InvalidCurrency) <==> cmd.amount > 0 && !CurrencyOk(cmd.currency))
            && (o == Rejected(SameAccount) <==>
                  cmd.amount > 0 && CurrencyOk(cmd.currency) && cmd.debit == cmd.credit)
  {
    SameMeaning(db, cmd, v);
    hide ValidCurrency, CurrencyOk, FreshSupply, RefUsed;
  }

  /** Then the key decides, whatever the accounts are: replay, reuse, or a row without a reply. */
  lemma KeyDecidesExactlyWhen(db: Db, cmd: TransferCommand, claim: Claim, v: Supply, reply: Reply)
    ensures var o := Answer(db, cmd, claim, v);
            var taken := CommandOk(cmd) && claim.id in db.keys;
            && (o == Rejected(IdempotencyKeyReuse) <==> taken && db.keys[claim.id].hash != claim.fingerprint)
            && (o == Replayed(reply) <==>
                  taken && db.keys[claim.id].hash == claim.fingerprint && db.keys[claim.id].reply == Some(reply))
            && (o == Rejected(MissingStoredReply) <==>
                  taken && db.keys[claim.id].hash == claim.fingerprint && db.keys[claim.id].reply == None)
  {
    SameMeaning(db, cmd, v);
    hide ValidCurrency, CurrencyOk, FreshSupply, RefUsed;
  }

  /** Then the accounts: the debited one is named first if both are missing. */
  lemma AccountsRefusedExactlyWhen(db: Db, cmd: TransferCommand, claim: Claim, v: Supply, id: Uuid, holds: int, needs: int)
    ensures var o := Answer(db, cmd, claim, v);
            var claimed := CommandOk(cmd) && claim.id !in db.keys;
            && (o == Rejected(AccountNotFound(id)) <==>
                  claimed && id !in db.accounts
                  && (id == cmd.debit || (id == cmd.credit && cmd.debit in db.accounts)))
            && (o == Rejected(CurrencyMismatch) <==> claimed && AccountsExist(db, cmd) && !CurrenciesAgree(db, cmd))
            && (o == Rejected(InsufficientFunds(holds, needs)) <==>
                  claimed && AccountsExist(db, cmd) && CurrenciesAgree(db, cmd) && !Funded(db, cmd)
                  && holds == db.accounts[cmd.credit].balance && needs == cmd.amount)
  {
    SameMeaning(db, cmd, v);
    hide ValidCurrency, CurrencyOk, FreshSupply, RefUsed;
  }

  /** Last, what the insert and the update run into; the backstops of the schema are never answered. */
  lemma WritesRefusedExactlyWhen(db: Db, cmd: TransferCommand, claim: Claim, v: Supply)
    ensures var o := Answer(db, cmd, claim, v);
            var checked := CommandOk(cmd) && claim.id !in db.keys
                           && AccountsExist(db, cmd) && CurrenciesAgree(db, cmd) && Funded(db, cmd);
            && (o == Rejected(DuplicateExternalRef) <==> checked && !RefIsFree(db, cmd))
            && (o == Rejected(BalanceOutOfRange) <==> checked && RefIsFree(db, cmd) && !Representable(db, cmd))
            && (o == Rejected(DuplicateId) <==> Acceptable(db, cmd, claim) && !IdsAreFree(db, v))
            && o != Rejected(FloorBreached) && o != Rejected(UnbalancedTransaction) && o != Lost
  {
    SameMeaning(db, cmd, v);
    hide ValidCurrency, CurrencyOk, FreshSupply, IdsAreFree, RefUsed, RefIsFree;
  }

  /** The accounts after money has moved from the credited to the debited one. */
  ghost predicate MoneyMoved(before: map<Uuid, Account>, cmd: TransferCommand, after: map<Uuid, Account>) {
    && after.Keys == before.Keys && cmd.debit in before && cmd.credit in before
    && after[cmd.debit].balance == before[cmd.debit].balance + cmd.amount
    && after[cmd.credit].balance == before[cmd.credit].balance - cmd.amount
    && (forall a :: a in before ==>
          after[a].currency == before[a].currency && after[a].allowNegative == before[a].allowNegative)
    && (forall a :: a in before && a != cmd.debit && a != cmd.credit ==> after[a] == before[a])
  }

  /** The event of a new transaction, field by field. */
  ghost predicate EventTellsCommand(e: EventRow, t: Uuid, cmd: TransferCommand) {
    && e.aggregateType == "transaction" && e.aggregateId == t
    && e.eventType == "ledger.transaction.created" && e.schemaVersion == 1
    && e.payload.transactionId == t && e.payload.currency == cmd.currency
    && e.payload.externalRef == cmd.externalRef && e.payload.description == cmd.description
    && e.payload.entries
       == [EntryPayload(cmd.debit, Debit, cmd.amount), EntryPayload(cmd.credit, Credit, cmd.amount)]
  }

  /** Everything a posting writes: nothing is missing from the tables afterwards, and nothing else is in them. */
  ghost predicate Written(before: Db, cmd: TransferCommand, claim: Claim, v: Supply, after: Db) {
    && MoneyMoved(before.accounts, cmd, after.accounts)
    && after.transactions == before.transactions[v.txId := TxRow(cmd.externalRef, cmd.description, cmd.currency)]
    && after.entries == before.entries + [
         Entry(v.debitEntry, v.txId, cmd.debit, Debit, cmd.amount, cmd.currency),
         Entry(v.creditEntry, v.txId, cmd.credit, Credit, cmd.amount, cmd.currency)]
    && after.keys == before.keys[claim.id := KeyRow(claim.fingerprint, Some(v.reply), Some(v.txId))]
    && after.events.Keys == before.events.Keys + {v.eventId}
    && (forall e :: e in before.events && e != v.eventId ==> after.events[e] == before.events[e])
    && EventTellsCommand(after.events[v.eventId], v.txId, cmd)
  }

  lemma PostingWrites(db: Db, op: Op)
    requires Posts(db, op)
    ensures Written(db, op.cmd, op.claim, op.supply, Effect(db, op))
  {
    PostsExactlyWhen(db, op.cmd, op.claim, op.supply);
    PostWrites(db, op.cmd, op.claim, op.supply);
    hide Answer, Post, Written, Acceptable, IdsAreFree;
    assert AccountsExist(db, op.cmd) && op.cmd.debit != op.cmd.credit;
  }

  lemma PostWrites(db: Db, cmd: TransferCommand, claim: Claim, v: Supply)
    requires AccountsExist(db, cmd) && cmd.debit != cmd.credit
    ensures Written(db, cmd, claim, v, Post(db, cmd, claim, v))
  {
    var legs := TransferEntries(cmd, v);
    var e := CreatedEvent(TransferTransaction(cmd, v));
    assert EntryPayloads(legs)
      == [EntryPayload(cmd.debit, Debit, cmd.amount), EntryPayload(cmd.credit, Credit, cmd.amount)];
    assert EventTellsCommand(e, v.txId, cmd);
    hide EntryPayloads, CreatedEvent, EventTellsCommand;
  }

  lemma OtherwiseNothing(db: Db, op: Op)
    requires op.Transfer? && !Posts(db, op)
    ensures Effect(db, op) == db
  {
  }
}
