/** Where the money went: balances are the sums of what the posted transfers moved, debit up, credit down. */
module Movements {
  import opened Wrappers
  import opened Ledger
  import opened Tables
  import opened Sequential
  import opened Protocol
  import opened Linearizability
  import opened Conservation
  import opened Verdicts

  /** What one transfer moves into an account. */
  function Delta(cmd: TransferCommand, account: Uuid): int {
    (if cmd.debit == account then cmd.amount else 0) - (if cmd.credit == account then cmd.amount else 0)
  }

  /** What the posted transfers among these operations moved into an account. */
  ghost function Moved(ops: seq<Op>, account: Uuid): int {
    if ops == [] then 0
    else
      var init, op := ops[..|ops| - 1], ops[|ops| - 1];
      Moved(init, account) + if Posts(Run(EMPTY_DB, init), op) then Delta(op.cmd, account) else 0
  }

  lemma EffectMoves(db: Db, op: Op, account: Uuid)
    ensures var db' := Effect(db, op);
            && (account in db.accounts ==>
                  account in db'.accounts
                  && db'.accounts[account].balance
                     == db.accounts[account].balance + if Posts(db, op) then Delta(op.cmd, account) else 0)
            && (account !in db.accounts && account in db'.accounts ==>
                  db'.accounts[account].balance == 0 && !Posts(db, op))
            && (account !in db'.accounts ==> !Posts(db, op) || Delta(op.cmd, account) == 0)
  {
    hide RefUsed, FreshSupply, BalancesInRange, CreatedEvent, ValidCurrency;
  }

  /** An account holds exactly what the posted transfers moved there; nothing moves to one not yet open. */
  lemma {:induction false} BalanceIsWhatMoved(ops: seq<Op>, account: Uuid)
    ensures var accounts := Run(EMPTY_DB, ops).accounts;
            Moved(ops, account) == if account in accounts then accounts[account].balance else 0
  {
    if ops != [] {
      hide Effect, Posts, Delta;
      var init := ops[..|ops| - 1];
      BalanceIsWhatMoved(init, account);
      EffectMoves(Run(EMPTY_DB, init), ops[|ops| - 1], account);
    }
  }

  /** The same of the committed tables after any interleaving. */
  lemma CommittedBalanceIsWhatMoved(schedule: seq<Action>, account: Uuid)
    requires account in Exec(START, schedule).db.accounts
    ensures Exec(START, schedule).db.accounts[account].balance == Moved(History(schedule), account)
  {
    hide Exec, History, Run, Moved, AnswersAgree, AtMostOnceEach;
    Linearizable(schedule);
    BalanceIsWhatMoved(History(schedule), account);
  }

  /** A key reused with another fingerprint, and any other answer than a fresh posting, changes no table. */
  lemma OnlyPostingWrites(db: Db, op: Op)
    requires op.Transfer? && Effect(db, op) != db
    ensures Answer(db, op.cmd, op.claim, op.supply).Posted?
    ensures op.claim.id !in db.keys && Validate(op.cmd) == None
    ensures AccountsVerdict(db.accounts, op.cmd) == None
  {
    hide RefUsed, FreshSupply, BalancesInRange, Post, AccountsVerdict, Validate;
  }

  // ---------- accounts ----------

  /** Opening an account: as asked for, empty, and nothing else changes; refused if malformed or taken. */
  ghost predicate Opened(before: Db, id: Uuid, currency: string, allowNegative: bool, after: Db) {
    if CurrencyOk(currency) && id !in before.accounts then
      && after.accounts.Keys == before.accounts.Keys + {id}
      && after.accounts[id].currency == currency && after.accounts[id].allowNegative == allowNegative
      && after.accounts[id].balance == 0
      && (forall a :: a in before.accounts ==> after.accounts[a] == before.accounts[a])
      && after == before.(accounts := after.accounts)
    else after == before
  }

  lemma OpensAsAsked(s: State, id: Uuid, currency: string, allowNegative: bool)
    ensures Opened(s.db, id, currency, allowNegative, Step(s, Open(id, currency, allowNegative)).db)
    ensures Opened(s.db, id, currency, allowNegative, Effect(s.db, OpenAccount(id, currency, allowNegative)))
  {
    CurrencyMeaning(currency);
    hide ValidCurrency, CurrencyOk;
  }

  /** No later run changes the currency of an account, or whether it may go below zero. */
  lemma TermsStay(schedule: seq<Action>, more: seq<Action>, a: Uuid)
    requires a in Exec(START, schedule).db.accounts
    ensures a in Exec(START, schedule + more).db.accounts
    ensures var x, y := Exec(START, schedule).db.accounts[a], Exec(START, schedule + more).db.accounts[a];
            y.currency == x.currency && y.allowNegative == x.allowNegative
  {
    hide Exec, History, Run, AnswersAgree, AtMostOnceEach;
    assert (schedule + more)[..|schedule|] == schedule;
    HistoryGrows(schedule + more, |schedule|);
    Linearizable(schedule);
    Linearizable(schedule + more);
    var h, h' := History(schedule), History(schedule + more);
    assert h'[..|h|] == h;
    RunExtends(EMPTY_DB, h', |h|);
  }

  /** In every reachable state a balance is a bigint, and negative only where that is allowed. */
  lemma NeverOverdrawn(schedule: seq<Action>, a: Uuid)
    requires a in Exec(START, schedule).db.accounts
    ensures var x := Exec(START, schedule).db.accounts[a];
            && (x.balance < 0 ==> x.allowNegative)
            && -0x8000_0000_0000_0000 <= x.balance <= 0x7FFF_FFFF_FFFF_FFFF
  {
    CommittedTablesConsistent(schedule);
    hide Exec, EntriesWellFormed, MoneyConserved, RefsUnique, KeysMatchTransactions, EventsMatchTransactions;
  }
}
