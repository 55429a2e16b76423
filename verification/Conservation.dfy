/**
 * What every operation of the reference ledger keeps: balances equal their entries, money is
 * conserved per currency, each transaction has two opposite legs, and transactions, events and
 * completed keys correspond one to one.
 */
module Conservation {
  import opened Wrappers
  import opened Ledger
  import opened Tables
  import opened Sequential
  import opened Sums

  /** Each cached balance is SUM(signed_amount), fits a bigint and respects its floor. */
  ghost predicate BalancesMatchEntries(db: Db) {
    forall a :: a in db.accounts ==>
      && db.accounts[a].balance == SignedTotal(db.entries, a)
      && InInt64(db.accounts[a].balance)
      && FloorHolds(db.accounts[a])
  }

  /** Exactly two legs, opposite and of one positive amount, in the currency of both accounts. */
  ghost predicate TwoOppositeLegs(db: Db, t: Uuid)
    requires t in db.transactions
  {
    var legs := LegsOf(db.entries, t);
    && |legs| == 2
    && legs[0].direction == Debit && legs[1].direction == Credit
    && legs[0].amount == legs[1].amount > 0
    && legs[0].accountId != legs[1].accountId
    && forall i :: 0 <= i < 2 ==>
      && legs[i].currency == db.transactions[t].currency
      && legs[i].accountId in db.accounts
      && db.accounts[legs[i].accountId].currency == db.transactions[t].currency
  }

  predicate DistinctIds(entries: seq<Entry>) {
    forall i, j :: 0 <= i < j < |entries| ==> entries[i].id != entries[j].id
  }

  ghost predicate EntriesWellFormed(db: Db) {
    && (forall e <- db.entries :: e.transactionId in db.transactions && e.accountId in db.accounts)
    && DistinctIds(db.entries)
    && (forall t :: t in db.transactions ==> TwoOppositeLegs(db, t))
  }

  /** The contribution of each account to one currency's total. */
  ghost function InCurrency(accounts: map<Uuid, Account>, currency: string): map<nat, int> {
    map a | a in accounts :: if accounts[a].currency == currency then accounts[a].balance else 0
  }

  ghost predicate MoneyConserved(db: Db) {
    forall currency :: Sum(InCurrency(db.accounts, currency)) == 0
  }

  ghost predicate RefsUnique(db: Db) {
    forall t, u :: t in db.transactions && u in db.transactions && t != u && db.transactions[t].externalRef.Some?
      ==> db.transactions[t].externalRef != db.transactions[u].externalRef
  }

  ghost predicate KeyRecords(db: Db, k: KeyId, t: Uuid) {
    k in db.keys && db.keys[k].transactionId == Some(t)
  }

  ghost predicate EventRecords(db: Db, e: Uuid, t: Uuid) {
    e in db.events && db.events[e].aggregateId == t
  }

  /** Completed keys and transactions are in one-to-one correspondence. */
  ghost predicate KeysMatchTransactions(db: Db) {
    && (forall k :: k in db.keys ==> db.keys[k].reply.Some? && db.keys[k].transactionId.Some?)
    && (forall k, t :: KeyRecords(db, k, t) ==> t in db.transactions)
    && (forall t :: t in db.transactions ==> exists k :: KeyRecords(db, k, t))
    && (forall k, l, t :: KeyRecords(db, k, t) && KeyRecords(db, l, t) ==> k == l)
  }

  /** What an event says of its transaction: the row's columns, and its legs in posting order. */
  ghost predicate EventTells(e: EventRow, db: Db, t: Uuid)
    requires t in db.transactions
  {
    var row, legs := db.transactions[t], LegsOf(db.entries, t);
    && e.aggregateType == "transaction" && e.aggregateId == t
    && e.eventType == "ledger.transaction.created" && e.schemaVersion == 1
    && e.payload.transactionId == t && e.payload.currency == row.currency
    && e.payload.externalRef == row.externalRef && e.payload.description == row.description
    && |e.payload.entries| == |legs|
    && forall i :: 0 <= i < |legs| ==>
         e.payload.entries[i] == EntryPayload(legs[i].accountId, legs[i].direction, legs[i].amount)
  }

  /** NewTransactionCreated builds just such an event, and no other row would do. */
  lemma CreatedEventTells(e: EventRow, db: Db, t: Uuid)
    requires t in db.transactions
    ensures EventTells(e, db, t) <==> e == CreatedEvent(RowTransaction(db, t))
  {
    var created := CreatedEvent(RowTransaction(db, t));
    if EventTells(e, db, t) {
      assert e.payload.entries == created.payload.entries;
    }
  }

  /** Events and transactions are in one-to-one correspondence, and an event carries its legs. */
  ghost predicate EventsMatchTransactions(db: Db) {
    && (forall e, t :: EventRecords(db, e, t) ==>
      && t in db.transactions
      && EventTells(db.events[e], db, t))
    && (forall t :: t in db.transactions ==> exists e :: EventRecords(db, e, t))
    && (forall e, f, t :: EventRecords(db, e, t) && EventRecords(db, f, t) ==> e == f)
  }

  /** A stored transaction with its legs. */
  ghost function RowTransaction(db: Db, t: Uuid): Transaction
    requires t in db.transactions
  {
    var row := db.transactions[t];
    Transaction(t, row.externalRef, row.description, row.currency, LegsOf(db.entries, t))
  }

  ghost predicate Consistent(db: Db) {
    && BalancesMatchEntries(db)
    && EntriesWellFormed(db)
    && MoneyConserved(db)
    && RefsUnique(db)
    && KeysMatchTransactions(db)
    && EventsMatchTransactions(db)
  }

  lemma EmptyIsConsistent()
    ensures Consistent(EMPTY_DB)
  {
    forall currency ensures Sum(InCurrency(EMPTY_DB.accounts, currency)) == 0 {
      assert InCurrency(EMPTY_DB.accounts, currency).Keys == {};
    }
  }

  lemma OpenKeeps(db: Db, id: Uuid, currency: string, allowNegative: bool)
    requires Consistent(db) && ValidCurrency(currency) && id !in db.accounts
    ensures Consistent(Effect(db, OpenAccount(id, currency, allowNegative)))
  {
    var db' := Effect(db, OpenAccount(id, currency, allowNegative));
    NoEntriesNoTotal(db.entries, id);
    OpenConservesMoney(db, id, currency, allowNegative);
    OpenKeepsLegs(db, db');
    OpenKeepsRecords(db, db');
  }

  lemma OpenConservesMoney(db: Db, id: Uuid, currency: string, allowNegative: bool)
    requires MoneyConserved(db) && id !in db.accounts
    ensures MoneyConserved(db.(accounts := db.accounts[id := Account(currency, 0, allowNegative)]))
  {
    var accounts' := db.accounts[id := Account(currency, 0, allowNegative)];
    forall c ensures Sum(InCurrency(accounts', c)) == 0 {
      SumUpdate(InCurrency(db.accounts, c), id, 0);
      assert InCurrency(accounts', c) == InCurrency(db.accounts, c)[id := 0];
    }
  }

  lemma OpenKeepsLegs(db: Db, db': Db)
    requires EntriesWellFormed(db)
    requires db' == db.(accounts := db'.accounts)
    requires forall a :: a in db.accounts ==> a in db'.accounts && db'.accounts[a] == db.accounts[a]
    ensures EntriesWellFormed(db')
  {
    forall t | t in db'.transactions ensures TwoOppositeLegs(db', t) {
      assert TwoOppositeLegs(db, t);
    }
  }

  lemma OpenKeepsRecords(db: Db, db': Db)
    requires KeysMatchTransactions(db) && EventsMatchTransactions(db)
    requires db' == db.(accounts := db'.accounts)
    ensures KeysMatchTransactions(db') && EventsMatchTransactions(db')
  {
    forall k, t ensures KeyRecords(db', k, t) == KeyRecords(db, k, t) {}
    forall e, t ensures EventRecords(db', e, t) == EventRecords(db, e, t) {}
    forall t | t in db'.transactions ensures RowTransaction(db', t) == RowTransaction(db, t) {}
  }

  lemma {:induction false} NoEntriesNoTotal(entries: seq<Entry>, a: Uuid)
    requires forall i :: 0 <= i < |entries| ==> entries[i].accountId != a
    ensures SignedTotal(entries, a) == 0
  {
    if entries == [] {
    } else {
      NoEntriesNoTotal(entries[..|entries| - 1], a);
    }
  }

  /** The facts a posting rests on. */
  ghost predicate Postable(db: Db, cmd: TransferCommand, claim: Claim, s: Supply) {
    && cmd.amount > 0 && cmd.debit != cmd.credit
    && cmd.debit in db.accounts && cmd.credit in db.accounts
    && db.accounts[cmd.debit].currency == cmd.currency == db.accounts[cmd.credit].currency
    && (db.accounts[cmd.credit].allowNegative || db.accounts[cmd.credit].balance >= cmd.amount)
    && BalancesInRange(db.accounts, cmd)
    && (cmd.externalRef.Some? ==> !RefUsed(db, cmd.externalRef.value))
    && claim.id !in db.keys
    && FreshSupply(db, s)
  }

  lemma PostedMeansPostable(db: Db, cmd: TransferCommand, claim: Claim, s: Supply)
    ensures Answer(db, cmd, claim, s).Posted? ==> Postable(db, cmd, claim, s)
  {
  }

  lemma PostKeepsBalances(db: Db, cmd: TransferCommand, claim: Claim, s: Supply)
    requires BalancesMatchEntries(db) && Postable(db, cmd, claim, s)
    ensures BalancesMatchEntries(Post(db, cmd, claim, s))
  {
    var db' := Post(db, cmd, claim, s);
    var legs := TransferEntries(cmd, s);
    forall a | a in db'.accounts
      ensures db'.accounts[a].balance == SignedTotal(db'.entries, a)
    {
      SignedTotalConcat(db.entries, legs, a);
      TwoEntries(legs[0], legs[1], s.txId, a);
    }
  }

  lemma PostKeepsEntries(db: Db, cmd: TransferCommand, claim: Claim, s: Supply)
    requires EntriesWellFormed(db) && Postable(db, cmd, claim, s)
    ensures EntriesWellFormed(Post(db, cmd, claim, s))
  {
    var db' := Post(db, cmd, claim, s);
    forall t | t in db'.transactions ensures TwoOppositeLegs(db', t) {
      PostLegs(db, cmd, claim, s, t);
      if t != s.txId {
        assert TwoOppositeLegs(db, t);
      }
    }
    PostKeepsEntryRows(db, cmd, claim, s);
  }

  lemma PostKeepsEntryRows(db: Db, cmd: TransferCommand, claim: Claim, s: Supply)
    requires EntriesWellFormed(db) && Postable(db, cmd, claim, s)
    ensures forall e <- Post(db, cmd, claim, s).entries ::
      e.transactionId in Post(db, cmd, claim, s).transactions && e.accountId in db.accounts
    ensures DistinctIds(Post(db, cmd, claim, s).entries)
  {
    forall e <- Post(db, cmd, claim, s).entries
      ensures e.transactionId in Post(db, cmd, claim, s).transactions && e.accountId in db.accounts
    {
      if e in db.entries {
      } else {
        assert e in TransferEntries(cmd, s);
      }
    }
  }

  /** A posting adds its own legs and touches nobody else's. */
  lemma PostLegs(db: Db, cmd: TransferCommand, claim: Claim, s: Supply, t: Uuid)
    requires EntriesWellFormed(db) && Postable(db, cmd, claim, s)
    ensures LegsOf(Post(db, cmd, claim, s).entries, t) ==
            if t == s.txId then TransferEntries(cmd, s) else LegsOf(db.entries, t)
  {
    var legs := TransferEntries(cmd, s);
    LegsOfConcat(db.entries, legs, t);
    TwoEntries(legs[0], legs[1], t, cmd.debit);
    if t == s.txId {
      NoLegs(db.entries, t);
    }
  }

  lemma PostConservesMoney(db: Db, cmd: TransferCommand, claim: Claim, s: Supply)
    requires MoneyConserved(db) && Postable(db, cmd, claim, s)
    ensures MoneyConserved(Post(db, cmd, claim, s))
  {
    var db' := Post(db, cmd, claim, s);
    forall currency ensures Sum(InCurrency(db'.accounts, currency)) == 0 {
      var delta: int := if currency == cmd.currency then cmd.amount else 0;
      var f := InCurrency(db.accounts, currency);
      assert InCurrency(db'.accounts, currency)
          == f[cmd.debit := f[cmd.debit] + delta][cmd.credit := f[cmd.credit] - delta];
      SumShift(f, cmd.debit, cmd.credit, delta);
    }
  }

  lemma SumShift(f: map<nat, int>, a: nat, b: nat, delta: int)
    requires a in f && b in f && a != b
    ensures Sum(f[a := f[a] + delta][b := f[b] - delta]) == Sum(f)
  {
    SumUpdate(f, a, f[a] + delta);
    SumUpdate(f[a := f[a] + delta], b, f[b] - delta);
  }

  lemma PostKeepsKeys(db: Db, cmd: TransferCommand, claim: Claim, s: Supply)
    requires KeysMatchTransactions(db) && Postable(db, cmd, claim, s)
    ensures KeysMatchTransactions(Post(db, cmd, claim, s))
  {
    var db' := Post(db, cmd, claim, s);
    forall k, t
      ensures KeyRecords(db', k, t) <==> (if k == claim.id then t == s.txId else KeyRecords(db, k, t))
    {}
    forall t | t in db'.transactions ensures exists k :: KeyRecords(db', k, t) {
      if t == s.txId {
        assert KeyRecords(db', claim.id, t);
      } else {
        var k :| KeyRecords(db, k, t);
        assert KeyRecords(db', k, t);
      }
    }
  }

  lemma PostKeepsRefs(db: Db, cmd: TransferCommand, claim: Claim, s: Supply)
    requires RefsUnique(db) && Postable(db, cmd, claim, s)
    ensures RefsUnique(Post(db, cmd, claim, s))
  {
  }

  lemma PostEventRecords(db: Db, cmd: TransferCommand, claim: Claim, s: Supply, e: Uuid, t: Uuid)
    requires EventsMatchTransactions(db) && Postable(db, cmd, claim, s)
    ensures EventRecords(Post(db, cmd, claim, s), e, t)
       <==> if e == s.eventId then t == s.txId else EventRecords(db, e, t)
  {
  }

  lemma PostKeepsPayload(db: Db, cmd: TransferCommand, claim: Claim, s: Supply, e: Uuid, t: Uuid)
    requires EntriesWellFormed(db) && EventsMatchTransactions(db) && Postable(db, cmd, claim, s)
    requires EventRecords(Post(db, cmd, claim, s), e, t)
    ensures t in Post(db, cmd, claim, s).transactions
    ensures EventTells(Post(db, cmd, claim, s).events[e], Post(db, cmd, claim, s), t)
  {
    hide EventTells, CreatedEvent;
    PostLegs(db, cmd, claim, s, t);
    PostEventRecords(db, cmd, claim, s, e, t);
    CreatedEventTells(Post(db, cmd, claim, s).events[e], Post(db, cmd, claim, s), t);
    if e == s.eventId {
      assert RowTransaction(Post(db, cmd, claim, s), t) == TransferTransaction(cmd, s);
    } else {
      assert EventRecords(db, e, t);
      CreatedEventTells(db.events[e], db, t);
      assert RowTransaction(Post(db, cmd, claim, s), t) == RowTransaction(db, t);
    }
  }

  lemma PostKeepsEvents(db: Db, cmd: TransferCommand, claim: Claim, s: Supply)
    requires EntriesWellFormed(db) && EventsMatchTransactions(db) && Postable(db, cmd, claim, s)
    ensures EventsMatchTransactions(Post(db, cmd, claim, s))
  {
    hide EventTells, CreatedEvent, EntriesWellFormed, RefUsed, BalancesInRange, HasEntryId;
    var db' := Post(db, cmd, claim, s);
    forall e, t
      ensures EventRecords(db', e, t) <==> (if e == s.eventId then t == s.txId else EventRecords(db, e, t))
      ensures EventRecords(db', e, t) ==>
        t in db'.transactions && EventTells(db'.events[e], db', t)
    {
      PostEventRecords(db, cmd, claim, s, e, t);
      if EventRecords(db', e, t) {
        PostKeepsPayload(db, cmd, claim, s, e, t);
      }
    }
    forall t | t in db'.transactions ensures exists e :: EventRecords(db', e, t) {
      if t == s.txId {
        assert EventRecords(db', s.eventId, t);
      } else {
        var e :| EventRecords(db, e, t);
        assert EventRecords(db', e, t);
      }
    }
  }

  /** Every operation of the reference ledger keeps every table invariant. */
  lemma EffectKeeps(db: Db, op: Op)
    requires Consistent(db)
    ensures Consistent(Effect(db, op))
  {
    match op
    case OpenAccount(id, currency, allowNegative) =>
      if ValidCurrency(currency) && id !in db.accounts {
        OpenKeeps(db, id, currency, allowNegative);
      }
    case Transfer(_, cmd, claim, s) =>
      if Posts(db, op) {
        PostedMeansPostable(db, cmd, claim, s);
        PostKeepsBalances(db, cmd, claim, s);
        PostKeepsEntries(db, cmd, claim, s);
        PostConservesMoney(db, cmd, claim, s);
        PostKeepsKeys(db, cmd, claim, s);
        PostKeepsRefs(db, cmd, claim, s);
        PostKeepsEvents(db, cmd, claim, s);
      }
  }

  lemma {:induction false} RunKeeps(db: Db, ops: seq<Op>)
    requires Consistent(db)
    ensures Consistent(Run(db, ops))
  {
    if ops == [] {
    } else {
      RunKeeps(db, ops[..|ops| - 1]);
      EffectKeeps(Run(db, ops[..|ops| - 1]), ops[|ops| - 1]);
    }
  }

  /** Committed rows of keys, transactions and events never change, and entries only grow. */
  ghost predicate Extends(db: Db, db': Db) {
    && db.accounts.Keys <= db'.accounts.Keys
    && (forall a :: a in db.accounts ==> db'.accounts[a] == db.accounts[a].(balance := db'.accounts[a].balance))
    && db.entries <= db'.entries
    && (forall t :: t in db.transactions ==> t in db'.transactions && db'.transactions[t] == db.transactions[t])
    && (forall k :: k in db.keys ==> k in db'.keys && db'.keys[k] == db.keys[k])
    && (forall e :: e in db.events ==> e in db'.events && db'.events[e] == db.events[e])
  }

  lemma {:induction false} RunExtends(db: Db, ops: seq<Op>, i: nat)
    requires i <= |ops|
    ensures Extends(Run(db, ops[..i]), Run(db, ops))
    decreases |ops| - i
  {
    if i == |ops| {
      assert ops[..i] == ops;
    } else {
      RunExtends(db, ops, i + 1);
      assert ops[..i + 1][..i] == ops[..i];
      EffectExtends(Run(db, ops[..i]), ops[i]);
      ExtendsTransitive(Run(db, ops[..i]), Run(db, ops[..i + 1]), Run(db, ops));
    }
  }

  lemma EffectExtends(db: Db, op: Op)
    ensures Extends(db, Effect(db, op))
  {
    if Posts(db, op) {
      PostedMeansPostable(db, op.cmd, op.claim, op.supply);
    }
  }

  lemma ExtendsTransitive(a: Db, b: Db, c: Db)
    requires Extends(a, b) && Extends(b, c)
    ensures Extends(a, c)
  {
  }
}
