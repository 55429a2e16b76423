/** The tables a transfer touches, as committed values, and the constraints the schema puts on them. */
module Tables {
  import opened Wrappers
  import opened Ledger

  datatype Account = Account(currency: string, balance: int, allowNegative: bool)

  datatype TxRow = TxRow(externalRef: Option<string>, description: string, currency: string)

  datatype Reply = Reply(status: int, body: seq<bv8>)

  /** Primary key of idempotency_keys. */
  datatype KeyId = KeyId(key: string, endpoint: string)

  datatype KeyRow = KeyRow(hash: seq<bv8>, reply: Option<Reply>, transactionId: Option<Uuid>)

  datatype Claim = Claim(id: KeyId, fingerprint: seq<bv8>)

  datatype EntryPayload = EntryPayload(accountId: Uuid, direction: Direction, amount: int64)

  datatype Payload = Payload(
    transactionId: Uuid,
    currency: string,
    externalRef: Option<string>,
    description: string,
    entries: seq<EntryPayload>)

  datatype EventRow = EventRow(
    aggregateType: string,
    aggregateId: Uuid,
    eventType: string,
    schemaVersion: int,
    payload: Payload)

  datatype Transaction = Transaction(
    id: Uuid,
    externalRef: Option<string>,
    description: string,
    currency: string,
    entries: seq<Entry>)

  const AGGREGATE_TRANSACTION := "transaction"
  const EVENT_TRANSACTION_CREATED := "ledger.transaction.created"
  const SCHEMA_VERSION := 1

  /** Committed contents. Entries are append-only, so the table is the list of its rows in commit order. */
  datatype Db = Db(
    accounts: map<Uuid, Account>,
    transactions: map<Uuid, TxRow>,
    entries: seq<Entry>,
    keys: map<KeyId, KeyRow>,
    events: map<Uuid, EventRow>)

  const EMPTY_DB := Db(map[], map[], [], map[], map[])

  /** The partial unique index transactions_external_ref_key: is the reference taken? */
  predicate RefUsed(db: Db, ref: string) {
    exists t :: t in db.transactions && db.transactions[t].externalRef == Some(ref)
  }

  predicate FloorHolds(a: Account) {
    a.allowNegative || a.balance >= 0
  }

  predicate HasEntryId(entries: seq<Entry>, id: Uuid) {
    exists i :: 0 <= i < |entries| && entries[i].id == id
  }

  function LegsOf(entries: seq<Entry>, t: Uuid): seq<Entry> {
    if entries == [] then []
    else
      var last := entries[|entries| - 1];
      LegsOf(entries[..|entries| - 1], t) + (if last.transactionId == t then [last] else [])
  }

  /** SUM(signed_amount) over one account's entries. */
  function SignedTotal(entries: seq<Entry>, account: Uuid): int {
    if entries == [] then 0
    else
      var last := entries[|entries| - 1];
      SignedTotal(entries[..|entries| - 1], account) + (if last.accountId == account then ExactSigned(last) else 0)
  }

  lemma {:induction false} LegsOfConcat(xs: seq<Entry>, ys: seq<Entry>, t: Uuid)
    ensures LegsOf(xs + ys, t) == LegsOf(xs, t) + LegsOf(ys, t)
  {
    if ys == [] {
      assert xs + ys == xs;
    } else {
      var init := ys[..|ys| - 1];
      LegsOfConcat(xs, init, t);
      assert (xs + ys)[..|xs + ys| - 1] == xs + init;
    }
  }

  lemma {:induction false} SignedTotalConcat(xs: seq<Entry>, ys: seq<Entry>, a: Uuid)
    ensures SignedTotal(xs + ys, a) == SignedTotal(xs, a) + SignedTotal(ys, a)
  {
    if ys == [] {
      assert xs + ys == xs;
    } else {
      var init := ys[..|ys| - 1];
      SignedTotalConcat(xs, init, a);
      assert (xs + ys)[..|xs + ys| - 1] == xs + init;
    }
  }

  lemma {:induction false} NoLegs(entries: seq<Entry>, t: Uuid)
    requires forall i :: 0 <= i < |entries| ==> entries[i].transactionId != t
    ensures LegsOf(entries, t) == []
  {
    if entries == [] {
    } else {
      NoLegs(entries[..|entries| - 1], t);
    }
  }

  lemma TwoEntries(d: Entry, c: Entry, t: Uuid, a: Uuid)
    ensures LegsOf([d, c], t) ==
            (if d.transactionId == t then [d] else []) + (if c.transactionId == t then [c] else [])
    ensures SignedTotal([d, c], a) ==
            (if d.accountId == a then ExactSigned(d) else 0) + (if c.accountId == a then ExactSigned(c) else 0)
    ensures ExactSum([d, c]) == ExactSigned(d) + ExactSigned(c)
  {
    assert [d, c][..1] == [d] && [d][..0] == [];
    assert LegsOf([d], t) == if d.transactionId == t then [d] else [];
    assert ExactSum([d]) == ExactSigned(d);
    assert SignedTotal([d], a) == if d.accountId == a then ExactSigned(d) else 0;
  }

  /** The payload NewTransactionCreated puts in an event, leg by leg. */
  function EntryPayloads(entries: seq<Entry>): (r: seq<EntryPayload>)
    ensures |r| == |entries|
    ensures forall i :: 0 <= i < |r| ==>
      r[i] == EntryPayload(entries[i].accountId, entries[i].direction, entries[i].amount)
  {
    seq(|entries|, i requires 0 <= i < |entries| =>
      EntryPayload(entries[i].accountId, entries[i].direction, entries[i].amount))
  }

  function CreatedEvent(t: Transaction): EventRow {
    EventRow(AGGREGATE_TRANSACTION, t.id, EVENT_TRANSACTION_CREATED, SCHEMA_VERSION,
             Payload(t.id, t.currency, t.externalRef, t.description, EntryPayloads(t.entries)))
  }

  /** NewTransactionCreated: append one payload entry per leg, then assemble the row. */
  method NewTransactionCreated(t: Transaction) returns (e: EventRow)
    ensures e.aggregateType == "transaction" && e.aggregateId == t.id
    ensures e.eventType == "ledger.transaction.created" && e.schemaVersion == 1
    ensures e.payload.transactionId == t.id && e.payload.currency == t.currency
    ensures e.payload.externalRef == t.externalRef && e.payload.description == t.description
    ensures |e.payload.entries| == |t.entries|
    ensures forall i :: 0 <= i < |t.entries| ==>
      e.payload.entries[i] == EntryPayload(t.entries[i].accountId, t.entries[i].direction, t.entries[i].amount)
    ensures e == CreatedEvent(t)
  {
    var entries: seq<EntryPayload> := [];
    for i := 0 to |t.entries|
      invariant entries == EntryPayloads(t.entries)[..i]
    {
      var leg := t.entries[i];
      entries := entries + [EntryPayload(leg.accountId, leg.direction, leg.amount)];
    }
    e := EventRow(AGGREGATE_TRANSACTION, t.id, EVENT_TRANSACTION_CREATED, SCHEMA_VERSION,
                  Payload(t.id, t.currency, t.externalRef, t.description, entries));
  }
}
