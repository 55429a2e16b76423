/** The double-entry domain: entries, transfer commands and the int64 zero-sum check. */
module Ledger {
  import opened Wrappers

  const TWO_63 := 0x8000_0000_0000_0000
  const TWO_64 := 0x1_0000_0000_0000_0000

  predicate InInt64(x: int) {
    -TWO_63 <= x < TWO_63
  }

  /** Go's int64 and PostgreSQL's bigint. */
  type int64 = x: int | InInt64(x)

  /** Two's complement wrap-around, which Go's `+` and unary `-` perform. */
  function Wrap64(x: int): (r: int64)
    ensures r == x || !InInt64(x)
    ensures (r - x) % TWO_64 == 0
  {
    (x + TWO_63) % TWO_64 - TWO_63
  }

  /** Identifiers; their order is PostgreSQL's byte order of uuid values. */
  type Uuid = nat

  datatype Direction = Debit | Credit

  datatype Entry = Entry(
    id: Uuid,
    transactionId: Uuid,
    accountId: Uuid,
    direction: Direction,
    amount: int64,
    currency: string)

  /** The generated column signed_amount: exact. */
  function ExactSigned(e: Entry): int {
    var a: int := e.amount;
    if e.direction.Debit? then a else -a
  }

  /** Entry.SignedAmount: negating the smallest int64 wraps to itself. */
  function SignedAmount(e: Entry): int64 {
    var a: int := e.amount;
    if e.direction.Debit? then e.amount else Wrap64(-a)
  }

  function ExactSum(entries: seq<Entry>): int {
    if entries == [] then 0
    else ExactSum(entries[..|entries| - 1]) + ExactSigned(entries[|entries| - 1])
  }

  /** What Transaction.Balanced accumulates, with Go's wrap-around at every step. */
  function WrappedSum(entries: seq<Entry>): int64 {
    if entries == [] then 0
    else Wrap64(WrappedSum(entries[..|entries| - 1]) + SignedAmount(entries[|entries| - 1]))
  }

  /** Wrapping after every addition is the same as wrapping the exact sum once. */
  lemma {:induction false} WrappedSumWrapsExactSum(entries: seq<Entry>)
    ensures WrappedSum(entries) == Wrap64(ExactSum(entries))
  {
    if entries == [] {
    } else {
      var init := entries[..|entries| - 1];
      var last := entries[|entries| - 1];
      WrappedSumWrapsExactSum(init);
      WrapCongruent(ExactSum(init), ExactSigned(last), SignedAmount(last));
    }
  }

  lemma WrapCongruent(a: int, b: int, b': int)
    requires (b' - b) % TWO_64 == 0
    ensures Wrap64(Wrap64(a) + b') == Wrap64(a + b)
  {
    MultiplesAdd(Wrap64(a) - a, b' - b);
    MultiplesAdd(Wrap64(Wrap64(a) + b') - (Wrap64(a) + b'), Wrap64(a) + b' - (a + b));
    WrapUnique(a + b, Wrap64(Wrap64(a) + b'));
  }

  lemma MultiplesAdd(x: int, y: int)
    requires x % TWO_64 == 0 && y % TWO_64 == 0
    ensures (x + y) % TWO_64 == 0
  {
    assert x + y == TWO_64 * (x / TWO_64 + y / TWO_64);
  }

  lemma WrapUnique(x: int, r: int64)
    requires (r - x) % TWO_64 == 0
    ensures Wrap64(x) == r
  {
    var k := (r - x) / TWO_64;
    assert r + TWO_63 == x + TWO_63 + TWO_64 * k;
    assert InInt64(r);
    SmallRemainder(r + TWO_63, TWO_64);
    ShiftedRemainder(x + TWO_63, k, TWO_64);
  }

  lemma SmallRemainder(x: int, m: int)
    requires 0 <= x < m
    ensures x % m == x
  {
  }

  lemma ShiftedRemainder(x: int, k: int, m: int)
    requires m > 0
    ensures (x + m * k) % m == x % m
  {
    var q, r := x / m, x % m;
    assert x + m * k == m * (q + k) + r;
    DivisionUnique(x + m * k, q + k, r, m);
  }

  lemma DivisionUnique(x: int, q: int, r: int, m: int)
    requires m > 0 && 0 <= r < m && x == m * q + r
    ensures x % m == r
  {
    var d := x / m - q;
    assert m * d == r - x % m;
    MulGrows(m, d);
  }

  lemma MulGrows(m: int, d: int)
    requires m > 0
    ensures (d >= 1 ==> m * d >= m) && (d <= -1 ==> m * d <= -m)
  {
  }

  lemma BalancedMeansDivisible(entries: seq<Entry>)
    ensures WrappedSum(entries) == 0 <==> ExactSum(entries) % TWO_64 == 0
    ensures -TWO_64 < ExactSum(entries) < TWO_64 ==> (WrappedSum(entries) == 0 <==> ExactSum(entries) == 0)
  {
    hide WrappedSum, ExactSum;
    WrappedSumWrapsExactSum(entries);
    WrapsToZero(ExactSum(entries));
  }

  lemma WrapsToZero(x: int)
    ensures Wrap64(x) == 0 <==> x % TWO_64 == 0
    ensures -TWO_64 < x < TWO_64 ==> (x % TWO_64 == 0 <==> x == 0)
  {
  }

  /**
   * Transaction.Balanced answers true exactly for the sums divisible by 2^64, so it agrees with the
   * exact zero-sum test on every sum of smaller magnitude.
   */
  method Balanced(entries: seq<Entry>) returns (ok: bool)
    ensures ok <==> ExactSum(entries) % TWO_64 == 0
    ensures ok <==> WrappedSum(entries) == 0
    ensures -TWO_64 < ExactSum(entries) < TWO_64 ==> (ok <==> ExactSum(entries) == 0)
  {
    var sum: int64 := 0;
    for i := 0 to |entries|
      invariant sum == WrappedSum(entries[..i])
    {
      assert entries[..i + 1][..i] == entries[..i];
      sum := Wrap64(sum + SignedAmount(entries[i]));
    }
    assert entries[..|entries|] == entries;
    ok := sum == 0;
    BalancedMeansDivisible(entries);
  }

  /** Beyond that bound the two tests part: four debits of 2^62 wrap to zero. */
  lemma BalancedMissesLargeImbalance()
    ensures exists entries: seq<Entry> ::
      && (forall e <- entries :: 0 < e.amount)
      && ExactSum(entries) == TWO_64
      && WrappedSum(entries) == 0
  {
    var e := Entry(0, 0, 0, Debit, 0x4000_0000_0000_0000, "BRL");
    var es := [e, e, e, e];
    assert es[..3] == [e, e, e] && [e, e, e][..2] == [e, e] && [e, e][..1] == [e] && [e][..0] == [];
    assert ExactSum([e]) == 0x4000_0000_0000_0000;
    assert ExactSum([e, e]) == 0x8000_0000_0000_0000;
    assert ExactSum([e, e, e]) == 0xC000_0000_0000_0000;
    assert ExactSum(es) == TWO_64;
    WrappedSumWrapsExactSum(es);
  }

  /**
   * The deferred trigger assert_transaction_balanced over all the legs of one transaction. The sum
   * is assigned to a bigint variable, so a sum outside its range raises as well.
   */
  predicate TriggerPasses(legs: seq<Entry>) {
    || |legs| == 0
    || (|legs| >= 2 && InInt64(ExactSum(legs)) && ExactSum(legs) == 0)
  }

  /** Whatever the trigger lets commit, the service's own assertion accepts. */
  lemma TriggerImpliesBalanced(legs: seq<Entry>)
    requires TriggerPasses(legs)
    ensures WrappedSum(legs) == 0
  {
    WrappedSumWrapsExactSum(legs);
  }

  /** On two positive legs, as every transfer has, the trigger and Balanced never disagree. */
  lemma TwoLegsAgree(legs: seq<Entry>)
    requires |legs| == 2 && legs[0].amount > 0 && legs[1].amount > 0
    ensures WrappedSum(legs) == 0 <==> TriggerPasses(legs)
  {
    assert legs[..1][..0] == [];
    assert ExactSum(legs[..1]) == ExactSigned(legs[0]);
    WrappedSumWrapsExactSum(legs);
  }

  datatype TransferCommand = TransferCommand(
    debit: Uuid,
    credit: Uuid,
    amount: int64,
    currency: string,
    description: string,
    externalRef: Option<string>)

  predicate ValidCurrency(s: string) {
    |s| == 3 && forall c <- s :: 'A' <= c <= 'Z'
  }

  datatype LedgerError =
    | InvalidAmount
    | InvalidCurrency
    | SameAccount
    | AccountNotFound(id: Uuid)
    | CurrencyMismatch
    | InsufficientFunds(holds: int, needs: int)
    | DuplicateExternalRef
    | IdempotencyKeyReuse
    | BalanceOutOfRange      // bigint overflow in the balance update
    | FloorBreached          // accounts_balance_floor, behind the service's own check
    | UnbalancedTransaction  // the deferred trigger, or the service's post-commit assertion
    | MissingStoredReply     // a committed key row that is absent or has no response
    | DuplicateId            // primary key collision of generated identifiers

  /** TransferCommand.Validate: the first rule broken, in the order they are checked. */
  function Validate(c: TransferCommand): Option<LedgerError> {
    if c.amount <= 0 then Some(InvalidAmount)
    else if !ValidCurrency(c.currency) then Some(InvalidCurrency)
    else if c.debit == c.credit then Some(SameAccount)
    else None
  }
}
