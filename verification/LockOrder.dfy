/**
 * Row and index-tuple locks with one owner each, and why waiting for them cannot end in a deadlock:
 * whoever waits wants something above everything it holds.
 */
module LockOrder {
  import opened Wrappers
  import opened Ledger
  import opened Tables

  datatype Resource =
    | KeyTuple(key: KeyId)        // index tuple of idempotency_keys' primary key
    | AccountRow(id: Uuid)        // FOR UPDATE on accounts
    | RefTuple(ref: string)       // index tuple of transactions_external_ref_key
    | OutboxRow(event: Uuid)      // FOR UPDATE on outbox_events

  type Locks = map<Resource, nat>

  function Class(r: Resource): nat {
    match r
    case KeyTuple(_) => 0
    case AccountRow(_) => 1
    case RefTuple(_) => 2
    case OutboxRow(_) => 3
  }

  /** Key tuple, then accounts ascending by id, then external reference, then outbox rows. */
  predicate Below(p: Resource, q: Resource) {
    || Class(p) < Class(q)
    || (p.AccountRow? && q.AccountRow? && p.id < q.id)
  }

  /** A lock is available to `who` when nobody else owns it. */
  predicate Available(locks: Locks, r: Resource, who: nat) {
    r !in locks || locks[r] == who
  }

  function ReleaseAll(locks: Locks, who: nat): Locks {
    map r | r in locks && locks[r] != who :: locks[r]
  }

  /** What each unfinished session wants next, if its next statement needs a lock. */
  type Wants = map<nat, Option<Resource>>

  predicate Waits(locks: Locks, wants: Wants, p: nat) {
    p in wants && wants[p].Some? && !Available(locks, wants[p].value, p)
  }

  /** p waits for a lock that q owns. */
  predicate WaitsFor(locks: Locks, wants: Wants, p: nat, q: nat) {
    Waits(locks, wants, p) && locks[wants[p].value] == q
  }

  /** Owners are unfinished sessions, and every owned lock is below what its owner waits for. */
  ghost predicate Ordered(locks: Locks, wants: Wants) {
    forall r :: r in locks ==>
      && locks[r] in wants
      && (Waits(locks, wants, locks[r]) ==> Below(r, wants[locks[r]].value))
  }

  /** A path of the wait-for graph. */
  ghost predicate WaitPath(locks: Locks, wants: Wants, path: seq<nat>) {
    && |path| >= 1
    && forall i :: 0 <= i < |path| - 1 ==> WaitsFor(locks, wants, path[i], path[i + 1])
  }

  lemma {:induction false} WantsAscend(locks: Locks, wants: Wants, path: seq<nat>)
    requires Ordered(locks, wants) && WaitPath(locks, wants, path) && |path| >= 2
    requires Waits(locks, wants, path[|path| - 1])
    ensures Waits(locks, wants, path[0])
    ensures Below(wants[path[0]].value, wants[path[|path| - 1]].value)
  {
    if |path| == 2 {
    } else {
      var tail := path[1..];
      assert WaitPath(locks, wants, tail) by {
        forall i | 0 <= i < |tail| - 1 ensures WaitsFor(locks, wants, tail[i], tail[i + 1]) {
          assert WaitsFor(locks, wants, path[i + 1], path[i + 2]);
        }
      }
      WantsAscend(locks, wants, tail);
      assert WaitsFor(locks, wants, path[0], path[1]);
    }
  }

  /** The wait-for graph has no cycle. */
  lemma NoWaitCycle(locks: Locks, wants: Wants, path: seq<nat>)
    requires Ordered(locks, wants) && WaitPath(locks, wants, path) && |path| >= 2
    ensures path[0] != path[|path| - 1]
  {
    if path[0] == path[|path| - 1] {
      assert WaitsFor(locks, wants, path[0], path[1]);
      WantsAscend(locks, wants, path);
    }
  }

  /** Owned locks above r. */
  ghost function Above(locks: Locks, r: Resource): set<Resource> {
    set q | q in locks && Below(r, q)
  }

  /** Following the wait-for graph from any session leads to one that can go on. */
  lemma {:induction false} SomebodyRuns(locks: Locks, wants: Wants, p: nat) returns (q: nat, path: seq<nat>)
    requires Ordered(locks, wants) && p in wants
    ensures q in wants && !Waits(locks, wants, q)
    ensures WaitPath(locks, wants, path) && path[0] == p && path[|path| - 1] == q
    decreases if Waits(locks, wants, p) then 1 + |Above(locks, wants[p].value)| else 0
  {
    if !Waits(locks, wants, p) {
      return p, [p];
    }
    var r := wants[p].value;
    var owner := locks[r];
    assert WaitsFor(locks, wants, p, owner);
    if Waits(locks, wants, owner) {
      var r' := wants[owner].value;
      assert Above(locks, r') < Above(locks, r) by {
        assert r' in Above(locks, r) && r' !in Above(locks, r');
      }
      SubsetSmaller(Above(locks, r'), Above(locks, r));
    }
    var rest;
    q, rest := SomebodyRuns(locks, wants, owner);
    path := [p] + rest;
  }

  lemma SubsetSmaller<T>(a: set<T>, b: set<T>)
    requires a < b
    ensures |a| < |b|
  {
    var d := b - a;
    assert b == a + d && a !! d;
    assert d != {};
  }
}
