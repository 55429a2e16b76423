/**
 * Aborts leave nothing behind, a blocked duplicate inherits the key, and the protocol never
 * deadlocks: unfinished requests can always be run to completion, without aborting any of them.
 */
module Progress {
  import opened Wrappers
  import opened Ledger
  import opened Tables
  import opened Sequential
  import opened LockOrder
  import opened Protocol
  import opened ProtocolInv
  import opened Refinement
  import opened Sums
  import CommitStep

  // ---------- aborts and hand-over ----------

  /** Only a commit or a new account changes a committed table. */
  lemma OnlyCommitsWrite(s: State, a: Action)
    ensures Step(s, a).db != s.db ==> a.Commit? || a.Open?
  {
  }

  /** A session that ends without committing leaves no row, no lock and no other session changed. */
  lemma CleanAbort(s: State, p: nat)
    requires p in s.sessions && !s.sessions[p].pc.Done?
    ensures var s' := Step(s, Abort(p));
            && s'.db == s.db
            && (forall r :: r in s'.locks ==> s'.locks[r] != p)
            && (forall r :: r in s.locks && s.locks[r] != p ==> r in s'.locks && s'.locks[r] == s.locks[r])
            && (forall q :: q in s.sessions && q != p ==> q in s'.sessions && s'.sessions[q] == s.sessions[q])
  {
  }

  /** Only an abort, or a commit whose answer gets lost, leaves a request without an answer: nobody gives up waiting. */
  lemma OnlyAbortsLose(s: State, a: Action, p: nat)
    requires p in s.sessions && s.sessions[p].pc != Done(Lost)
    requires p in Step(s, a).sessions && Step(s, a).sessions[p].pc == Done(Lost)
    ensures a == Abort(p) || a == Commit(p, false)
  {
    hide RefUsed, NewBalances, Merge, TriggerPasses, LegsOf, WrappedSum, CreatedEvent, ExistingInOrder, InInt64, FloorHolds,
      ResultOf, Leg, Available, ReleaseAll;
  }

  /** The action a session itself takes, if it takes one. */
  function Actor(a: Action): Option<nat> {
    if a.Open? then None else Some(a.sid)
  }

  /**
   * A duplicate blocked on its key. When the owner ends without committing, the duplicate's next
   * attempt wins the claim; when the owner commits, the duplicate goes on to read the stored reply.
   */
  lemma HandOver(s: State, a: Action, p: nat, q: nat)
    requires Good(s) && p != q && At(s, q, Claiming) && Actor(a) == Some(p)
    requires KeyTuple(s.sessions[q].claim.id) in s.locks && s.locks[KeyTuple(s.sessions[q].claim.id)] == p
    requires p in Step(s, a).sessions && Step(s, a).sessions[p].pc.Done?
    ensures Step(s, ClaimKey(q)) == s
    ensures At(Step(Step(s, a), ClaimKey(q)), q, if Step(s, a).db == s.db then Selecting else Reading)
  {
    var k := s.sessions[q].claim.id;
    OwnerOfKey(s, p, k);
    var t := Step(s, a);
    StepKeeps(s, a);
    OthersUntouched(s, a, p, q);
    if t.db == s.db {
      NoLocksWhenDone(t, p, KeyTuple(k));
      OthersKeepTheirLocks(s, a, p, KeyTuple(k));
    } else {
      CommitStoresKey(s, a, p, k);
    }
    hide Good, Step;
    assert k in t.db.keys || KeyTuple(k) !in t.locks;
    ClaimOutcome(s, q);
    ClaimOutcome(t, q);
  }

  lemma ClaimOutcome(s: State, q: nat)
    requires At(s, q, Claiming)
    ensures s.sessions[q].claim.id in s.db.keys ==> At(Step(s, ClaimKey(q)), q, Reading)
    ensures s.sessions[q].claim.id !in s.db.keys && KeyTuple(s.sessions[q].claim.id) !in s.locks
            ==> At(Step(s, ClaimKey(q)), q, Selecting)
    ensures s.sessions[q].claim.id !in s.db.keys && !Available(s.locks, KeyTuple(s.sessions[q].claim.id), q)
            ==> Step(s, ClaimKey(q)) == s
  {
  }

  lemma OwnerOfKey(s: State, p: nat, k: KeyId)
    requires Good(s) && KeyTuple(k) in s.locks && s.locks[KeyTuple(k)] == p
    ensures p in s.sessions && Owns(s.sessions[p]) && s.sessions[p].claim.id == k && k !in s.db.keys
  {
    hide Good, Inv, SessionOk, LocksOk;
    GoodInv(s);
    LockOwner(s, KeyTuple(k));
    SessionHolds(s, p);
    KeyHolder(s.db, s.minted, s.sessions[p], p, k);
  }

  lemma LockOwner(s: State, r: Resource)
    requires Inv(s) && r in s.locks
    ensures s.locks[r] in s.sessions && r in Holds(s.sessions[s.locks[r]])
  {
    hide SessionsOk, MintedOk, Holds;
  }

  lemma KeyHolder(db: Db, minted: map<Uuid, nat>, x: Session, p: nat, k: KeyId)
    requires SessionOk(db, minted, x, p) && KeyTuple(k) in Holds(x)
    ensures Owns(x) && x.claim.id == k && k !in db.keys
  {
    hide ProgramOk, SupplyOk, RefUsed;
  }

  lemma OthersUntouched(s: State, a: Action, p: nat, q: nat)
    requires Actor(a) == Some(p) && q != p && q in s.sessions
    ensures q in Step(s, a).sessions && Step(s, a).sessions[q] == s.sessions[q]
  {
    hide RefUsed, AccountsVerdict, NewBalances, Merge, TriggerPasses, LegsOf, WrappedSum, CreatedEvent, ExistingInOrder,
      Validate, StoredAnswer, ResultOf, Leg;
  }

  lemma NoLocksWhenDone(s: State, p: nat, r: Resource)
    requires Good(s) && p in s.sessions && s.sessions[p].pc.Done?
    ensures r in s.locks ==> s.locks[r] != p
  {
    hide Good, Inv, Holds;
    GoodInv(s);
    if r in s.locks {
      LockOwner(s, r);
      DoneHoldsNothing(s.sessions[p]);
    }
  }

  lemma DoneHoldsNothing(x: Session)
    requires x.pc.Done?
    ensures Holds(x) == {}
  {
  }

  lemma OthersKeepTheirLocks(s: State, a: Action, p: nat, r: Resource)
    requires Actor(a) == Some(p) && r in s.locks && s.locks[r] == p
    ensures r in Step(s, a).locks ==> Step(s, a).locks[r] == p
  {
  }

  lemma CommitStoresKey(s: State, a: Action, p: nat, k: KeyId)
    requires Good(s) && Actor(a) == Some(p) && p in s.sessions && s.sessions[p].claim.id == k
    requires Step(s, a).db != s.db
    ensures k in Step(s, a).db.keys
  {
    OnlyCommitsWrite(s, a);
    assert forall e <- s.db.entries :: e.transactionId in s.db.transactions;
    GoodInv(s);
    hide Good, Inv;
    CommitStep.CommitIsPost(s, p, a.answered);
    hide DoCommit, Answer;
  }

  // ---------- no deadlock ----------

  /** The lock a session's next statement needs, if it needs one. */
  ghost function NextLock(db: Db, x: Session): Option<Resource> {
    match x.pc
    case Claiming => if x.claim.id in db.keys then None else Some(KeyTuple(x.claim.id))
    case Locking => if x.todo == [] then None else Some(AccountRow(x.todo[0]))
    case InsertingTx =>
      if x.cmd.externalRef.Some? && !RefUsed(db, x.cmd.externalRef.value) then Some(RefTuple(x.cmd.externalRef.value))
      else None
    case _ => None
  }

  ghost function WantsOf(s: State): Wants {
    map p | p in s.sessions && !s.sessions[p].pc.Done? :: NextLock(s.db, s.sessions[p])
  }

  /** Locks are taken in order: key tuple, accounts by ascending id, external reference. */
  lemma LocksInOrder(s: State)
    requires Inv(s)
    ensures Ordered(s.locks, WantsOf(s))
  {
    hide NextLock, ProgramOk, TablesOk, SupplyOk, Holds, MintedOk;
    forall r | r in s.locks
      ensures s.locks[r] in WantsOf(s)
      ensures Waits(s.locks, WantsOf(s), s.locks[r]) ==> Below(r, WantsOf(s)[s.locks[r]].value)
    {
      var p := s.locks[r];
      HoldsBelowNextOk(s.db, s.minted, s.sessions[p], p, r);
    }
  }

  lemma HoldsBelowNext(db: Db, x: Session, r: Resource)
    requires ProgramOk(x) && r in Holds(x)
    ensures !x.pc.Done?
    ensures NextLock(db, x).Some? ==> Below(r, NextLock(db, x).value)
  {
    hide WorkAt, RefUsed, AccountsVerdict, Validate;
  }

  lemma HoldsBelowNextOk(db: Db, minted: map<Uuid, nat>, x: Session, p: nat, r: Resource)
    requires SessionOk(db, minted, x, p) && r in Holds(x)
    ensures !x.pc.Done?
    ensures NextLock(db, x).Some? ==> Below(r, NextLock(db, x).value)
  {
    hide ProgramOk, TablesOk, SupplyOk, Holds, NextLock;
    HoldsBelowNext(db, x, r);
  }

  /** Statements left until the request is answered. */
  function Remaining(x: Session): nat {
    match x.pc
    case Claiming => 100
    case Selecting => 90
    case Locking => 10 + |x.todo|
    case InsertingTx => 9
    case InsertingEntry(leg) => if leg == 0 then 8 else 7
    case Applying => 6
    case Emitting => 5
    case Storing => 4
    case Committing => 3
    case Reading => 2
    case Done(_) => 0
  }

  function RemainingOf(s: State): map<nat, int> {
    map p | p in s.sessions :: Remaining(s.sessions[p])
  }

  /** The next statement of a session's own program. */
  function NextAction(x: Session, sid: nat, newId: Uuid, reply: Reply): Action {
    match x.pc
    case Claiming => ClaimKey(sid)
    case Reading => ReadReply(sid)
    case Selecting => SelectAccounts(sid)
    case Locking => if x.todo == [] then CheckAccounts(sid) else LockNext(sid)
    case InsertingTx => InsertTx(sid, newId)
    case InsertingEntry(_) => InsertEntry(sid, newId)
    case Applying => ApplyBalances(sid)
    case Emitting => InsertEvent(sid, newId)
    case Storing => StoreReply(sid, reply)
    case Committing => Commit(sid, true)
    case Done(_) => Abort(sid)
  }

  /** A session whose next statement does not wait gets closer to its answer by executing it. */
  lemma RunnableAdvances(s: State, p: nat, newId: Uuid, reply: Reply)
    requires p in s.sessions && !s.sessions[p].pc.Done? && ProgramOk(s.sessions[p]) && TablesOk(s.db, s.sessions[p])
    requires !Waits(s.locks, WantsOf(s), p) && newId !in s.minted
    ensures Advances(s, Step(s, NextAction(s.sessions[p], p, newId, reply)), p)
  {
    hide ProgramOk, TablesOk, Step, Advances;
    assert WantsOf(s)[p] == NextLock(s.db, s.sessions[p]);
    var x := s.sessions[p];
    match x.pc {
      case Claiming => ClaimingAdvances(s, p, newId, reply);
      case Locking => LockingAdvances(s, p, newId, reply);
      case InsertingTx => InsertingTxAdvances(s, p, newId, reply);
      case Reading => ReadingAdvances(s, p, newId, reply);
      case Applying => ApplyingAdvances(s, p, newId, reply);
      case Committing => CommittingAdvances(s, p, newId, reply);
      case _ => WritingAdvances(s, p, newId, reply);
    }
  }

  ghost predicate Advances(s: State, s': State, p: nat) {
    && p in s.sessions && p in s'.sessions
    && s'.sessions == s.sessions[p := s'.sessions[p]]
    && Remaining(s'.sessions[p]) < Remaining(s.sessions[p])
  }

  lemma ClaimingAdvances(s: State, p: nat, newId: Uuid, reply: Reply)
    requires p in s.sessions && s.sessions[p].pc == Claiming && TablesOk(s.db, s.sessions[p])
    requires NextLock(s.db, s.sessions[p]).Some? ==> Available(s.locks, NextLock(s.db, s.sessions[p]).value, p)
    requires newId !in s.minted
    ensures Advances(s, Step(s, NextAction(s.sessions[p], p, newId, reply)), p)
  {
    hide RefUsed, AccountsVerdict, Holds, ExistingInOrder, Finish;
  }

  lemma LockingAdvances(s: State, p: nat, newId: Uuid, reply: Reply)
    requires p in s.sessions && s.sessions[p].pc == Locking && TablesOk(s.db, s.sessions[p])
    requires NextLock(s.db, s.sessions[p]).Some? ==> Available(s.locks, NextLock(s.db, s.sessions[p]).value, p)
    requires newId !in s.minted
    ensures Advances(s, Step(s, NextAction(s.sessions[p], p, newId, reply)), p)
  {
    hide RefUsed, AccountsVerdict, Holds;
  }

  lemma InsertingTxAdvances(s: State, p: nat, newId: Uuid, reply: Reply)
    requires p in s.sessions && s.sessions[p].pc == InsertingTx && TablesOk(s.db, s.sessions[p])
    requires NextLock(s.db, s.sessions[p]).Some? ==> Available(s.locks, NextLock(s.db, s.sessions[p]).value, p)
    requires newId !in s.minted
    ensures Advances(s, Step(s, NextAction(s.sessions[p], p, newId, reply)), p)
  {
    hide RefUsed, AccountsVerdict, Holds, ExistingInOrder;
  }

  lemma WritingAdvances(s: State, p: nat, newId: Uuid, reply: Reply)
    requires p in s.sessions && (s.sessions[p].pc.InsertingEntry? || s.sessions[p].pc in {Emitting, Storing, Selecting})
    requires newId !in s.minted
    ensures Advances(s, Step(s, NextAction(s.sessions[p], p, newId, reply)), p)
  {
    hide ExistingInOrder, CreatedEvent, Finish;
    AtMostTwo(s.db.accounts, s.sessions[p].cmd);
  }

  lemma ReadingAdvances(s: State, p: nat, newId: Uuid, reply: Reply)
    requires p in s.sessions && s.sessions[p].pc == Reading
    ensures Advances(s, Step(s, NextAction(s.sessions[p], p, newId, reply)), p)
  {
    hide NewBalances, TriggerPasses, WrappedSum, LegsOf, Merge, StoredAnswer, FloorHolds, InInt64, ExistingInOrder;
  }

  lemma ApplyingAdvances(s: State, p: nat, newId: Uuid, reply: Reply)
    requires p in s.sessions && s.sessions[p].pc == Applying
    ensures Advances(s, Step(s, NextAction(s.sessions[p], p, newId, reply)), p)
  {
    hide NewBalances, TriggerPasses, WrappedSum, LegsOf, Merge, StoredAnswer, FloorHolds, InInt64, ExistingInOrder;
  }

  lemma CommittingAdvances(s: State, p: nat, newId: Uuid, reply: Reply)
    requires p in s.sessions && s.sessions[p].pc == Committing
    ensures Advances(s, Step(s, NextAction(s.sessions[p], p, newId, reply)), p)
  {
    hide NewBalances, TriggerPasses, WrappedSum, LegsOf, Merge, StoredAnswer, FloorHolds, InInt64, ExistingInOrder;
  }

  lemma AtMostTwo(accounts: map<Uuid, Account>, cmd: TransferCommand)
    ensures |ExistingInOrder(accounts, cmd)| <= 2
  {
  }

  lemma {:induction false} FreshId(minted: map<Uuid, nat>) returns (id: Uuid)
    ensures id !in minted
  {
    id := Bound(minted.Keys);
  }

  lemma {:induction false} Bound(ids: set<Uuid>) returns (b: Uuid)
    ensures forall id :: id in ids ==> id < b
    decreases |ids|
  {
    if ids == {} {
      return 0;
    }
    var id :| id in ids;
    var c := Bound(ids - {id});
    b := if c <= id then id + 1 else c;
    forall k | k in ids ensures k < b {
      assert k == id || k in ids - {id};
    }
  }

  /** Statements left in all. */
  ghost function Outstanding(s: State): int {
    Sum(RemainingOf(s))
  }

  lemma AdvancingLowers(s: State, s': State, p: nat)
    requires Advances(s, s', p)
    ensures 0 <= Outstanding(s') < Outstanding(s)
  {
    hide Remaining;
    SumUpdate(RemainingOf(s), p, Remaining(s'.sessions[p]));
    assert RemainingOf(s') == RemainingOf(s)[p := Remaining(s'.sessions[p])];
    SumOverNonNegative(RemainingOf(s').Keys, RemainingOf(s'));
  }

  /** In every reachable state with unfinished requests, one of them can execute its next statement. */
  lemma NoDeadlock(s: State, p: nat) returns (q: nat, a: Action)
    requires Good(s) && p in s.sessions && !s.sessions[p].pc.Done?
    ensures q in s.sessions && !s.sessions[q].pc.Done? && Actor(a) == Some(q)
    ensures !a.Abort? && !a.Submit? && !a.Open? && (a.Commit? ==> a.answered)
    ensures 0 <= Outstanding(Step(s, a)) < Outstanding(s)
  {
    hide Good, Inv, ProgramOk, TablesOk, SupplyOk, LocksOk, Step, Ordered, WaitPath, NextLock, Outstanding, Advances;
    GoodInv(s);
    LocksInOrder(s);
    var path;
    q, path := SomebodyRuns(s.locks, WantsOf(s), p);
    var newId := FreshId(s.minted);
    a := NextAction(s.sessions[q], q, newId, Reply(201, []));
    SessionHolds(s, q);
    RunnableAdvances(s, q, newId, Reply(201, []));
    AdvancingLowers(s, Step(s, a), q);
  }

  ghost predicate AllAnswered(s: State) {
    forall p :: p in s.sessions ==> s.sessions[p].pc.Done?
  }

  lemma ExecConcat(s: State, xs: seq<Action>, a: Action)
    ensures Exec(s, xs + [a]) == Step(Exec(s, xs), a)
  {
    assert (xs + [a])[..|xs|] == xs;
  }

  lemma NobodyLost(s: State, a: Action)
    requires !a.Abort? && (a.Commit? ==> a.answered)
    ensures forall p :: p in s.sessions && s.sessions[p].pc != Done(Lost) ==>
      p in Step(s, a).sessions && Step(s, a).sessions[p].pc != Done(Lost)
  {
    hide Step;
    forall p | p in s.sessions && s.sessions[p].pc != Done(Lost)
      ensures p in Step(s, a).sessions && Step(s, a).sessions[p].pc != Done(Lost)
    {
      SessionsStay(s, a, p);
      if Step(s, a).sessions[p].pc == Done(Lost) {
        OnlyAbortsLose(s, a, p);
      }
    }
  }

  lemma SessionsStay(s: State, a: Action, p: nat)
    requires p in s.sessions
    ensures p in Step(s, a).sessions
  {
    hide RefUsed, AccountsVerdict, NewBalances, Merge, TriggerPasses, LegsOf, WrappedSum, CreatedEvent, ExistingInOrder,
      Validate, StoredAnswer, ResultOf, Leg, Available, ReleaseAll, InInt64, FloorHolds;
  }

  /**
   * From every reachable state all requests in flight can be brought to an answer by executing their
   * own next statements: nobody needs to be aborted or restarted, and no answer gets lost.
   */
  lemma {:induction false} EverybodyCanFinish(schedule: seq<Action>) returns (rest: seq<Action>)
    ensures forall a <- rest :: !a.Abort? && !a.Submit? && !a.Open? && (a.Commit? ==> a.answered)
    ensures AllAnswered(Exec(START, schedule + rest))
    ensures forall p :: p in Exec(START, schedule).sessions && Exec(START, schedule).sessions[p].pc != Done(Lost) ==>
      p in Exec(START, schedule + rest).sessions && Exec(START, schedule + rest).sessions[p].pc != Done(Lost)
    decreases Outstanding(Exec(START, schedule))
  {
    hide Good, Inv, Step, Outstanding;
    var s := Exec(START, schedule);
    if AllAnswered(s) {
      assert schedule + [] == schedule;
      return [];
    }
    var p :| p in s.sessions && !s.sessions[p].pc.Done?;
    AlwaysGood(schedule);
    var q, a := NoDeadlock(s, p);
    ExecConcat(START, schedule, a);
    NobodyLost(s, a);
    hide Exec, Step, AllAnswered, Outstanding;
    var more := EverybodyCanFinish(schedule + [a]);
    rest := [a] + more;
    assert schedule + rest == schedule + [a] + more;
  }

  /** No cycle of requests waiting for each other exists in any reachable state. */
  lemma NoCycleOfWaits(schedule: seq<Action>, cycle: seq<nat>)
    requires |cycle| >= 2 && cycle[0] == cycle[|cycle| - 1]
    ensures !WaitPath(Exec(START, schedule).locks, WantsOf(Exec(START, schedule)), cycle)
  {
    var s := Exec(START, schedule);
    AlwaysGood(schedule);
    GoodInv(s);
    LocksInOrder(s);
    if WaitPath(s.locks, WantsOf(s), cycle) {
      NoWaitCycle(s.locks, WantsOf(s), cycle);
    }
  }
}
