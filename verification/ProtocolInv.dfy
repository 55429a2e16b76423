/**
 * The invariant of every reachable state of the protocol: what each session holds, what it has
 * written privately, and why what it read under lock is still true.
 */
module ProtocolInv {
  import opened Wrappers
  import opened Ledger
  import opened Tables
  import opened Sequential
  import opened LockOrder
  import opened Protocol

  function Stage(pc: Pc): nat {
    match pc
    case Claiming => 0
    case Reading => 1
    case Selecting => 2
    case Locking => 3
    case InsertingTx => 4
    case InsertingEntry(leg) => if leg == 0 then 5 else 6
    case Applying => 7
    case Emitting => 8
    case Storing => 9
    case Committing => 10
    case Done(_) => 11
  }

  /** The session has claimed its key and has neither committed nor aborted. */
  predicate Owns(x: Session) {
    2 <= Stage(x.pc) <= 10
  }

  predicate HasTx(x: Session) {
    5 <= Stage(x.pc) <= 10
  }

  /** Every lock a session holds, told from its local state alone. */
  function Holds(x: Session): set<Resource> {
    if !Owns(x) then {}
    else
      {KeyTuple(x.claim.id)}
      + (set id | id in x.found :: AccountRow(id))
      + (if HasTx(x) && x.cmd.externalRef.Some? then {RefTuple(x.cmd.externalRef.value)} else {})
  }

  /** The private writes a session has made by each point of its program. */
  function WorkAt(x: Session): Work {
    var n := Stage(x.pc);
    if !Owns(x) then NO_WORK
    else Work(
      if n < 5 then map[]
      else map[x.supply.txId := TxRow(x.cmd.externalRef, x.cmd.description, x.cmd.currency)],
      if n < 6 then []
      else if n == 6 then [Leg(x.cmd, x.supply.txId, 0, x.supply.debitEntry)]
      else TransferEntries(x.cmd, x.supply),
      if n < 8 then map[] else NewBalances(x.found, x.cmd),
      map[x.claim.id :=
        if n < 10 then KeyRow(x.claim.fingerprint, None, None)
        else KeyRow(x.claim.fingerprint, Some(x.supply.reply), Some(x.supply.txId))],
      if n < 9 then map[] else map[x.supply.eventId := CreatedEvent(TransferTransaction(x.cmd, x.supply))])
  }

  /** Rows read under lock are still the committed rows. */
  ghost predicate Current(db: Db, found: map<Uuid, Account>) {
    forall id :: id in found ==> id in db.accounts && db.accounts[id] == found[id]
  }

  ghost predicate Ascending(ids: seq<Uuid>) {
    forall i, j :: 0 <= i < j < |ids| ==> ids[i] < ids[j]
  }

  /** Rows still to lock are requested ones, above every row already locked. */
  ghost predicate LockingOk(x: Session) {
    && x.found.Keys <= {x.cmd.debit, x.cmd.credit}
    && Ascending(x.todo)
    && (forall i :: 0 <= i < |x.todo| ==> x.todo[i] in {x.cmd.debit, x.cmd.credit})
    && (forall id, i :: id in x.found && 0 <= i < |x.todo| ==> id < x.todo[i])
  }

  /** The session's own variables and private writes fit the point its program has reached. */
  ghost predicate ProgramOk(x: Session) {
    var n := Stage(x.pc);
    && (x.pc.InsertingEntry? ==> x.pc.leg <= 1)
    && (n <= 10 ==> Validate(x.cmd) == None)
    && (n <= 2 ==> x.found == map[])
    && (n != 3 ==> x.todo == [])
    && (n == 3 ==> LockingOk(x))
    && (4 <= n <= 10 ==> x.found.Keys == {x.cmd.debit, x.cmd.credit} && AccountsVerdict(x.found, x.cmd) == None)
    && (8 <= n <= 10 ==> BalancesInRange(x.found, x.cmd))
    && x.work == WorkAt(x)
  }

  /** What the session learned from the committed tables still holds of them. */
  ghost predicate TablesOk(db: Db, x: Session) {
    && (x.pc.Reading? ==> x.claim.id in db.keys)
    && (Owns(x) ==> x.claim.id !in db.keys)
    && (Owns(x) ==> Current(db, x.found))
    && (Owns(x) ==> forall i :: 0 <= i < |x.todo| ==> x.todo[i] in db.accounts)
    && (HasTx(x) && x.cmd.externalRef.Some? ==> !RefUsed(db, x.cmd.externalRef.value))
  }

  ghost predicate MintedBy(minted: map<Uuid, nat>, id: Uuid, sid: nat) {
    id in minted && minted[id] == sid
  }

  ghost predicate SupplyOk(minted: map<Uuid, nat>, x: Session, sid: nat) {
    var n := Stage(x.pc);
    && (5 <= n <= 10 ==> MintedBy(minted, x.supply.txId, sid))
    && (6 <= n <= 10 ==> MintedBy(minted, x.supply.debitEntry, sid))
    && (7 <= n <= 10 ==> MintedBy(minted, x.supply.creditEntry, sid) && x.supply.creditEntry != x.supply.debitEntry)
    && (9 <= n <= 10 ==> MintedBy(minted, x.supply.eventId, sid))
  }

  ghost predicate SessionOk(db: Db, minted: map<Uuid, nat>, x: Session, sid: nat) {
    ProgramOk(x) && TablesOk(db, x) && SupplyOk(minted, x, sid)
  }

  ghost predicate SessionsOk(s: State) {
    forall sid :: sid in s.sessions ==> SessionOk(s.db, s.minted, s.sessions[sid], sid)
  }

  /** The lock table says exactly what the sessions believe they hold. */
  ghost predicate LocksOk(s: State) {
    && (forall r :: r in s.locks ==> s.locks[r] in s.sessions && r in Holds(s.sessions[s.locks[r]]))
    && (forall sid, r :: sid in s.sessions && r in Holds(s.sessions[sid]) ==> r in s.locks && s.locks[r] == sid)
  }

  ghost predicate MintedByDone(s: State, id: Uuid) {
    id in s.minted && s.minted[id] in s.sessions && s.sessions[s.minted[id]].pc.Done?
  }

  /** Committed identifiers were generated by sessions that have ended. */
  ghost predicate MintedOk(s: State) {
    && (forall id :: id in s.minted ==> s.minted[id] in s.sessions)
    && (forall t :: t in s.db.transactions ==> MintedByDone(s, t))
    && (forall e :: e in s.db.events ==> MintedByDone(s, e))
    && (forall e <- s.db.entries :: MintedByDone(s, e.id))
  }

  ghost predicate Inv(s: State) {
    SessionsOk(s) && LocksOk(s) && MintedOk(s)
  }

  lemma StartInv()
    ensures Inv(START)
  {
  }

  // ---------- steps that leave the committed tables alone ----------

  /** Only session sid's lock set changed. */
  ghost predicate LocksMoved(s: State, s': State, sid: nat) {
    && (forall r :: r in s'.locks && s'.locks[r] == sid <==> sid in s'.sessions && r in Holds(s'.sessions[sid]))
    && (forall r :: r in s'.locks && s'.locks[r] != sid ==> r in s.locks && s.locks[r] == s'.locks[r])
    && (forall r :: r in s.locks && s.locks[r] != sid ==> r in s'.locks && s.locks[r] == s'.locks[r])
  }

  /** s' differs from s by session sid, its locks and identifiers it generated. */
  ghost predicate Local(s: State, s': State, sid: nat) {
    && s'.db == s.db
    && sid in s'.sessions
    && s'.sessions == s.sessions[sid := s'.sessions[sid]]
    && (sid in s.sessions && s.sessions[sid].pc.Done? ==> s'.sessions[sid].pc.Done?)
    && (forall id :: id in s.minted ==> id in s'.minted && s'.minted[id] == s.minted[id])
    && (forall id :: id in s'.minted && id !in s.minted ==> s'.minted[id] == sid)
    && LocksMoved(s, s', sid)
  }

  lemma LocksMovedKeeps(s: State, s': State, sid: nat)
    requires LocksOk(s) && sid in s'.sessions && s'.sessions == s.sessions[sid := s'.sessions[sid]]
    requires LocksMoved(s, s', sid)
    ensures LocksOk(s')
  {
    hide Holds;
  }

  /** Taking one free lock, or none when `taken` is empty. */
  lemma LocksTaken(s: State, s': State, sid: nat, taken: set<Resource>)
    requires LocksOk(s) && sid in s.sessions && sid in s'.sessions
    requires forall r :: r in taken ==> Available(s.locks, r, sid)
    requires forall r :: r in s'.locks <==> r in s.locks || r in taken
    requires forall r :: r in s'.locks ==> s'.locks[r] == if r in taken then sid else s.locks[r]
    requires Holds(s'.sessions[sid]) == Holds(s.sessions[sid]) + taken
    ensures LocksMoved(s, s', sid)
  {
    hide Holds;
  }

  lemma LocksReleased(s: State, s': State, sid: nat)
    requires LocksOk(s) && sid in s'.sessions
    requires s'.locks == ReleaseAll(s.locks, sid)
    requires Holds(s'.sessions[sid]) == {}
    ensures LocksMoved(s, s', sid)
  {
    hide Holds;
  }

  lemma LocalKeeps(s: State, s': State, sid: nat)
    requires Inv(s) && Local(s, s', sid)
    requires SessionOk(s.db, s'.minted, s'.sessions[sid], sid)
    ensures Inv(s')
  {
    hide ProgramOk, TablesOk, SupplyOk, LocksOk, MintedOk, LocksMoved;
    LocksMovedKeeps(s, s', sid);
    LocalMinted(s, s', sid);
    forall p | p in s'.sessions ensures SessionOk(s'.db, s'.minted, s'.sessions[p], p) {
      if p != sid {
        assert SessionOk(s.db, s.minted, s.sessions[p], p);
        SupplyOkGrows(s.minted, s'.minted, s.sessions[p], p);
      }
    }
  }

  lemma SupplyOkGrows(minted: map<Uuid, nat>, minted': map<Uuid, nat>, x: Session, sid: nat)
    requires SupplyOk(minted, x, sid)
    requires forall id :: id in minted ==> id in minted' && minted'[id] == minted[id]
    ensures SupplyOk(minted', x, sid)
  {
  }

  lemma LocalMinted(s: State, s': State, sid: nat)
    requires MintedOk(s) && Local(s, s', sid)
    ensures MintedOk(s')
  {
    hide LocksMoved;
    forall id ensures MintedByDone(s, id) ==> MintedByDone(s', id) {}
    hide MintedByDone;
  }

  lemma SessionHolds(s: State, sid: nat)
    requires Inv(s) && sid in s.sessions
    ensures SessionOk(s.db, s.minted, s.sessions[sid], sid) && LocksOk(s)
  {
    hide ProgramOk, TablesOk, SupplyOk, LocksOk, MintedOk;
  }

  lemma FinishKeeps(s: State, sid: nat, outcome: Outcome)
    requires Inv(s) && sid in s.sessions
    ensures Inv(Finish(s, sid, outcome))
  {
    var s' := Finish(s, sid, outcome);
    SessionHolds(s, sid);
    FinishedSession(s, sid, outcome);
    hide *;
    LocalKeeps(s, s', sid);
  }

  lemma FinishedSession(s: State, sid: nat, outcome: Outcome)
    requires LocksOk(s) && sid in s.sessions && SessionOk(s.db, s.minted, s.sessions[sid], sid)
    ensures SessionOk(s.db, s.minted, Finish(s, sid, outcome).sessions[sid], sid)
    ensures Local(s, Finish(s, sid, outcome), sid)
  {
    var s' := Finish(s, sid, outcome);
    var x := s.sessions[sid];
    assert ProgramOk(x);
    assert ProgramOk(s'.sessions[sid]);
    hide LocksOk, LocksMoved;
    LocksReleased(s, s', sid);
  }

  /** What a session's own statement has to establish: its new local state, and the locks it took. */
  ghost predicate StepOk(s: State, s': State, sid: nat, taken: set<Resource>) {
    && sid in s.sessions && sid in s'.sessions
    && SessionOk(s.db, s'.minted, s'.sessions[sid], sid)
    && Holds(s'.sessions[sid]) == Holds(s.sessions[sid]) + taken
  }

  lemma StepOkKeeps(s: State, s': State, sid: nat, taken: set<Resource>)
    requires Inv(s) && StepOk(s, s', sid, taken)
    requires !s.sessions[sid].pc.Done?
    requires s'.db == s.db && s'.sessions == s.sessions[sid := s'.sessions[sid]]
    requires forall id :: id in s.minted ==> id in s'.minted && s'.minted[id] == s.minted[id]
    requires forall id :: id in s'.minted && id !in s.minted ==> s'.minted[id] == sid
    requires forall r :: r in taken ==> Available(s.locks, r, sid)
    requires forall r :: r in s'.locks <==> r in s.locks || r in taken
    requires forall r :: r in s'.locks ==> s'.locks[r] == if r in taken then sid else s.locks[r]
    ensures Inv(s')
  {
    hide Holds, SessionOk, Inv, LocksOk, LocksMoved;
    SessionHolds(s, sid);
    LocksTaken(s, s', sid, taken);
    LocalKeeps(s, s', sid);
  }

  lemma SubmitSession(s: State, sid: nat, cmd: TransferCommand, claim: Claim)
    requires sid !in s.sessions
    ensures SessionOk(s.db, s.minted, DoSubmit(s, sid, cmd, claim).sessions[sid], sid)
    ensures Holds(DoSubmit(s, sid, cmd, claim).sessions[sid]) == {}
  {
    hide ValidCurrency;
  }

  lemma SubmitKeeps(s: State, sid: nat, cmd: TransferCommand, claim: Claim)
    requires Inv(s)
    ensures Inv(DoSubmit(s, sid, cmd, claim))
  {
    hide Inv, LocksOk, SessionOk, Holds, Validate;
    if sid !in s.sessions {
      NoStrayLocks(s, sid);
      SubmitSession(s, sid, cmd, claim);
      LocalKeeps(s, DoSubmit(s, sid, cmd, claim), sid);
    }
  }

  lemma NoStrayLocks(s: State, sid: nat)
    requires Inv(s) && sid !in s.sessions
    ensures forall r :: r in s.locks ==> s.locks[r] != sid
  {
    hide ProgramOk, TablesOk, SupplyOk, Holds;
  }

  lemma ClaimKeySession(s: State, sid: nat)
    requires At(s, sid, Claiming) && SessionOk(s.db, s.minted, s.sessions[sid], sid)
    requires DoClaimKey(s, sid) != s
    ensures StepOk(s, DoClaimKey(s, sid), sid,
                   if s.sessions[sid].claim.id in s.db.keys then {} else {KeyTuple(s.sessions[sid].claim.id)})
  {
  }

  lemma ClaimKeyKeeps(s: State, sid: nat)
    requires Inv(s) && At(s, sid, Claiming)
    ensures Inv(DoClaimKey(s, sid))
  {
    hide Inv, SessionOk, StepOk;
    var s' := DoClaimKey(s, sid);
    if s' != s {
      SessionHolds(s, sid);
      ClaimKeySession(s, sid);
      var k := s.sessions[sid].claim.id;
      StepOkKeeps(s, s', sid, if k in s.db.keys then {} else {KeyTuple(k)});
    }
  }

  lemma SelectSession(s: State, sid: nat)
    requires At(s, sid, Selecting) && SessionOk(s.db, s.minted, s.sessions[sid], sid)
    ensures StepOk(s, DoSelect(s, sid), sid, {})
  {
  }

  lemma SelectKeeps(s: State, sid: nat)
    requires Inv(s) && At(s, sid, Selecting)
    ensures Inv(DoSelect(s, sid))
  {
    hide Inv, SessionOk, StepOk;
    SessionHolds(s, sid);
    SelectSession(s, sid);
    StepOkKeeps(s, DoSelect(s, sid), sid, {});
  }

  lemma LockNextSession(s: State, sid: nat)
    requires At(s, sid, Locking) && SessionOk(s.db, s.minted, s.sessions[sid], sid)
    requires DoLockNext(s, sid) != s
    ensures StepOk(s, DoLockNext(s, sid), sid, {AccountRow(s.sessions[sid].todo[0])})
  {
    var x := s.sessions[sid];
    var x' := DoLockNext(s, sid).sessions[sid];
    assert x'.found.Keys == x.found.Keys + {x.todo[0]};
    assert ProgramOk(x') by {
      assert ProgramOk(x);
    }
    assert Holds(x') == Holds(x) + {AccountRow(x.todo[0])} by { hide ProgramOk, TablesOk, SupplyOk; }
  }

  lemma LockNextKeeps(s: State, sid: nat)
    requires Inv(s) && At(s, sid, Locking)
    ensures Inv(DoLockNext(s, sid))
  {
    hide Inv, SessionOk, StepOk;
    var s' := DoLockNext(s, sid);
    if s' != s {
      SessionHolds(s, sid);
      LockNextSession(s, sid);
      StepOkKeeps(s, s', sid, {AccountRow(s.sessions[sid].todo[0])});
    }
  }

  lemma CheckSession(s: State, sid: nat)
    requires At(s, sid, Locking) && SessionOk(s.db, s.minted, s.sessions[sid], sid)
    requires s.sessions[sid].todo == [] && AccountsVerdict(s.sessions[sid].found, s.sessions[sid].cmd) == None
    ensures StepOk(s, DoCheck(s, sid), sid, {})
  {
    var x := s.sessions[sid];
    assert x.found.Keys == {x.cmd.debit, x.cmd.credit};
  }

  lemma CheckKeeps(s: State, sid: nat)
    requires Inv(s) && At(s, sid, Locking)
    ensures Inv(DoCheck(s, sid))
  {
    hide Inv, SessionOk, StepOk;
    var x := s.sessions[sid];
    if x.todo != [] {
    } else if AccountsVerdict(x.found, x.cmd).Some? {
      FinishKeeps(s, sid, Rejected(AccountsVerdict(x.found, x.cmd).value));
    } else {
      SessionHolds(s, sid);
      CheckSession(s, sid);
      StepOkKeeps(s, DoCheck(s, sid), sid, {});
    }
  }

  function RefLock(cmd: TransferCommand): set<Resource> {
    if cmd.externalRef.Some? then {RefTuple(cmd.externalRef.value)} else {}
  }

  lemma InsertTxSession(s: State, sid: nat, id: Uuid)
    requires At(s, sid, InsertingTx) && SessionOk(s.db, s.minted, s.sessions[sid], sid)
    requires id !in s.minted
    requires s.sessions[sid].cmd.externalRef.Some? ==>
      !RefUsed(s.db, s.sessions[sid].cmd.externalRef.value)
      && Available(s.locks, RefTuple(s.sessions[sid].cmd.externalRef.value), sid)
    ensures StepOk(s, DoInsertTx(s, sid, id), sid, RefLock(s.sessions[sid].cmd))
  {
  }

  lemma InsertTxKeeps(s: State, sid: nat, id: Uuid)
    requires Inv(s) && At(s, sid, InsertingTx)
    ensures Inv(DoInsertTx(s, sid, id))
  {
    hide Inv, SessionOk, StepOk, RefUsed;
    var s' := DoInsertTx(s, sid, id);
    var cmd := s.sessions[sid].cmd;
    if s' == s {
    } else if cmd.externalRef.Some? && RefUsed(s.db, cmd.externalRef.value) {
      FinishKeeps(s, sid, Rejected(DuplicateExternalRef));
    } else {
      SessionHolds(s, sid);
      InsertTxSession(s, sid, id);
      StepOkKeeps(s, s', sid, RefLock(cmd));
    }
  }

  lemma InsertEntrySession(s: State, sid: nat, id: Uuid)
    requires sid in s.sessions && s.sessions[sid].pc.InsertingEntry?
    requires SessionOk(s.db, s.minted, s.sessions[sid], sid) && id !in s.minted
    ensures StepOk(s, DoInsertEntry(s, sid, id), sid, {})
  {
    var x := s.sessions[sid];
    var x' := DoInsertEntry(s, sid, id).sessions[sid];
    assert ProgramOk(x') by { hide TablesOk, RefUsed, Holds; }
    hide ProgramOk, RefUsed;
  }

  lemma InsertEntryKeeps(s: State, sid: nat, id: Uuid)
    requires Inv(s) && sid in s.sessions && s.sessions[sid].pc.InsertingEntry?
    ensures Inv(DoInsertEntry(s, sid, id))
  {
    hide Inv, SessionOk, StepOk;
    if id !in s.minted {
      SessionHolds(s, sid);
      InsertEntrySession(s, sid, id);
      StepOkKeeps(s, DoInsertEntry(s, sid, id), sid, {});
    }
  }

  /** The update computes from the very rows that were checked, so neither constraint can fire late. */
  lemma ApplySeesCheckedRows(s: State, sid: nat)
    requires At(s, sid, Applying) && SessionOk(s.db, s.minted, s.sessions[sid], sid)
    ensures NewBalances(s.db.accounts, s.sessions[sid].cmd) == NewBalances(s.sessions[sid].found, s.sessions[sid].cmd)
    ensures NewBalances(s.db.accounts, s.sessions[sid].cmd).Keys == {s.sessions[sid].cmd.debit, s.sessions[sid].cmd.credit}
  {
  }

  lemma AppliedInRange(s: State, sid: nat)
    requires At(s, sid, Applying) && SessionOk(s.db, s.minted, s.sessions[sid], sid)
    requires !DoApply(s, sid).sessions[sid].pc.Done?
    ensures var x := s.sessions[sid];
            && x.found.Keys == {x.cmd.debit, x.cmd.credit} && BalancesInRange(x.found, x.cmd)
            && DoApply(s, sid)
              == Goto(s, sid, x.(pc := Emitting, work := x.work.(balances := NewBalances(x.found, x.cmd))))
  {
    ApplySeesCheckedRows(s, sid);
    var x := s.sessions[sid];
    var b := NewBalances(s.db.accounts, x.cmd);
    assert InInt64(b[x.cmd.debit]) && InInt64(b[x.cmd.credit]);
    hide TablesOk, SupplyOk, WorkAt, FloorHolds, RefUsed;
  }

  lemma AppliedSession(db: Db, minted: map<Uuid, nat>, x: Session, sid: nat)
    requires x.pc.Applying? && SessionOk(db, minted, x, sid)
    requires x.found.Keys == {x.cmd.debit, x.cmd.credit} && BalancesInRange(x.found, x.cmd)
    ensures var y := x.(pc := Emitting, work := x.work.(balances := NewBalances(x.found, x.cmd)));
            SessionOk(db, minted, y, sid) && Holds(y) == Holds(x)
  {
    hide RefUsed, CreatedEvent, TransferEntries, MintedBy, NewBalances, BalancesInRange, AccountsVerdict, Current;
  }

  lemma ApplySession(s: State, sid: nat)
    requires At(s, sid, Applying) && SessionOk(s.db, s.minted, s.sessions[sid], sid)
    requires !DoApply(s, sid).sessions[sid].pc.Done?
    ensures StepOk(s, DoApply(s, sid), sid, {})
  {
    AppliedInRange(s, sid);
    AppliedSession(s.db, s.minted, s.sessions[sid], sid);
    hide DoApply, SessionOk, Holds, NewBalances, BalancesInRange;
  }

  lemma ApplyKeeps(s: State, sid: nat)
    requires Inv(s) && At(s, sid, Applying)
    ensures Inv(DoApply(s, sid))
  {
    hide Inv, SessionOk, StepOk, InInt64, FloorHolds, NewBalances;
    var s' := DoApply(s, sid);
    if s'.sessions[sid].pc.Done? {
      FinishKeeps(s, sid, s'.sessions[sid].pc.outcome);
    } else {
      SessionHolds(s, sid);
      ApplySession(s, sid);
      StepOkKeeps(s, s', sid, {});
    }
  }

  lemma InsertEventSession(s: State, sid: nat, id: Uuid)
    requires At(s, sid, Emitting) && SessionOk(s.db, s.minted, s.sessions[sid], sid) && id !in s.minted
    ensures StepOk(s, DoInsertEvent(s, sid, id), sid, {})
  {
    hide RefUsed;
    var x := s.sessions[sid];
    var x' := DoInsertEvent(s, sid, id).sessions[sid];
    assert ResultOf(x) == TransferTransaction(x.cmd, x.supply);
    assert TransferTransaction(x'.cmd, x'.supply) == TransferTransaction(x.cmd, x.supply);
    hide CreatedEvent;
    assert ProgramOk(x');
  }

  lemma InsertEventKeeps(s: State, sid: nat, id: Uuid)
    requires Inv(s) && At(s, sid, Emitting)
    ensures Inv(DoInsertEvent(s, sid, id))
  {
    hide Inv, SessionOk, StepOk;
    if id !in s.minted {
      SessionHolds(s, sid);
      InsertEventSession(s, sid, id);
      StepOkKeeps(s, DoInsertEvent(s, sid, id), sid, {});
    }
  }

  lemma StoreReplySession(s: State, sid: nat, reply: Reply)
    requires At(s, sid, Storing) && SessionOk(s.db, s.minted, s.sessions[sid], sid)
    ensures StepOk(s, DoStoreReply(s, sid, reply), sid, {})
  {
    hide RefUsed, CreatedEvent;
    var x := s.sessions[sid];
    var x' := DoStoreReply(s, sid, reply).sessions[sid];
    assert TransferTransaction(x'.cmd, x'.supply) == TransferTransaction(x.cmd, x.supply);
    assert ProgramOk(x');
  }

  lemma StoreReplyKeeps(s: State, sid: nat, reply: Reply)
    requires Inv(s) && At(s, sid, Storing)
    ensures Inv(DoStoreReply(s, sid, reply))
  {
    hide Inv, SessionOk, StepOk;
    SessionHolds(s, sid);
    StoreReplySession(s, sid, reply);
    StepOkKeeps(s, DoStoreReply(s, sid, reply), sid, {});
  }
}
