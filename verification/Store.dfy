/**
 * The PostgreSQL store as the program sees it: tables and lock table updated in place by one
 * statement at a time, and Transfer as the sequence of statements it issues while any other
 * sessions' statements run in between.
 */
module PostgresStore {
  import opened Wrappers
  import opened Ledger
  import opened Tables
  import opened Sequential
  import opened LockOrder
  import opened Protocol
  import opened ProtocolInv
  import opened Refinement
  import opened Linearizability
  import opened Progress
  import opened Verdicts

  /** Statements of sessions other than `sid`. */
  predicate Foreign(burst: seq<Action>, sid: nat) {
    forall a <- burst :: Actor(a) != Some(sid)
  }

  /** Nobody else holds a lock. */
  predicate OnlyOwner(locks: Locks, sid: nat) {
    forall r :: r in locks ==> locks[r] == sid
  }

  /** Over, and nothing was posted by this call. */
  predicate Refused(x: Session) {
    x.pc.Done? && !x.pc.outcome.Posted?
  }

  /** How many of these statements are not of this session. */
  function ForeignCount(statements: seq<Action>, sid: nat): nat {
    if statements == [] then 0
    else
      ForeignCount(statements[..|statements| - 1], sid)
      + if Actor(statements[|statements| - 1]) == Some(sid) then 0 else 1
  }

  function Total(bursts: seq<seq<Action>>): nat {
    if bursts == [] then 0 else |bursts[0]| + Total(bursts[1..])
  }

  class Store {
    var accounts: map<Uuid, Account>
    var transactions: map<Uuid, TxRow>
    var entries: seq<Entry>
    var keys: map<KeyId, KeyRow>
    var events: map<Uuid, EventRow>
    var sessions: map<nat, Session>
    var locks: Locks
    var minted: map<Uuid, nat>

    /** Every statement executed so far, by anybody. */
    ghost var performed: seq<Action>

    ghost function State(): Protocol.State
      reads this
    {
      Protocol.State(Db(accounts, transactions, entries, keys, events), sessions, locks, minted)
    }

    constructor ()
      ensures Valid() && performed == []
    {
      accounts, transactions, entries, keys, events := map[], map[], [], map[], map[];
      sessions, locks, minted, performed := map[], map[], map[], [];
    }

    ghost predicate Valid()
      reads this
    {
      State() == Exec(START, performed)
    }

    method CreateAccount(id: Uuid, currency: string, allowNegative: bool)
      modifies this
      ensures State() == Step(old(State()), Open(id, currency, allowNegative))
      ensures performed == old(performed) + [Open(id, currency, allowNegative)]
      ensures accounts == if CurrencyOk(currency) && id !in old(accounts)
                          then old(accounts)[id := Account(currency, 0, allowNegative)] else old(accounts)
    {
      CurrencyMeaning(currency);
      performed := performed + [Open(id, currency, allowNegative)];
      if ValidCurrency(currency) && id !in accounts {
        accounts := accounts[id := Account(currency, 0, allowNegative)];
      }
    }

    /** Service.Transfer's validation, then BEGIN. */
    method Begin(sid: nat, cmd: TransferCommand, claim: Claim)
      modifies this
      ensures State() == Step(old(State()), Submit(sid, cmd, claim))
      ensures performed == old(performed) + [Submit(sid, cmd, claim)]
    {
      performed := performed + [Submit(sid, cmd, claim)];
      if sid !in sessions {
        var invalid := Validate(cmd);
        var pc := if invalid.Some? then Done(Rejected(invalid.value)) else Claiming;
        sessions := sessions[sid := Session(cmd, claim, pc, [], map[], NO_SUPPLY, NO_WORK)];
      }
    }

    /** COMMIT or ROLLBACK: drop the private writes and release every lock. */
    method End(sid: nat, outcome: Outcome)
      requires sid in sessions
      modifies this`sessions, this`locks
      ensures State() == Finish(old(State()), sid, outcome)
    {
      sessions := sessions[sid := sessions[sid].(pc := Done(outcome), todo := [], found := map[], work := NO_WORK)];
      locks := map r | r in locks && locks[r] != sid :: locks[r];
    }

    method ClaimKey(sid: nat)
      modifies this
      ensures State() == Step(old(State()), Protocol.ClaimKey(sid))
      ensures performed == old(performed) + [Protocol.ClaimKey(sid)]
    {
      performed := performed + [Protocol.ClaimKey(sid)];
      if sid !in sessions || sessions[sid].pc != Claiming { return; }
      var x := sessions[sid];
      var k := x.claim.id;
      if k in keys {
        sessions := sessions[sid := x.(pc := Reading)];
      } else if Available(locks, KeyTuple(k), sid) {
        locks := locks[KeyTuple(k) := sid];
        var inserted := map[k := KeyRow(x.claim.fingerprint, None, None)];
        sessions := sessions[sid := x.(pc := Selecting, work := NO_WORK.(keys := inserted))];
      }
    }

    method ReplayStoredResponse(sid: nat)
      modifies this
      ensures State() == Step(old(State()), ReadReply(sid))
      ensures performed == old(performed) + [ReadReply(sid)]
    {
      performed := performed + [ReadReply(sid)];
      if sid !in sessions || sessions[sid].pc != Reading { return; }
      var claim := sessions[sid].claim;
      if claim.id !in keys {
        End(sid, Rejected(MissingStoredReply));
      } else if keys[claim.id].hash != claim.fingerprint {
        End(sid, Rejected(IdempotencyKeyReuse));
      } else if keys[claim.id].reply.None? {
        End(sid, Rejected(MissingStoredReply));
      } else {
        End(sid, Replayed(keys[claim.id].reply.value));
      }
    }

    method SelectForUpdate(sid: nat)
      modifies this
      ensures State() == Step(old(State()), SelectAccounts(sid))
      ensures performed == old(performed) + [SelectAccounts(sid)]
    {
      performed := performed + [SelectAccounts(sid)];
      if sid !in sessions || sessions[sid].pc != Selecting { return; }
      var x := sessions[sid];
      sessions := sessions[sid := x.(pc := Locking, todo := ExistingInOrder(accounts, x.cmd))];
    }

    method LockRow(sid: nat)
      modifies this
      ensures State() == Step(old(State()), LockNext(sid))
      ensures performed == old(performed) + [LockNext(sid)]
    {
      performed := performed + [LockNext(sid)];
      if sid !in sessions || sessions[sid].pc != Locking { return; }
      var x := sessions[sid];
      if x.todo == [] || x.todo[0] !in accounts { return; }
      var id := x.todo[0];
      if Available(locks, AccountRow(id), sid) {
        locks := locks[AccountRow(id) := sid];
        sessions := sessions[sid := x.(todo := x.todo[1..], found := x.found[id := accounts[id]])];
      }
    }

    method CheckLocked(sid: nat)
      modifies this
      ensures State() == Step(old(State()), CheckAccounts(sid))
      ensures performed == old(performed) + [CheckAccounts(sid)]
    {
      performed := performed + [CheckAccounts(sid)];
      if sid !in sessions || sessions[sid].pc != Locking || sessions[sid].todo != [] { return; }
      var x := sessions[sid];
      if x.cmd.debit !in x.found {
        End(sid, Rejected(AccountNotFound(x.cmd.debit)));
      } else if x.cmd.credit !in x.found {
        End(sid, Rejected(AccountNotFound(x.cmd.credit)));
      } else {
        var debit, credit := x.found[x.cmd.debit], x.found[x.cmd.credit];
        if debit.currency != x.cmd.currency || credit.currency != x.cmd.currency {
          End(sid, Rejected(CurrencyMismatch));
        } else if !credit.allowNegative && credit.balance < x.cmd.amount {
          End(sid, Rejected(InsufficientFunds(credit.balance, x.cmd.amount)));
        } else {
          sessions := sessions[sid := x.(pc := InsertingTx)];
        }
      }
    }

    method InsertTransaction(sid: nat, id: Uuid)
      modifies this
      ensures State() == Step(old(State()), InsertTx(sid, id))
      ensures performed == old(performed) + [InsertTx(sid, id)]
    {
      performed := performed + [InsertTx(sid, id)];
      if sid !in sessions || sessions[sid].pc != InsertingTx || id in minted { return; }
      var x := sessions[sid];
      var ref := x.cmd.externalRef;
      if ref.Some? {
        if exists t :: t in transactions && transactions[t].externalRef == Some(ref.value) {
          End(sid, Rejected(DuplicateExternalRef));
          return;
        }
        if !Available(locks, RefTuple(ref.value), sid) { return; }
        locks := locks[RefTuple(ref.value) := sid];
      }
      minted := minted[id := sid];
      sessions := sessions[sid := x.(pc := InsertingEntry(0), supply := x.supply.(txId := id),
                  work := x.work.(transactions := map[id := TxRow(ref, x.cmd.description, x.cmd.currency)]))];
    }

    method InsertLeg(sid: nat, id: Uuid)
      modifies this
      ensures State() == Step(old(State()), InsertEntry(sid, id))
      ensures performed == old(performed) + [InsertEntry(sid, id)]
    {
      performed := performed + [InsertEntry(sid, id)];
      if sid !in sessions || !sessions[sid].pc.InsertingEntry? || id in minted { return; }
      var x := sessions[sid];
      minted := minted[id := sid];
      var row := Leg(x.cmd, x.supply.txId, x.pc.leg, id);
      if x.pc.leg == 0 {
        sessions := sessions[sid := x.(pc := InsertingEntry(1), supply := x.supply.(debitEntry := id),
                                       work := x.work.(entries := x.work.entries + [row]))];
      } else {
        sessions := sessions[sid := x.(pc := Applying, supply := x.supply.(creditEntry := id),
                                       work := x.work.(entries := x.work.entries + [row]))];
      }
    }

    method UpdateBalances(sid: nat)
      modifies this
      ensures State() == Step(old(State()), ApplyBalances(sid))
      ensures performed == old(performed) + [ApplyBalances(sid)]
    {
      hide NewBalances, InInt64, FloorHolds;
      performed := performed + [ApplyBalances(sid)];
      if sid !in sessions || sessions[sid].pc != Applying { return; }
      var x := sessions[sid];
      var balances := NewBalances(accounts, x.cmd);
      if exists id :: id in balances && !InInt64(balances[id]) {
        End(sid, Rejected(BalanceOutOfRange));
      } else if exists id :: id in balances && id in accounts && !FloorHolds(accounts[id].(balance := balances[id])) {
        End(sid, Rejected(FloorBreached));
      } else {
        sessions := sessions[sid := x.(pc := Emitting, work := x.work.(balances := balances))];
      }
    }

    method InsertOutboxEvent(sid: nat, id: Uuid)
      modifies this
      ensures State() == Step(old(State()), InsertEvent(sid, id))
      ensures performed == old(performed) + [InsertEvent(sid, id)]
    {
      performed := performed + [InsertEvent(sid, id)];
      if sid !in sessions || sessions[sid].pc != Emitting || id in minted { return; }
      var x := sessions[sid];
      var event := NewTransactionCreated(ResultOf(x));
      minted := minted[id := sid];
      sessions := sessions[sid := x.(pc := Storing, supply := x.supply.(eventId := id),
                                     work := x.work.(events := map[id := event]))];
    }

    method StoreResponse(sid: nat, reply: Reply)
      modifies this
      ensures State() == Step(old(State()), StoreReply(sid, reply))
      ensures performed == old(performed) + [StoreReply(sid, reply)]
    {
      performed := performed + [StoreReply(sid, reply)];
      if sid !in sessions || sessions[sid].pc != Storing { return; }
      var x := sessions[sid];
      var updated := map k | k in x.work.keys ::
        if k == x.claim.id then x.work.keys[k].(reply := Some(reply), transactionId := Some(x.supply.txId))
        else x.work.keys[k];
      sessions := sessions[sid := x.(pc := Committing, supply := x.supply.(reply := reply),
                                     work := x.work.(keys := updated))];
    }

    /** Private writes become visible, table by table. */
    method Publish(w: Work)
      modifies this`accounts, this`transactions, this`entries, this`keys, this`events
      ensures State() == old(State()).(db := Merge(old(State()).db, w))
    {
      accounts := map id | id in accounts ::
        if id in w.balances then accounts[id].(balance := w.balances[id]) else accounts[id];
      transactions := transactions + w.transactions;
      entries := entries + w.entries;
      keys := keys + w.keys;
      events := events + w.events;
    }

    method CommitTransaction(sid: nat, answered: bool)
      modifies this
      ensures State() == Step(old(State()), Commit(sid, answered))
      ensures performed == old(performed) + [Commit(sid, answered)]
    {
      performed := performed + [Commit(sid, answered)];
      if sid !in sessions || sessions[sid].pc != Committing { return; }
      var x := sessions[sid];
      if !TriggerPasses(LegsOf(entries + x.work.entries, x.supply.txId)) {
        End(sid, Rejected(UnbalancedTransaction));
        return;
      }
      hide TriggerPasses, LegsOf, WrappedSum, Finish;
      Publish(x.work);
      var ok := Balanced(x.work.entries);
      End(sid, if !answered then Lost
               else if !ok then Rejected(UnbalancedTransaction)
               else Posted(x.supply.reply, ResultOf(x)));
    }

    method Rollback(sid: nat)
      modifies this
      ensures State() == Step(old(State()), Abort(sid))
      ensures performed == old(performed) + [Abort(sid)]
    {
      performed := performed + [Abort(sid)];
      if sid in sessions && !sessions[sid].pc.Done? {
        End(sid, Lost);
      }
    }

    /** One statement of whichever session the action names. */
    method Perform(a: Action)
      modifies this
      ensures State() == Step(old(State()), a)
      ensures performed == old(performed) + [a]
    {
      hide Step;
      match a {
        case Open(id, currency, allowNegative) => CreateAccount(id, currency, allowNegative);
        case Submit(sid, cmd, claim) => Begin(sid, cmd, claim);
        case ClaimKey(sid) => ClaimKey(sid);
        case ReadReply(sid) => ReplayStoredResponse(sid);
        case SelectAccounts(sid) => SelectForUpdate(sid);
        case LockNext(sid) => LockRow(sid);
        case CheckAccounts(sid) => CheckLocked(sid);
        case InsertTx(sid, id) => InsertTransaction(sid, id);
        case InsertEntry(sid, id) => InsertLeg(sid, id);
        case ApplyBalances(sid) => UpdateBalances(sid);
        case InsertEvent(sid, id) => InsertOutboxEvent(sid, id);
        case StoreReply(sid, reply) => StoreResponse(sid, reply);
        case Commit(sid, answered) => CommitTransaction(sid, answered);
        case Abort(sid) => Rollback(sid);
      }
    }

    /** Statements of other sessions, one after the other. */
    method Interfere(sid: nat, burst: seq<Action>)
      requires Valid() && sid in sessions
      requires Foreign(burst, sid)
      modifies this
      ensures Valid() && performed == old(performed) + burst
      ensures sid in sessions && sessions[sid] == old(sessions[sid])
    {
      hide Step, Exec;
      for i := 0 to |burst|
        invariant Valid() && performed == old(performed) + burst[..i]
        invariant sid in sessions && sessions[sid] == old(sessions[sid])
      {
        ExecConcat(START, performed, burst[i]);
        SessionUntouched(State(), burst[i], sid);
        Perform(burst[i]);
      }
    }

    /** uuid.New(): an identifier never generated before. */
    method NewUuid() returns (id: Uuid)
      ensures id !in minted
    {
      var rest := minted.Keys;
      id := 0;
      while rest != {}
        invariant rest <= minted.Keys
        invariant forall k :: k in minted && k !in rest ==> k < id
      {
        var k :| k in rest;
        rest := rest - {k};
        id := if id <= k then k + 1 else id;
      }
    }

    /** The call that began after `before` is still executing, with the arguments it was given. */
    ghost predicate InCall(sid: nat, cmd: TransferCommand, claim: Claim, before: seq<Action>)
      reads this
    {
      && Valid() && before <= performed
      && sid in sessions && sessions[sid].cmd == cmd && sessions[sid].claim == claim
    }

    /** How many statements of others have run since `before`. */
    ghost function Strangers(sid: nat, before: seq<Action>): nat
      requires before <= performed
      reads this
    {
      ForeignCount(performed[|before|..], sid)
    }

    /** Between two statements of a call, the next burst of other sessions' statements runs. */
    method Interleave(sid: nat, others: seq<seq<Action>>, ghost before: seq<Action>) returns (rest: seq<seq<Action>>)
      requires Valid() && sid in sessions && before <= performed
      requires forall b <- others :: Foreign(b, sid)
      modifies this
      ensures Valid() && old(performed) <= performed
      ensures Strangers(sid, before) + Total(rest) == old(Strangers(sid, before)) + Total(others)
      ensures sid in sessions && sessions[sid] == old(sessions[sid])
      ensures |rest| == if others == [] then 0 else |others| - 1
      ensures others == [] ==> State() == old(State())
      ensures forall b <- rest :: Foreign(b, sid)
    {
      if others == [] { return []; }
      assert others[0] in others;
      StrangersRun(performed, others[0], |before|, sid);
      Interfere(sid, others[0]);
      rest := others[1..];
    }
  
    /** The deferred rollback: the call's context ended or a step of its own failed. */
    method Expire(sid: nat, cmd: TransferCommand, claim: Claim, ghost before: seq<Action>)
      requires InCall(sid, cmd, claim, before) && !sessions[sid].pc.Done?
      modifies this
      ensures InCall(sid, cmd, claim, before) && sessions[sid].pc == Done(Lost)
      ensures Strangers(sid, before) == old(Strangers(sid, before))
    {
      hide Step, Exec;
      OwnStep(performed, Abort(sid), sid);
      AbortGoes(State(), sid);
      Rollback(sid);
    }

    /**
     * claimKey: wait for the key tuple until it is ours or its row is committed. When the schedule of
     * the others runs out while the lock is taken, the caller's deadline expires and the call aborts.
     */
    method ClaimPhase(sid: nat, cmd: TransferCommand, claim: Claim, others: seq<seq<Action>>, ghost before: seq<Action>)
      returns (rest: seq<seq<Action>>)
      requires InCall(sid, cmd, claim, before) && sessions[sid].pc == Claiming
      requires forall b <- others :: Foreign(b, sid)
      modifies this
      ensures InCall(sid, cmd, claim, before) && sessions[sid].pc in {Selecting, Reading, Done(Lost)}
      ensures Strangers(sid, before) + Total(rest) == old(Strangers(sid, before)) + Total(others)
      ensures sessions[sid].pc == Done(Lost) ==> rest == []
      ensures forall b <- rest :: Foreign(b, sid)
      ensures old(OnlyOwner(locks, sid)) && others == [] ==>
        OnlyOwner(locks, sid) && rest == [] && sessions[sid].pc != Done(Lost)
    {
      hide Step, Exec;
      rest := others;
      while sessions[sid].pc == Claiming
        invariant InCall(sid, cmd, claim, before) && sessions[sid].pc in {Claiming, Selecting, Reading}
        invariant forall b <- rest :: Foreign(b, sid)
        invariant Strangers(sid, before) + Total(rest) == old(Strangers(sid, before)) + Total(others)
        invariant old(OnlyOwner(locks, sid)) && others == [] ==> OnlyOwner(locks, sid) && rest == []
        decreases |rest|, sessions[sid].pc == Claiming
      {
        OwnStep(performed, Protocol.ClaimKey(sid), sid);
        ClaimGoes(State(), sid);
        ClaimKey(sid);
        if sessions[sid].pc == Claiming {
          if rest == [] {
            Expire(sid, cmd, claim, before);
            return;
          }
          rest := Interleave(sid, rest, before);
        }
      }
    }

    /** lockAccounts: the statement starts, then locks and reads its rows in ascending id order. */
    method LockPhase(sid: nat, cmd: TransferCommand, claim: Claim, others: seq<seq<Action>>, ghost before: seq<Action>)
      returns (rest: seq<seq<Action>>)
      requires InCall(sid, cmd, claim, before) && sessions[sid].pc == Selecting
      requires forall b <- others :: Foreign(b, sid)
      modifies this
      ensures InCall(sid, cmd, claim, before) && (sessions[sid].pc == InsertingTx || Refused(sessions[sid]))
      ensures Strangers(sid, before) + Total(rest) == old(Strangers(sid, before)) + Total(others)
      ensures sessions[sid].pc == Done(Lost) ==> rest == []
      ensures forall b <- rest :: Foreign(b, sid)
      ensures old(OnlyOwner(locks, sid)) && others == [] ==>
        OnlyOwner(locks, sid) && rest == [] && sessions[sid].pc != Done(Lost)
    {
      hide Step, Exec, Foreign, ExistingInOrder, AccountsVerdict;
      OwnStep(performed, SelectAccounts(sid), sid);
      SelectGoes(State(), sid);
      SelectForUpdate(sid);
      rest := Interleave(sid, others, before);
      rest := LockRows(sid, cmd, claim, rest, before);
      if sessions[sid].pc.Done? { return; }
      OwnStep(performed, CheckAccounts(sid), sid);
      CheckGoes(State(), sid);
      CheckLocked(sid);
    }

    /** The row locks, one at a time; a call that would wait for ever ends without an answer. */
    method LockRows(sid: nat, cmd: TransferCommand, claim: Claim, others: seq<seq<Action>>, ghost before: seq<Action>)
      returns (rest: seq<seq<Action>>)
      requires InCall(sid, cmd, claim, before) && sessions[sid].pc == Locking
      requires forall b <- others :: Foreign(b, sid)
      modifies this
      ensures InCall(sid, cmd, claim, before)
      ensures (sessions[sid].pc == Locking && sessions[sid].todo == []) || Refused(sessions[sid])
      ensures Strangers(sid, before) + Total(rest) == old(Strangers(sid, before)) + Total(others)
      ensures sessions[sid].pc == Done(Lost) ==> rest == []
      ensures forall b <- rest :: Foreign(b, sid)
      ensures old(OnlyOwner(locks, sid)) && others == [] ==>
        OnlyOwner(locks, sid) && rest == [] && sessions[sid].pc == Locking
    {
      hide Step, Exec, Foreign;
      rest := others;
      while sessions[sid].todo != []
        invariant InCall(sid, cmd, claim, before) && sessions[sid].pc == Locking
        invariant forall b <- rest :: Foreign(b, sid)
        invariant Strangers(sid, before) + Total(rest) == old(Strangers(sid, before)) + Total(others)
        invariant old(OnlyOwner(locks, sid)) && others == [] ==> OnlyOwner(locks, sid) && rest == []
        decreases |rest|, |sessions[sid].todo|
      {
        OwnStep(performed, LockNext(sid), sid);
        TodoExists(performed, sid);
        LockGoes(State(), sid);
        var todo := sessions[sid].todo;
        LockRow(sid);
        if rest != [] {
          rest := Interleave(sid, rest, before);
        } else if sessions[sid].todo == todo {
          Expire(sid, cmd, claim, before);
          return;
        }
      }
    }

    /** writeTransaction: the transaction row, then the entries. */
    method WritePhase(sid: nat, cmd: TransferCommand, claim: Claim, others: seq<seq<Action>>, ghost before: seq<Action>)
      returns (rest: seq<seq<Action>>)
      requires InCall(sid, cmd, claim, before) && sessions[sid].pc == InsertingTx
      requires forall b <- others :: Foreign(b, sid)
      modifies this
      ensures InCall(sid, cmd, claim, before) && (sessions[sid].pc == Applying || Refused(sessions[sid]))
      ensures Strangers(sid, before) + Total(rest) == old(Strangers(sid, before)) + Total(others)
      ensures sessions[sid].pc == Done(Lost) ==> rest == []
      ensures forall b <- rest :: Foreign(b, sid)
      ensures old(OnlyOwner(locks, sid)) && others == [] ==>
        OnlyOwner(locks, sid) && rest == [] && sessions[sid].pc != Done(Lost)
    {
      hide Step, Exec;
      rest := others;
      while sessions[sid].pc == InsertingTx
        invariant InCall(sid, cmd, claim, before)
        invariant sessions[sid].pc in {InsertingTx, InsertingEntry(0)} || (sessions[sid].pc.Done? && sessions[sid].pc.outcome.Rejected?)
        invariant forall b <- rest :: Foreign(b, sid)
        invariant Strangers(sid, before) + Total(rest) == old(Strangers(sid, before)) + Total(others)
        invariant old(OnlyOwner(locks, sid)) && others == [] ==> OnlyOwner(locks, sid) && rest == []
        decreases |rest|, sessions[sid].pc == InsertingTx
      {
        var id := NewUuid();
        OwnStep(performed, InsertTx(sid, id), sid);
        InsertTxGoes(State(), sid, id);
        InsertTransaction(sid, id);
        if sessions[sid].pc == InsertingTx {
          if rest == [] {
            Expire(sid, cmd, claim, before);
            return;
          }
          rest := Interleave(sid, rest, before);
        }
      }
      if sessions[sid].pc.Done? { return; }
      rest := EntryPhase(sid, cmd, claim, rest, before);
    }

    /** One entry per leg. */
    method EntryPhase(sid: nat, cmd: TransferCommand, claim: Claim, others: seq<seq<Action>>, ghost before: seq<Action>)
      returns (rest: seq<seq<Action>>)
      requires InCall(sid, cmd, claim, before) && sessions[sid].pc == InsertingEntry(0)
      requires forall b <- others :: Foreign(b, sid)
      modifies this
      ensures InCall(sid, cmd, claim, before) && sessions[sid].pc == Applying
      ensures Strangers(sid, before) + Total(rest) == old(Strangers(sid, before)) + Total(others)
      ensures forall b <- rest :: Foreign(b, sid)
      ensures old(OnlyOwner(locks, sid)) && others == [] ==> OnlyOwner(locks, sid) && rest == []
    {
      hide Step, Exec;
      rest := others;
      for leg := 0 to 2
        invariant InCall(sid, cmd, claim, before)
        invariant sessions[sid].pc == if leg < 2 then InsertingEntry(leg) else Applying
        invariant forall b <- rest :: Foreign(b, sid)
        invariant Strangers(sid, before) + Total(rest) == old(Strangers(sid, before)) + Total(others)
        invariant old(OnlyOwner(locks, sid)) && others == [] ==> OnlyOwner(locks, sid) && rest == []
      {
        rest := Interleave(sid, rest, before);
        var id := NewUuid();
        OwnStep(performed, InsertEntry(sid, id), sid);
        InsertEntryGoes(State(), sid, id);
        InsertLeg(sid, id);
      }
    }

    /** applyBalances, then the outbox event in the same transaction. */
    method EmitPhase(sid: nat, cmd: TransferCommand, claim: Claim, others: seq<seq<Action>>, ghost before: seq<Action>)
      returns (rest: seq<seq<Action>>)
      requires InCall(sid, cmd, claim, before) && sessions[sid].pc == Applying
      requires forall b <- others :: Foreign(b, sid)
      modifies this
      ensures InCall(sid, cmd, claim, before) && (sessions[sid].pc == Storing || Refused(sessions[sid]))
      ensures Strangers(sid, before) + Total(rest) == old(Strangers(sid, before)) + Total(others)
      ensures sessions[sid].pc == Done(Lost) ==> rest == []
      ensures forall b <- rest :: Foreign(b, sid)
      ensures old(OnlyOwner(locks, sid)) && others == [] ==>
        OnlyOwner(locks, sid) && rest == [] && sessions[sid].pc != Done(Lost)
    {
      hide Step, Exec;
      OwnStep(performed, ApplyBalances(sid), sid);
      ApplyGoes(State(), sid);
      UpdateBalances(sid);
      rest := Interleave(sid, others, before);
      if sessions[sid].pc.Done? { return; }
      var id := NewUuid();
      OwnStep(performed, InsertEvent(sid, id), sid);
      InsertEventGoes(State(), sid, id);
      InsertOutboxEvent(sid, id);
      rest := Interleave(sid, rest, before);
    }

    /** Render inside the transaction, store the reply, commit; a renderer that fails aborts the call. */
    method ReplyPhase(sid: nat, cmd: TransferCommand, claim: Claim, render: Transaction -> Option<Reply>,
        others: seq<seq<Action>>, answered: bool, ghost before: seq<Action>)
      returns (rest: seq<seq<Action>>)
      requires InCall(sid, cmd, claim, before) && sessions[sid].pc == Storing
      requires forall b <- others :: Foreign(b, sid)
      modifies this
      ensures InCall(sid, cmd, claim, before) && sessions[sid].pc.Done?
      ensures sessions[sid].pc.outcome.Posted? ==>
        render(sessions[sid].pc.outcome.transaction) == Some(sessions[sid].pc.outcome.reply)
      ensures answered && (forall t :: render(t).Some?) ==> sessions[sid].pc != Done(Lost)
      ensures Strangers(sid, before) + Total(rest) == old(Strangers(sid, before)) + Total(others)
    {
      hide Step, Exec;
      rest := others;
      var reply := render(ResultOf(sessions[sid]));
      if reply.None? {
        Expire(sid, cmd, claim, before);
        return;
      }
      OwnStep(performed, StoreReply(sid, reply.value), sid);
      StoreReplyGoes(State(), sid, reply.value);
      StoreResponse(sid, reply.value);
      rest := Interleave(sid, others, before);
      OwnStep(performed, Commit(sid, answered), sid);
      CommitGoes(State(), sid, answered);
      CommitTransaction(sid, answered);
    }

    /** The body of Store.Transfer once the key is owned. */
    method ExecutePhase(sid: nat, cmd: TransferCommand, claim: Claim, render: Transaction -> Option<Reply>,
        others: seq<seq<Action>>, answered: bool, ghost before: seq<Action>)
      returns (rest: seq<seq<Action>>)
      requires InCall(sid, cmd, claim, before) && sessions[sid].pc == Selecting
      requires forall b <- others :: Foreign(b, sid)
      modifies this
      ensures InCall(sid, cmd, claim, before) && sessions[sid].pc.Done?
      ensures sessions[sid].pc.outcome.Posted? ==>
        render(sessions[sid].pc.outcome.transaction) == Some(sessions[sid].pc.outcome.reply)
      ensures old(OnlyOwner(locks, sid)) && others == [] && answered && (forall t :: render(t).Some?) ==> sessions[sid].pc != Done(Lost)
      ensures answered && (forall t :: render(t).Some?) && sessions[sid].pc == Done(Lost) ==> rest == []
      ensures Strangers(sid, before) + Total(rest) == old(Strangers(sid, before)) + Total(others)
    {
      hide Step, Exec, Foreign, ForeignCount, Total;
      rest := LockPhase(sid, cmd, claim, others, before);
      if sessions[sid].pc.Done? { return; }
      rest := Interleave(sid, rest, before);
      rest := WritePhase(sid, cmd, claim, rest, before);
      if sessions[sid].pc.Done? { return; }
      rest := Interleave(sid, rest, before);
      rest := EmitPhase(sid, cmd, claim, rest, before);
      if sessions[sid].pc.Done? { return; }
      rest := ReplyPhase(sid, cmd, claim, render, rest, answered, before);
    }

    /**
     * Service.Transfer and Store.Transfer in the midst of any other sessions. The answer, unless it
     * was lost, is the one the reference ledger gives at a moment between the call and its return. It
     * is lost only if it did not arrive, if the renderer failed, or if the call still waited after
     * everything the others did. A call alone posts exactly when the tables allow it.
     */
    method Transfer(sid: nat, cmd: TransferCommand, claim: Claim, render: Transaction -> Option<Reply>,
        others: seq<seq<Action>>, answered: bool)
      returns (o: Outcome, unused: seq<seq<Action>>)
      requires Valid() && sid !in sessions
      requires forall b <- others :: Foreign(b, sid)
      modifies this
      ensures Valid() && old(performed) <= performed
      ensures At(State(), sid, Done(o)) && State().sessions[sid].cmd == cmd && State().sessions[sid].claim == claim
      ensures o.Posted? ==> render(o.transaction) == Some(o.reply)
      ensures o != Lost ==> exists i: nat ::
        |History(old(performed))| <= i && TookEffect(History(performed), i, sid, State().sessions[sid], o)
      ensures Strangers(sid, old(performed)) + Total(unused) == Total(others)
      ensures answered && (forall t :: render(t).Some?) && o == Lost ==> unused == []
      ensures old(locks) == map[] && others == [] && answered && (forall t :: render(t).Some?) ==>
        o != Lost && AnsweredAlone(old(State()).db, cmd, claim, o, State().db)
    {
      hide Step, Exec, History, TookEffect, Foreign, Settled, AnsweredAlone, ForeignCount, Total;
      ghost var before := performed;
      NobodyYet(before, others, sid);
      OwnStep(performed, Submit(sid, cmd, claim), sid);
      SubmitGoes(State(), sid, cmd, claim);
      Begin(sid, cmd, claim);
      unused := Interleave(sid, others, before);
      if sessions[sid].pc == Claiming {
        unused := ClaimPhase(sid, cmd, claim, unused, before);
        unused := Interleave(sid, unused, before);
        if sessions[sid].pc == Reading {
          OwnStep(performed, ReadReply(sid), sid);
          ReadGoes(State(), sid);
          ReplayStoredResponse(sid);
        } else if sessions[sid].pc == Selecting {
          unused := ExecutePhase(sid, cmd, claim, render, unused, answered, before);
        }
      }
      o := sessions[sid].pc.outcome;
      if o != Lost {
        TookEffectDuringCall(before, performed, sid, o);
        if others == [] {
          AloneAnswer(before, performed, sid, o);
        }
      }
    }
  }

  /**
   * What a call does that nobody interferes with: it posts exactly when the tables allow it, and then
   * writes exactly that; otherwise it writes nothing, and its answer is that of the reference ledger.
   */
  ghost predicate AnsweredAlone(before: Db, cmd: TransferCommand, claim: Claim, o: Outcome, after: Db) {
    && (o.Posted? <==> Acceptable(before, cmd, claim))
    && exists v: Supply ::
      && o == Answer(before, cmd, claim, v)
      && if o.Posted? then IdsAreFree(before, v) && Written(before, cmd, claim, v, after) else after == before
  }

  lemma {:induction false} ForeignCountConcat(xs: seq<Action>, ys: seq<Action>, sid: nat)
    ensures ForeignCount(xs + ys, sid) == ForeignCount(xs, sid) + ForeignCount(ys, sid)
  {
    if ys == [] {
      assert xs + ys == xs;
    } else {
      ForeignCountConcat(xs, ys[..|ys| - 1], sid);
      assert (xs + ys)[..|xs + ys| - 1] == xs + ys[..|ys| - 1];
    }
  }

  lemma {:induction false} AllForeign(burst: seq<Action>, sid: nat)
    requires Foreign(burst, sid)
    ensures ForeignCount(burst, sid) == |burst|
  {
    if burst != [] {
      AllForeign(burst[..|burst| - 1], sid);
      assert burst[|burst| - 1] in burst;
    }
  }

  lemma StrangersRun(performed: seq<Action>, burst: seq<Action>, n: nat, sid: nat)
    requires n <= |performed| && Foreign(burst, sid)
    ensures ForeignCount((performed + burst)[n..], sid) == ForeignCount(performed[n..], sid) + |burst|
  {
    assert (performed + burst)[n..] == performed[n..] + burst;
    ForeignCountConcat(performed[n..], burst, sid);
    AllForeign(burst, sid);
  }

  lemma NobodyYet(before: seq<Action>, others: seq<seq<Action>>, sid: nat)
    ensures ForeignCount(before[|before|..], sid) == 0
    ensures others == [] ==> Total(others) == 0
  {
  }

  // ---------- a call alone ----------

  lemma EffectiveBy(s: State, a: Action, sid: nat)
    requires Actor(a) == Some(sid)
    ensures forall op <- Effective(s, a) :: op.Transfer? && op.sid == sid
  {
    hide Settled, DoSelect, DoCheck, DoInsertTx, DoApply, Validate;
  }

  /** With nobody else at work, every operation that took effect since is this session's. */
  lemma {:induction false} AloneHistory(before: seq<Action>, after: seq<Action>, sid: nat)
    requires before <= after && ForeignCount(after[|before|..], sid) == 0
    ensures History(before) <= History(after)
    ensures forall i :: |History(before)| <= i < |History(after)| ==>
      History(after)[i].Transfer? && History(after)[i].sid == sid
    decreases |after|
  {
    if |after| == |before| {
      assert after == before;
    } else {
      hide Effective, Exec;
      var init, a := after[..|after| - 1], after[|after| - 1];
      assert after[|before|..] == init[|before|..] + [a];
      ForeignCountConcat(init[|before|..], [a], sid);
      assert ForeignCount([a], sid) == if Actor(a) == Some(sid) then 0 else 1 by { assert [a][..0] == []; }
      AloneHistory(before, init, sid);
      EffectiveBy(Exec(START, init), a, sid);
      assert History(after) == History(init) + Effective(Exec(START, init), a);
    }
  }

  ghost predicate NeverCollides(s: State) {
    forall p :: p in s.sessions ==> s.sessions[p].pc != Done(Rejected(DuplicateId))
  }

  lemma StepNeverCollides(s: State, a: Action)
    requires NeverCollides(s)
    ensures NeverCollides(Step(s, a))
  {
    hide Step;
    forall p | p in Step(s, a).sessions ensures Step(s, a).sessions[p].pc != Done(Rejected(DuplicateId)) {
      if Actor(a) == Some(p) {
        OwnNeverCollides(s, a, p);
      } else {
        NobodyAppears(s, a, p);
        SessionUntouched(s, a, p);
      }
    }
  }

  lemma NobodyAppears(s: State, a: Action, p: nat)
    requires Actor(a) != Some(p) && p in Step(s, a).sessions
    ensures p in s.sessions
  {
    hide RefUsed, AccountsVerdict, NewBalances, Merge, TriggerPasses, LegsOf, WrappedSum, CreatedEvent, ExistingInOrder,
      Validate, StoredAnswer, ResultOf, Leg, InInt64, FloorHolds, Available, ReleaseAll;
  }

  lemma OwnNeverCollides(s: State, a: Action, p: nat)
    requires NeverCollides(s) && Actor(a) == Some(p) && p in Step(s, a).sessions
    ensures Step(s, a).sessions[p].pc != Done(Rejected(DuplicateId))
  {
    hide NewBalances, TriggerPasses, LegsOf, WrappedSum, InInt64, FloorHolds, Merge, RefUsed, Available, ReleaseAll,
      ExistingInOrder, CreatedEvent, ResultOf, Leg;
    match a
    case ReadReply(_) =>
    case CheckAccounts(_) =>
    case Submit(_, _, _) =>
    case _ => hide AccountsVerdict, StoredAnswer, Validate;
  }

  /** Generated identifiers never collide with stored ones. */
  lemma {:induction false} AlwaysFresh(schedule: seq<Action>)
    ensures NeverCollides(Exec(START, schedule))
  {
    if schedule != [] {
      hide Step;
      AlwaysFresh(schedule[..|schedule| - 1]);
      StepNeverCollides(Exec(START, schedule[..|schedule| - 1]), schedule[|schedule| - 1]);
    }
  }

  lemma AloneAnswer(before: seq<Action>, after: seq<Action>, sid: nat, o: Outcome)
    requires before <= after && ForeignCount(after[|before|..], sid) == 0
    requires sid !in Exec(START, before).sessions && At(Exec(START, after), sid, Done(o)) && o != Lost
    ensures var s, s', x := Exec(START, before), Exec(START, after), Exec(START, after).sessions[sid];
            AnsweredAlone(s.db, x.cmd, x.claim, o, s'.db)
  {
    hide Exec, History, Answer, Effective, Effect, ForeignCount, Spent, Carried, AnsweredAlone, Settled;
    var x := Exec(START, after).sessions[sid];
    TookEffectDuringCall(before, after, sid, o);
    AloneHistory(before, after, sid);
    Linearizable(before);
    Linearizable(after);
    AlwaysFresh(after);
    var h, h' := History(before), History(after);
    var i: nat :| |h| <= i && TookEffect(h', i, sid, x, o);
    assert h'[|h|].sid == sid && h'[|h'| - 1].sid == sid;
    assert i == |h| && |h'| == i + 1;
    assert h'[..i] == h;
    OneOperation(Run(EMPTY_DB, h), h'[i], o);
  }

  lemma OneOperation(db: Db, op: Op, o: Outcome)
    requires op.Transfer? && Answer(db, op.cmd, op.claim, op.supply) == o && o != Rejected(DuplicateId)
    ensures AnsweredAlone(db, op.cmd, op.claim, o, Effect(db, op))
  {
    hide Answer, Effect, Acceptable, IdsAreFree, Written;
    PostsExactlyWhen(db, op.cmd, op.claim, op.supply);
    WritesRefusedExactlyWhen(db, op.cmd, op.claim, op.supply);
    if o.Posted? {
      PostingWrites(db, op);
    } else {
      OtherwiseNothing(db, op);
    }
  }

  lemma SessionUntouched(s: State, a: Action, p: nat)
    requires p in s.sessions && Actor(a) != Some(p)
    ensures p in Step(s, a).sessions && Step(s, a).sessions[p] == s.sessions[p]
  {
    if Actor(a).Some? {
      OthersUntouched(s, a, Actor(a).value, p);
    }
  }

  // ---------- where each statement leads its own session ----------

  lemma OwnStep(schedule: seq<Action>, a: Action, sid: nat)
    requires Actor(a) == Some(sid)
    ensures Exec(START, schedule + [a]) == Step(Exec(START, schedule), a)
    ensures forall n: nat :: n <= |schedule| ==>
      ForeignCount((schedule + [a])[n..], sid) == ForeignCount(schedule[n..], sid)
    ensures var s := Exec(START, schedule);
            sid in s.sessions ==>
              && sid in Step(s, a).sessions
              && Step(s, a).sessions[sid].cmd == s.sessions[sid].cmd
              && Step(s, a).sessions[sid].claim == s.sessions[sid].claim
    ensures OnlyOwner(Exec(START, schedule).locks, sid) ==> OnlyOwner(Step(Exec(START, schedule), a).locks, sid)
  {
    forall n: nat | n <= |schedule|
      ensures ForeignCount((schedule + [a])[n..], sid) == ForeignCount(schedule[n..], sid)
    {
      assert (schedule + [a])[n..] == schedule[n..] + [a];
      assert [a][..0] == [];
      ForeignCountConcat(schedule[n..], [a], sid);
    }
    if OnlyOwner(Exec(START, schedule).locks, sid) {
      NobodyElseGains(Exec(START, schedule), a, sid);
    }
    ExecConcat(START, schedule, a);
    hide Exec, Step;
    AlwaysGood(schedule);
    StepSimulates(Exec(START, schedule), a);
    hide Good, Settled, Spent, Effective, Answered;
  }

  lemma NobodyElseGains(s: State, a: Action, sid: nat)
    requires Actor(a) == Some(sid) && OnlyOwner(s.locks, sid)
    ensures OnlyOwner(Step(s, a).locks, sid)
  {
    hide RefUsed, AccountsVerdict, NewBalances, InInt64, FloorHolds, TriggerPasses, WrappedSum, LegsOf, Merge;
  }

  /** A row the locking SELECT has still to lock exists. */
  lemma TodoExists(schedule: seq<Action>, sid: nat)
    requires At(Exec(START, schedule), sid, Locking) && Exec(START, schedule).sessions[sid].todo != []
    ensures Exec(START, schedule).sessions[sid].todo[0] in Exec(START, schedule).db.accounts
  {
    var s := Exec(START, schedule);
    AlwaysGood(schedule);
    GoodInv(s);
    SessionHolds(s, sid);
    hide Exec, Inv, ProgramOk, SupplyOk, RefUsed;
  }

  lemma SubmitGoes(s: State, sid: nat, cmd: TransferCommand, claim: Claim)
    requires sid !in s.sessions
    ensures var s' := Step(s, Submit(sid, cmd, claim));
            && sid in s'.sessions && s'.sessions[sid].cmd == cmd && s'.sessions[sid].claim == claim
            && (s'.sessions[sid].pc == Claiming
                || (s'.sessions[sid].pc.Done? && s'.sessions[sid].pc.outcome.Rejected?))
  {
  }

  lemma ClaimGoes(s: State, sid: nat)
    requires At(s, sid, Claiming)
    ensures Step(s, ClaimKey(sid)).sessions[sid].pc in {Claiming, Reading, Selecting}
    ensures OnlyOwner(s.locks, sid) ==> Step(s, ClaimKey(sid)).sessions[sid].pc != Claiming
  {
  }

  lemma AbortGoes(s: State, sid: nat)
    requires sid in s.sessions && !s.sessions[sid].pc.Done?
    ensures At(Step(s, Abort(sid)), sid, Done(Lost))
  {
  }

  lemma ReadGoes(s: State, sid: nat)
    requires At(s, sid, Reading)
    ensures var x := Step(s, ReadReply(sid)).sessions[sid];
            Refused(x) && x.pc != Done(Lost)
  {
  }

  lemma SelectGoes(s: State, sid: nat)
    requires At(s, sid, Selecting)
    ensures At(Step(s, SelectAccounts(sid)), sid, Locking)
  {
  }

  lemma LockGoes(s: State, sid: nat)
    requires At(s, sid, Locking) && s.sessions[sid].todo != []
    ensures var x := Step(s, LockNext(sid)).sessions[sid];
            x.pc == Locking && (x.todo == s.sessions[sid].todo || x.todo == s.sessions[sid].todo[1..])
    ensures OnlyOwner(s.locks, sid) && s.sessions[sid].todo[0] in s.db.accounts ==>
      Step(s, LockNext(sid)).sessions[sid].todo == s.sessions[sid].todo[1..]
  {
  }

  lemma CheckGoes(s: State, sid: nat)
    requires At(s, sid, Locking) && s.sessions[sid].todo == []
    ensures var x := Step(s, CheckAccounts(sid)).sessions[sid];
            x.pc == InsertingTx || (x.pc.Done? && x.pc.outcome.Rejected?)
  {
  }

  lemma InsertTxGoes(s: State, sid: nat, id: Uuid)
    requires At(s, sid, InsertingTx)
    ensures var x := Step(s, InsertTx(sid, id)).sessions[sid];
            x.pc in {InsertingTx, InsertingEntry(0)} || (x.pc.Done? && x.pc.outcome.Rejected?)
    ensures OnlyOwner(s.locks, sid) && id !in s.minted ==> Step(s, InsertTx(sid, id)).sessions[sid].pc != InsertingTx
  {
    hide RefUsed;
  }

  lemma InsertEntryGoes(s: State, sid: nat, id: Uuid)
    requires sid in s.sessions && s.sessions[sid].pc.InsertingEntry? && id !in s.minted
    ensures At(Step(s, InsertEntry(sid, id)), sid, if s.sessions[sid].pc.leg == 0 then InsertingEntry(1) else Applying)
  {
  }

  lemma ApplyGoes(s: State, sid: nat)
    requires At(s, sid, Applying)
    ensures var x := Step(s, ApplyBalances(sid)).sessions[sid];
            x.pc == Emitting || (x.pc.Done? && x.pc.outcome.Rejected?)
  {
    hide InInt64, FloorHolds, NewBalances;
  }

  lemma InsertEventGoes(s: State, sid: nat, id: Uuid)
    requires At(s, sid, Emitting) && id !in s.minted
    ensures At(Step(s, InsertEvent(sid, id)), sid, Storing)
  {
  }

  lemma StoreReplyGoes(s: State, sid: nat, reply: Reply)
    requires At(s, sid, Storing)
    ensures var x := Step(s, StoreReply(sid, reply)).sessions[sid];
            x.pc == Committing && ResultOf(x) == ResultOf(s.sessions[sid]) && x.supply.reply == reply
  {
  }

  lemma CommitGoes(s: State, sid: nat, answered: bool)
    requires At(s, sid, Committing)
    ensures var x := Step(s, Commit(sid, answered)).sessions[sid];
            && x.pc.Done?
            && (answered ==> x.pc.outcome != Lost)
            && (x.pc.outcome.Posted? ==>
                x.pc.outcome == Posted(s.sessions[sid].supply.reply, ResultOf(s.sessions[sid])))
  {
    hide TriggerPasses, LegsOf, WrappedSum, Merge;
  }

  /** A request that arrived after `before` took effect after everything `before` did. */
  lemma TookEffectDuringCall(before: seq<Action>, after: seq<Action>, sid: nat, o: Outcome)
    requires before <= after && sid !in Exec(START, before).sessions
    requires At(Exec(START, after), sid, Done(o)) && o != Lost
    ensures exists i: nat ::
      |History(before)| <= i && TookEffect(History(after), i, sid, Exec(START, after).sessions[sid], o)
  {
    hide Exec, History, Spent, Answer;
    Linearizable(before);
    Linearizable(after);
    assert after[..|before|] == before;
    HistoryGrows(after, |before|);
    var x := Exec(START, after).sessions[sid];
    assert Settled(x) == Some(o);
    assert forall j :: 0 <= j < |History(before)| ==> History(before)[j] == History(after)[j];
    var i: nat :| TookEffect(History(after), i, sid, x, o);
  }
}
