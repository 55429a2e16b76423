/**
 * The commit: a session's private writes are exactly the effect of the atomic transfer on the tables
 * as they are at that moment, and no other session's knowledge of the tables is invalidated.
 */
module CommitStep {
  import opened Wrappers
  import opened Ledger
  import opened Tables
  import opened Sequential
  import opened LockOrder
  import opened Protocol
  import opened ProtocolInv

  predicate Ready(s: State, sid: nat) {
    At(s, sid, Committing)
  }

  /** All of a finished transfer's writes, for a session whose rows read under lock are current. */
  lemma WorkAtCommit(db: Db, x: Session)
    requires x.pc.Committing? && ProgramOk(x) && TablesOk(db, x)
    ensures x.cmd.debit in db.accounts && x.cmd.credit in db.accounts && x.cmd.debit != x.cmd.credit
    ensures x.work == WorkAt(x)
    ensures x.found == map[x.cmd.debit := db.accounts[x.cmd.debit], x.cmd.credit := db.accounts[x.cmd.credit]]
  {
    hide RefUsed, CreatedEvent, WorkAt, BalancesInRange;
    assert x.found[x.cmd.debit] == db.accounts[x.cmd.debit] && x.found[x.cmd.credit] == db.accounts[x.cmd.credit];
  }

  lemma MergedAccounts(db: Db, w: Work, cmd: TransferCommand, claim: Claim, v: Supply)
    requires cmd.debit in db.accounts && cmd.credit in db.accounts && cmd.debit != cmd.credit
    requires w.balances
      == NewBalances(map[cmd.debit := db.accounts[cmd.debit], cmd.credit := db.accounts[cmd.credit]], cmd)
    ensures Merge(db, w).accounts == Post(db, cmd, claim, v).accounts
  {
    hide CreatedEvent, TransferEntries;
  }

  lemma PlusOne<K, V>(m: map<K, V>, k: K, v: V)
    ensures m + map[k := v] == m[k := v]
  {
  }

  /** Merging the private writes is the atomic posting. */
  lemma MergeIsPost(db: Db, minted: map<Uuid, nat>, x: Session, sid: nat)
    requires x.pc.Committing? && SessionOk(db, minted, x, sid)
    ensures x.cmd.debit in db.accounts && x.cmd.credit in db.accounts
    ensures Merge(db, x.work) == Post(db, x.cmd, x.claim, x.supply)
  {
    hide RefUsed, SupplyOk, CreatedEvent, ProgramOk, TablesOk, NewBalances;
    WorkAtCommit(db, x);
    MergedAccounts(db, x.work, x.cmd, x.claim, x.supply);
    var v, w := x.supply, x.work;
    PlusOne(db.transactions, v.txId, TxRow(x.cmd.externalRef, x.cmd.description, x.cmd.currency));
    PlusOne(db.keys, x.claim.id, KeyRow(x.claim.fingerprint, Some(v.reply), Some(v.txId)));
    PlusOne(db.events, v.eventId, CreatedEvent(TransferTransaction(x.cmd, v)));
    hide SessionOk;
  }

  /** Everything checked along the way is still true when the transfer commits. */
  lemma CommitAnswer(db: Db, minted: map<Uuid, nat>, x: Session, sid: nat)
    requires x.pc.Committing? && SessionOk(db, minted, x, sid)
    requires FreshSupply(db, x.supply)
    ensures Answer(db, x.cmd, x.claim, x.supply) == Posted(x.supply.reply, TransferTransaction(x.cmd, x.supply))
  {
    hide RefUsed, SupplyOk, FreshSupply, WorkAt;
    assert x.found[x.cmd.debit] == db.accounts[x.cmd.debit] && x.found[x.cmd.credit] == db.accounts[x.cmd.credit];
  }

  /** Identifiers a running session generated are in no committed row. */
  lemma SupplyIsFresh(s: State, sid: nat)
    requires MintedOk(s) && Ready(s, sid) && SupplyOk(s.minted, s.sessions[sid], sid)
    ensures FreshSupply(s.db, s.sessions[sid].supply)
  {
    var v := s.sessions[sid].supply;
    forall i | 0 <= i < |s.db.entries|
      ensures s.db.entries[i].id != v.debitEntry && s.db.entries[i].id != v.creditEntry
    {
      assert s.db.entries[i] in s.db.entries;
      assert MintedByDone(s, s.db.entries[i].id);
    }
  }

  /** The deferred trigger and the service's assertion both find two balanced legs. */
  lemma TriggerNeverFires(s: State, sid: nat)
    requires Inv(s) && Ready(s, sid)
    requires forall e <- s.db.entries :: e.transactionId in s.db.transactions
    ensures TriggerPasses(LegsOf(s.db.entries + s.sessions[sid].work.entries, s.sessions[sid].supply.txId))
    ensures WrappedSum(s.sessions[sid].work.entries) == 0
  {
    var x := s.sessions[sid];
    var legs := TransferEntries(x.cmd, x.supply);
    WorkEntries(s, sid);
    SupplyIsFreshAt(s, sid);
    hide Inv, TransferEntries, TriggerPasses, WrappedSum, LegsOf;
    TransferLegsBalance(x.cmd, x.supply);
    LegsOfConcat(s.db.entries, legs, x.supply.txId);
    forall i | 0 <= i < |s.db.entries| ensures s.db.entries[i].transactionId != x.supply.txId {
      assert s.db.entries[i] in s.db.entries;
    }
    NoLegs(s.db.entries, x.supply.txId);
  }

  lemma TransferLegsBalance(cmd: TransferCommand, v: Supply)
    ensures LegsOf(TransferEntries(cmd, v), v.txId) == TransferEntries(cmd, v)
    ensures TriggerPasses(TransferEntries(cmd, v)) && WrappedSum(TransferEntries(cmd, v)) == 0
  {
    var legs := TransferEntries(cmd, v);
    TwoEntries(legs[0], legs[1], v.txId, cmd.debit);
    assert legs == [legs[0], legs[1]];
    TriggerImpliesBalanced(legs);
  }

  lemma WorkEntries(s: State, sid: nat)
    requires Inv(s) && Ready(s, sid)
    ensures s.sessions[sid].work.entries == TransferEntries(s.sessions[sid].cmd, s.sessions[sid].supply)
  {
    hide RefUsed, SupplyOk, TablesOk, LocksOk, MintedOk;
    assert SessionOk(s.db, s.minted, s.sessions[sid], sid);
  }

  lemma SupplyIsFreshAt(s: State, sid: nat)
    requires Inv(s) && Ready(s, sid)
    ensures FreshSupply(s.db, s.sessions[sid].supply)
  {
    hide FreshSupply, ProgramOk, TablesOk, LocksOk, RefUsed, MintedOk;
    assert SessionOk(s.db, s.minted, s.sessions[sid], sid);
    SupplyIsFresh(s, sid);
  }

  /** Two sessions never hold the same lock. */
  lemma HoldsDisjoint(s: State, p: nat, q: nat)
    requires LocksOk(s) && p in s.sessions && q in s.sessions && p != q
    ensures Holds(s.sessions[p]) !! Holds(s.sessions[q])
  {
    hide Holds;
    forall r | r in Holds(s.sessions[p]) ensures r !in Holds(s.sessions[q]) {
      assert s.locks[r] == p;
    }
  }

  /** A commit changes nothing another session relies on, because their locks are disjoint. */
  lemma PostSparesOthers(db: Db, x: Session, y: Session)
    requires x.cmd.debit in db.accounts && x.cmd.credit in db.accounts
    requires Owns(x) && HasTx(x) && {x.cmd.debit, x.cmd.credit} <= x.found.Keys
    requires TablesOk(db, y)
    requires Holds(x) !! Holds(y)
    ensures TablesOk(Post(db, x.cmd, x.claim, x.supply), y)
  {
    var db' := Post(db, x.cmd, x.claim, x.supply);
    assert KeyTuple(x.claim.id) in Holds(x);
    assert AccountRow(x.cmd.debit) in Holds(x) && AccountRow(x.cmd.credit) in Holds(x);
    if Owns(y) {
      assert KeyTuple(y.claim.id) in Holds(y);
      forall id | id in y.found ensures id in db'.accounts && db'.accounts[id] == y.found[id] {
        assert AccountRow(id) in Holds(y);
      }
      RefStaysFree(db, x, y);
    }
  }

  lemma RefStaysFree(db: Db, x: Session, y: Session)
    requires x.cmd.debit in db.accounts && x.cmd.credit in db.accounts
    requires HasTx(x) && TablesOk(db, y) && Holds(x) !! Holds(y)
    ensures HasTx(y) && y.cmd.externalRef.Some? ==>
      !RefUsed(Post(db, x.cmd, x.claim, x.supply), y.cmd.externalRef.value)
  {
    if HasTx(y) && y.cmd.externalRef.Some? {
      var r := y.cmd.externalRef.value;
      assert x.cmd.externalRef == Some(r) ==> RefTuple(r) in Holds(x);
      assert RefTuple(r) in Holds(y);
    }
  }

  /** The committing session's identifiers now belong to a session that has ended. */
  lemma PostMinted(s: State, sid: nat, outcome: Outcome)
    requires MintedOk(s) && Ready(s, sid) && SupplyOk(s.minted, s.sessions[sid], sid)
    requires s.sessions[sid].cmd.debit in s.db.accounts && s.sessions[sid].cmd.credit in s.db.accounts
    ensures var x := s.sessions[sid];
            MintedOk(Finish(s, sid, outcome).(db := Post(s.db, x.cmd, x.claim, x.supply)))
  {
    var x := s.sessions[sid];
    var s' := Finish(s, sid, outcome).(db := Post(s.db, x.cmd, x.claim, x.supply));
    forall id ensures MintedByDone(s, id) || MintedBy(s.minted, id, sid) ==> MintedByDone(s', id) {}
    hide MintedByDone;
    forall e <- s'.db.entries ensures MintedByDone(s', e.id) {
      if e in s.db.entries {
        assert MintedByDone(s, e.id);
      } else {
        assert e in TransferEntries(x.cmd, x.supply);
      }
    }
  }

  /** What COMMIT does to the state, told through the reference ledger. */
  lemma CommitIsPost(s: State, sid: nat, answered: bool)
    requires Inv(s) && Ready(s, sid)
    requires forall e <- s.db.entries :: e.transactionId in s.db.transactions
    ensures var x := s.sessions[sid];
            var posted := Posted(x.supply.reply, TransferTransaction(x.cmd, x.supply));
            && x.cmd.debit in s.db.accounts && x.cmd.credit in s.db.accounts
            && Answer(s.db, x.cmd, x.claim, x.supply) == posted
            && DoCommit(s, sid, answered) ==
               Finish(s, sid, if answered then posted else Lost).(db := Post(s.db, x.cmd, x.claim, x.supply))
  {
    var x := s.sessions[sid];
    TriggerNeverFires(s, sid);
    WorkEntries(s, sid);
    SupplyIsFreshAt(s, sid);
    SessionHolds(s, sid);
    hide Inv, SessionOk, LocksOk, FreshSupply, Answer, Merge, Post, Finish, TriggerPasses, LegsOf, WrappedSum;
    MergeIsPost(s.db, s.minted, x, sid);
    CommitAnswer(s.db, s.minted, x, sid);
    assert ResultOf(x) == TransferTransaction(x.cmd, x.supply);
  }

  lemma CommitSessions(s: State, sid: nat, outcome: Outcome)
    requires Inv(s) && Ready(s, sid)
    requires s.sessions[sid].cmd.debit in s.db.accounts && s.sessions[sid].cmd.credit in s.db.accounts
    ensures var x := s.sessions[sid];
            SessionsOk(Finish(s, sid, outcome).(db := Post(s.db, x.cmd, x.claim, x.supply)))
  {
    var x := s.sessions[sid];
    var db' := Post(s.db, x.cmd, x.claim, x.supply);
    var t := Finish(s, sid, outcome);
    FinishKeeps(s, sid, outcome);
    SessionHolds(s, sid);
    Parties(x);
    hide Inv, LocksOk, Holds, Post, TablesOk, ProgramOk, SupplyOk;
    forall p | p in t.sessions ensures SessionOk(db', s.minted, t.sessions[p], p) {
      SessionHolds(t, p);
      if p == sid {
        DoneNeedsNothing(s.db, db', t.sessions[p]);
      } else {
        SessionHolds(s, p);
        HoldsDisjoint(s, sid, p);
        PostSparesOthers(s.db, x, t.sessions[p]);
      }
    }
  }

  lemma Parties(x: Session)
    requires x.pc.Committing?
    ensures ProgramOk(x) ==> x.found.Keys == {x.cmd.debit, x.cmd.credit} && Owns(x) && HasTx(x)
  {
  }

  lemma DoneNeedsNothing(db: Db, db': Db, x: Session)
    requires x.pc.Done? && TablesOk(db, x)
    ensures TablesOk(db', x)
  {
  }

  lemma CommitKeeps(s: State, sid: nat, answered: bool)
    requires Inv(s) && Ready(s, sid)
    requires forall e <- s.db.entries :: e.transactionId in s.db.transactions
    ensures Inv(DoCommit(s, sid, answered))
  {
    hide SessionsOk, MintedOk, LocksOk, ProgramOk, TablesOk, SupplyOk, Post, Answer, DoCommit, Finish;
    var x := s.sessions[sid];
    CommitIsPost(s, sid, answered);
    var outcome := if answered then Posted(x.supply.reply, TransferTransaction(x.cmd, x.supply)) else Lost;
    CommitSessions(s, sid, outcome);
    SessionHolds(s, sid);
    PostMinted(s, sid, outcome);
    FinishKeeps(s, sid, outcome);
    LocksOkIgnoresTables(Finish(s, sid, outcome), Post(s.db, x.cmd, x.claim, x.supply));
  }

  lemma LocksOkIgnoresTables(s: State, db: Db)
    requires LocksOk(s)
    ensures LocksOk(s.(db := db))
  {
    hide Holds;
  }

  /** A new account disturbs nobody: rows already read stay as they were. */
  lemma OpenKeeps(s: State, id: Uuid, currency: string, allowNegative: bool)
    requires Inv(s)
    ensures Inv(DoOpen(s, id, currency, allowNegative))
  {
    var s' := DoOpen(s, id, currency, allowNegative);
    LocksOkIgnoresTables(s, s'.db);
    OpenMinted(s, s');
    hide LocksOk, MintedOk, ProgramOk, SupplyOk, TablesOk;
    forall p | p in s'.sessions ensures SessionOk(s'.db, s'.minted, s'.sessions[p], p) {
      assert SessionOk(s.db, s.minted, s.sessions[p], p);
      OpenSpares(s.db, s'.db, s.sessions[p]);
    }
  }

  lemma OpenSpares(db: Db, db': Db, x: Session)
    requires TablesOk(db, x)
    requires db' == db.(accounts := db'.accounts)
    requires forall a :: a in db.accounts ==> a in db'.accounts && db'.accounts[a] == db.accounts[a]
    ensures TablesOk(db', x)
  {
    hide Holds;
  }

  lemma OpenMinted(s: State, s': State)
    requires MintedOk(s)
    requires s' == s.(db := s.db.(accounts := s'.db.accounts))
    ensures MintedOk(s')
  {
    forall id ensures MintedByDone(s', id) == MintedByDone(s, id) {}
    hide MintedByDone;
  }
}
