/**
 * Transfers, relays and replays together: one lock table, one wait-for graph, no cycle, and always
 * somebody who can go on.
 */
module Deadlock {
  import opened Wrappers
  import opened Ledger
  import opened Tables
  import opened LockOrder
  import T = Protocol
  import TI = ProtocolInv
  import TP = Progress
  import TR = Refinement
  import O = Outbox
  import OI = OutboxInv
  import OS = OutboxSteps
  import OR = OutboxRuns

  /** Transfers get the even numbers, delivery transactions the odd ones. */
  function Joint(t: T.State, o: O.State): Locks {
    (map r | r in t.locks :: 2 * t.locks[r])
    + (map r | r in (set id | id in o.locks :: OutboxRow(id)) :: 2 * o.locks[r.event] + 1)
  }

  /** A relay skips what it cannot lock; a replay waits for its one row. */
  function NextRow(x: O.Worker): Option<Resource> {
    if x.phase.Waiting? then Some(OutboxRow(x.phase.id)) else None
  }

  predicate Open(x: O.Worker) {
    x.phase != O.Ended
  }

  ghost function TransferWants(t: T.State): Wants {
    map p | p in (set sid | sid in t.sessions && !t.sessions[sid].pc.Done? :: 2 * sid) ::
      TP.NextLock(t.db, t.sessions[p / 2])
  }

  function DeliveryWants(o: O.State): Wants {
    map p | p in (set w | w in o.workers && Open(o.workers[w]) :: 2 * w + 1) :: NextRow(o.workers[p / 2])
  }

  ghost function JointWants(t: T.State, o: O.State): Wants {
    TransferWants(t) + DeliveryWants(o)
  }

  /** The numbers of the parties do not clash. */
  lemma Numbering(n: nat)
    ensures 2 * n / 2 == n && 2 * n % 2 == 0 && (2 * n + 1) / 2 == n && (2 * n + 1) % 2 == 1
  {
  }

  lemma TransferMember(t: T.State, p: nat)
    requires p in TransferWants(t)
    ensures p % 2 == 0 && p / 2 in t.sessions && !t.sessions[p / 2].pc.Done?
  {
    hide TP.NextLock;
    var sid :| sid in t.sessions && !t.sessions[sid].pc.Done? && p == 2 * sid;
    Numbering(sid);
  }

  lemma DeliveryMember(o: O.State, p: nat)
    requires p in DeliveryWants(o)
    ensures p % 2 == 1 && p / 2 in o.workers && Open(o.workers[p / 2])
  {
    hide NextRow;
    var w :| w in o.workers && Open(o.workers[w]) && p == 2 * w + 1;
    Numbering(w);
  }

  lemma JointWantsTransfer(t: T.State, o: O.State, sid: nat)
    requires sid in t.sessions && !t.sessions[sid].pc.Done?
    ensures 2 * sid in JointWants(t, o) && JointWants(t, o)[2 * sid] == TP.NextLock(t.db, t.sessions[sid])
  {
    hide TP.NextLock;
    Numbering(sid);
    if 2 * sid in DeliveryWants(o) {
      DeliveryMember(o, 2 * sid);
    }
    hide DeliveryWants;
  }

  lemma JointWantsWorker(t: T.State, o: O.State, w: nat)
    requires w in o.workers && Open(o.workers[w])
    ensures 2 * w + 1 in JointWants(t, o) && JointWants(t, o)[2 * w + 1] == NextRow(o.workers[w])
  {
    hide TransferWants;
    Numbering(w);
  }

  lemma JointMembers(t: T.State, o: O.State, p: nat)
    requires p in JointWants(t, o)
    ensures (p % 2 == 0 && p / 2 in t.sessions && !t.sessions[p / 2].pc.Done?)
         || (p % 2 == 1 && p / 2 in o.workers && Open(o.workers[p / 2]))
  {
    hide TransferWants, DeliveryWants;
    if p in TransferWants(t) {
      TransferMember(t, p);
    } else {
      DeliveryMember(o, p);
    }
  }

  lemma JointOwner(t: T.State, o: O.State, r: Resource)
    requires r in Joint(t, o)
    ensures if r.OutboxRow? && r.event in o.locks then Joint(t, o)[r] == 2 * o.locks[r.event] + 1
            else r in t.locks && Joint(t, o)[r] == 2 * t.locks[r]
  {
  }

  lemma TransferOwns(t: T.State, o: O.State, r: Resource)
    requires TI.Inv(t) && r in t.locks
    ensures var sid := t.locks[r];
            && sid in t.sessions && !t.sessions[sid].pc.Done?
            && (TP.NextLock(t.db, t.sessions[sid]).Some? ==> Below(r, TP.NextLock(t.db, t.sessions[sid]).value))
  {
    hide TI.Inv, TI.Holds, TI.SessionOk, TP.NextLock;
    TP.LockOwner(t, r);
    TI.SessionHolds(t, t.locks[r]);
    TP.HoldsBelowNextOk(t.db, t.minted, t.sessions[t.locks[r]], t.locks[r], r);
  }

  lemma WorkerOwns(o: O.State, id: Uuid)
    requires OI.Inv(o) && id in o.locks
    ensures o.locks[id] in o.workers && Open(o.workers[o.locks[id]]) && NextRow(o.workers[o.locks[id]]) == None
  {
    OS.Parts(o);
    var w := o.locks[id];
    assert OI.InBatch(o.workers[w], id);
    OS.WorkerHolds(o, w);
    hide OI.Inv, OI.BatchOk, OI.AttemptsOk;
  }

  /** Whoever waits wants something above everything it holds. */
  lemma JointlyOrdered(t: T.State, o: O.State)
    requires TI.Inv(t) && OI.Inv(o)
    ensures Ordered(Joint(t, o), JointWants(t, o))
  {
    hide TI.Inv, OI.Inv, Joint, JointWants, TP.NextLock;
    var locks, wants := Joint(t, o), JointWants(t, o);
    forall r | r in locks
      ensures locks[r] in wants && (Waits(locks, wants, locks[r]) ==> Below(r, wants[locks[r]].value))
    {
      JointOwner(t, o, r);
      if r.OutboxRow? && r.event in o.locks {
        WorkerOwns(o, r.event);
        JointWantsWorker(t, o, o.locks[r.event]);
      } else {
        TransferOwns(t, o, r);
        JointWantsTransfer(t, o, t.locks[r]);
      }
    }
  }

  /** No cycle of waiting requests, relays and replays, in any reachable pair of states. */
  lemma NoJointCycle(transfers: seq<T.Action>, deliveries: seq<O.Action>, cycle: seq<nat>)
    requires |cycle| >= 2 && cycle[0] == cycle[|cycle| - 1]
    ensures var t, o := T.Exec(T.START, transfers), O.Exec(O.START, deliveries);
            !WaitPath(Joint(t, o), JointWants(t, o), cycle)
  {
    var t, o := T.Exec(T.START, transfers), O.Exec(O.START, deliveries);
    TR.AlwaysGood(transfers);
    TR.GoodInv(t);
    OR.AlwaysInv(deliveries);
    JointlyOrdered(t, o);
    hide Joint, JointWants, T.Exec, O.Exec;
    if WaitPath(Joint(t, o), JointWants(t, o), cycle) {
      NoWaitCycle(Joint(t, o), JointWants(t, o), cycle);
    }
  }

  /** The next action of a delivery transaction, the publisher answering `error`. */
  function NextDelivery(x: O.Worker, w: nat, error: Option<string>): O.Action {
    match x.phase
    case Claiming => O.CloseBatch(w)
    case Waiting(_) => O.ClaimReplay(w)
    case _ => if |x.rows| < |x.batch| then O.Publish(w, error) else O.CommitWork(w)
  }

  /** Actions left: claim or close, publish each event, commit. */
  function DeliveriesLeft(x: O.Worker): int {
    match x.phase
    case Claiming => |x.batch| + 2
    case Waiting(_) => 3
    case Publishing => |x.batch| - |x.rows| + 1
    case Ended => 0
  }

  lemma DeliveryAdvances(o: O.State, w: nat, error: Option<string>)
    requires w in o.workers && Open(o.workers[w]) && OI.WorkerOk(o, w)
    requires NextRow(o.workers[w]).Some? ==> NextRow(o.workers[w]).value.event !in o.locks
    ensures var o' := O.Step(o, NextDelivery(o.workers[w], w, error));
            w in o'.workers && 0 <= DeliveriesLeft(o'.workers[w]) < DeliveriesLeft(o.workers[w])
  {
    hide O.Settle, O.Due, O.EnvelopeOf, OI.AttemptOk, OI.Attempted;
    var x := o.workers[w];
    assert |x.rows| <= |x.batch|;
    if x.phase.Publishing? {
      if |x.rows| < |x.batch| {
        assert x.batch[|x.rows|].id in o.events;
      }
      hide OI.WorkerOk;
    } else {
      hide OI.WorkerOk;
    }
  }

  /** The request is unfinished and a statement of its own brings it closer to its answer. */
  ghost predicate TransferCanRun(t: T.State, sid: nat) {
    && sid in t.sessions && !t.sessions[sid].pc.Done?
    && exists a: T.Action :: TP.Actor(a) == Some(sid) && !a.Abort? && !a.Submit? && TP.Advances(t, T.Step(t, a), sid)
  }

  /** The delivery transaction is open and an action of its own, not an abort, brings it closer to its end. */
  ghost predicate DeliveryCanRun(o: O.State, w: nat) {
    && w in o.workers
    && exists a: O.Action :: !a.AbortWork? && w in O.Step(o, a).workers
         && DeliveriesLeft(O.Step(o, a).workers[w]) < DeliveriesLeft(o.workers[w])
  }

  lemma SomebodyRunsNow(t: T.State, o: O.State, p: nat) returns (q: nat)
    requires TI.Inv(t) && OI.Inv(o) && p in JointWants(t, o)
    ensures if q % 2 == 0 then TransferCanRun(t, q / 2) else DeliveryCanRun(o, q / 2)
  {
    hide Ordered, WaitPath, TI.Inv, OI.Inv, TransferCanRun, DeliveryCanRun, Joint, JointWants;
    JointlyOrdered(t, o);
    var path;
    q, path := SomebodyRuns(Joint(t, o), JointWants(t, o), p);
    JointMembers(t, o, q);
    if q % 2 == 0 {
      assert q == 2 * (q / 2);
      TransferRuns(t, o, q / 2);
    } else {
      assert q == 2 * (q / 2) + 1;
      DeliveryRuns(t, o, q / 2);
    }
  }

  /**
   * Whenever anything is unfinished, some transfer or some delivery transaction is not waiting, and
   * its next statement brings it closer to its end.
   */
  lemma SomebodyAlwaysRuns(transfers: seq<T.Action>, deliveries: seq<O.Action>, p: nat) returns (q: nat)
    requires p in JointWants(T.Exec(T.START, transfers), O.Exec(O.START, deliveries))
    ensures if q % 2 == 0 then TransferCanRun(T.Exec(T.START, transfers), q / 2)
            else DeliveryCanRun(O.Exec(O.START, deliveries), q / 2)
  {
    TR.AlwaysGood(transfers);
    TR.GoodInv(T.Exec(T.START, transfers));
    OR.AlwaysInv(deliveries);
    hide T.Exec, O.Exec, TI.Inv, OI.Inv, TR.Good, TransferCanRun, DeliveryCanRun, JointWants;
    q := SomebodyRunsNow(T.Exec(T.START, transfers), O.Exec(O.START, deliveries), p);
  }

  lemma TransferRuns(t: T.State, o: O.State, sid: nat)
    requires TI.Inv(t) && sid in t.sessions && !t.sessions[sid].pc.Done?
    requires !Waits(Joint(t, o), JointWants(t, o), 2 * sid)
    ensures TransferCanRun(t, sid)
  {
    hide TI.Inv, TI.ProgramOk, TI.TablesOk, TI.SupplyOk, TP.NextLock, T.Step, TP.Advances, TI.LocksOk;
    NotBlocked(t, o, sid);
    TI.SessionHolds(t, sid);
    var id := TP.FreshId(t.minted);
    var reply := Reply(201, []);
    TP.RunnableAdvances(t, sid, id, reply);
    var a := TP.NextAction(t.sessions[sid], sid, id, reply);
    assert TP.Actor(a) == Some(sid);
  }

  lemma NotBlocked(t: T.State, o: O.State, sid: nat)
    requires sid in t.sessions && !t.sessions[sid].pc.Done?
    requires !Waits(Joint(t, o), JointWants(t, o), 2 * sid)
    ensures !Waits(t.locks, TP.WantsOf(t), sid)
  {
    hide TP.NextLock;
    JointWantsTransfer(t, o, sid);
    NotAnOutboxRow(t.db, t.sessions[sid]);
    var want := TP.NextLock(t.db, t.sessions[sid]);
    if want.Some? && want.value in t.locks {
      assert Joint(t, o)[want.value] == 2 * t.locks[want.value];
    }
    hide JointWants;
  }

  lemma NotAnOutboxRow(db: Db, x: T.Session)
    ensures TP.NextLock(db, x).Some? ==> !TP.NextLock(db, x).value.OutboxRow?
  {
  }

  lemma JointRow(t: T.State, o: O.State, id: Uuid)
    requires id in o.locks
    ensures OutboxRow(id) in Joint(t, o) && Joint(t, o)[OutboxRow(id)] == 2 * o.locks[id] + 1
  {
  }

  /** A replay waits exactly when somebody holds its row. */
  lemma ReplayNotBlocked(t: T.State, o: O.State, w: nat)
    requires OI.Inv(o) && w in o.workers && o.workers[w].phase.Waiting?
    requires !Waits(Joint(t, o), JointWants(t, o), 2 * w + 1)
    ensures o.workers[w].phase.id !in o.locks
  {
    hide OI.Inv, JointWants, TP.NextLock;
    JointWantsWorker(t, o, w);
    var id := o.workers[w].phase.id;
    if id in o.locks {
      WaiterOwnsNothing(o, w, id);
      JointRow(t, o, id);
    }
  }

  lemma DeliveryRuns(t: T.State, o: O.State, w: nat)
    requires OI.Inv(o) && TI.Inv(t) && w in o.workers && Open(o.workers[w])
    requires !Waits(Joint(t, o), JointWants(t, o), 2 * w + 1)
    ensures DeliveryCanRun(o, w)
  {
    hide OI.Inv, TI.Inv, OI.WorkerOk, TP.NextLock, O.Step, Joint, JointWants, Waits;
    OS.WorkerHolds(o, w);
    var x := o.workers[w];
    if x.phase.Waiting? {
      ReplayNotBlocked(t, o, w);
    }
    DeliveryAdvances(o, w, None);
    assert !NextDelivery(x, w, None).AbortWork?;
  }

  lemma WaiterOwnsNothing(o: O.State, w: nat, id: Uuid)
    requires OI.Inv(o) && w in o.workers && o.workers[w].phase.Waiting? && id in o.locks
    ensures o.locks[id] != w
  {
    hide OI.Inv;
    WorkerOwns(o, id);
  }
}
