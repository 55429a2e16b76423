/**
 * Everything that has begun can be brought to its end: from every reachable state all transfers, all
 * relays and all replays finish by their own next statements, without anybody being aborted.
 */
module Completion {
  import opened Wrappers
  import opened Sums
  import opened Deadlock
  import opened EndToEnd
  import T = Protocol
  import TP = Progress
  import TR = Refinement
  import O = Outbox
  import OI = OutboxInv
  import OS = OutboxSteps
  import OR = OutboxRuns
  import Relay

  /** No transfer is under way, no delivery transaction is open. */
  ghost predicate AllDone(s: EndToEnd.State) {
    TP.AllAnswered(s.t) && forall w :: w in s.o.workers ==> s.o.workers[w].phase == O.Ended
  }

  /** A step of somebody's own program: no abort, no lost answer, nothing new begun, no help from the clock. */
  predicate Own(a: EndToEnd.Action) {
    match a
    case Ledger(t, _) => !t.Abort? && !t.Submit? && !t.Open? && (t.Commit? ==> t.answered)
    case Delivery(o) => o.ClaimReplay? || o.CloseBatch? || o.Publish? || o.CommitWork?
  }

  function LeftOf(workers: map<nat, O.Worker>): map<nat, int> {
    map w | w in workers :: DeliveriesLeft(workers[w])
  }

  /** Actions left for all open delivery transactions. */
  ghost function Left(o: O.State): int {
    Sum(LeftOf(o.workers))
  }

  lemma LeftNonNegative(o: O.State)
    requires OI.Inv(o)
    ensures 0 <= Left(o)
  {
    forall w | w in o.workers ensures 0 <= LeftOf(o.workers)[w] {
      OS.WorkerHolds(o, w);
    }
    SumOverNonNegative(LeftOf(o.workers).Keys, LeftOf(o.workers));
    hide OI.Inv, DeliveriesLeft;
  }

  /** Whoever waits does so for one that does not wait: in any open state some delivery goes on. */
  lemma SomeDeliveryAdvances(o: O.State, w: nat) returns (a: O.Action)
    requires OI.Inv(o) && w in o.workers && Open(o.workers[w])
    ensures Own(Delivery(a))
    ensures 0 <= Left(O.Step(o, a)) < Left(o)
  {
    hide OI.Inv, O.Step, DeliveriesLeft, Left, OI.WorkerOk;
    var v := w;
    if o.workers[w].phase.Waiting? && o.workers[w].phase.id in o.locks {
      v := o.locks[o.workers[w].phase.id];
      WorkerOwns(o, o.workers[w].phase.id);
    }
    OS.WorkerHolds(o, v);
    DeliveryAdvances(o, v, None);
    a := NextDelivery(o.workers[v], v, None);
    OnlyOneMoves(o, a, v);
    OR.StepKeeps(o, a);
    LeftNonNegative(O.Step(o, a));
    LeftFalls(o, O.Step(o, a), v);
  }

  lemma OnlyOneMoves(o: O.State, a: O.Action, v: nat)
    requires v in o.workers && Relay.Actor(a) == Some(v)
    ensures var o' := O.Step(o, a); v in o'.workers && o'.workers == o.workers[v := o'.workers[v]]
  {
    hide O.Settle, O.Due, O.EnvelopeOf, O.DeliveryOf;
  }

  lemma LeftFalls(o: O.State, o': O.State, v: nat)
    requires v in o.workers && v in o'.workers && o'.workers == o.workers[v := o'.workers[v]]
    requires DeliveriesLeft(o'.workers[v]) < DeliveriesLeft(o.workers[v])
    ensures Left(o') < Left(o)
  {
    hide DeliveriesLeft;
    assert LeftOf(o'.workers) == LeftOf(o.workers)[v := DeliveriesLeft(o'.workers[v])];
    SumUpdate(LeftOf(o.workers), v, DeliveriesLeft(o'.workers[v]));
  }

  /** A step of a transfer leaves the delivery transactions as they are. */
  lemma LedgerSparesDelivery(s: EndToEnd.State, a: T.Action)
    ensures EndToEnd.Step(s, Ledger(a, 0)).t == T.Step(s.t, a)
    ensures EndToEnd.Step(s, Ledger(a, 0)).o.workers == s.o.workers
  {
    hide T.Step, Emitted;
  }

  ghost function Remaining(s: EndToEnd.State): int {
    TP.Outstanding(s.t) + Left(s.o)
  }

  /** While anything is unfinished, somebody's own next statement brings the whole closer to its end. */
  lemma SomethingAdvances(s: EndToEnd.State) returns (a: EndToEnd.Action)
    requires EndToEnd.Good(s) && !AllDone(s)
    ensures Own(a)
    ensures 0 <= Remaining(EndToEnd.Step(s, a)) < Remaining(s)
  {
    hide TR.Good, OI.Inv, Mirrors, T.Step, O.Step, TP.Outstanding, Left, EndToEnd.Step;
    LeftNonNegative(s.o);
    OutstandingNonNegative(s.t);
    if !TP.AllAnswered(s.t) {
      var p :| p in s.t.sessions && !s.t.sessions[p].pc.Done?;
      var q, t := TP.NoDeadlock(s.t, p);
      a := Ledger(t, 0);
      LedgerSparesDelivery(s, t);
      SameLeft(s.o, EndToEnd.Step(s, a).o);
    } else {
      var w :| w in s.o.workers && s.o.workers[w].phase != O.Ended;
      var o := SomeDeliveryAdvances(s.o, w);
      a := Delivery(o);
      DeliveryIsStep(s, o);
    }
  }

  lemma DeliveryIsStep(s: EndToEnd.State, o: O.Action)
    requires !o.Insert?
    ensures EndToEnd.Step(s, Delivery(o)) == s.(o := O.Step(s.o, o))
  {
    hide O.Step;
  }

  lemma SameLeft(o: O.State, o': O.State)
    requires o'.workers == o.workers
    ensures Left(o') == Left(o)
  {
  }

  lemma OutstandingNonNegative(t: T.State)
    ensures 0 <= TP.Outstanding(t)
  {
    SumOverNonNegative(TP.RemainingOf(t).Keys, TP.RemainingOf(t));
  }

  /**
   * From every reachable state all transfers and all deliveries together can be run to their end by
   * their own next statements: nobody is aborted, nothing is restarted, and no time need pass.
   */
  lemma {:induction false} EverythingCanFinish(run: seq<EndToEnd.Action>) returns (rest: seq<EndToEnd.Action>)
    ensures forall a <- rest :: Own(a)
    ensures AllDone(EndToEnd.Exec(EndToEnd.START, run + rest))
    decreases Remaining(EndToEnd.Exec(EndToEnd.START, run))
  {
    hide EndToEnd.Good, AllDone, EndToEnd.Step, Remaining, Own;
    var s := EndToEnd.Exec(EndToEnd.START, run);
    if AllDone(s) {
      assert run + [] == run;
      return [];
    }
    EndToEnd.AlwaysGood(run);
    var a := SomethingAdvances(s);
    assert (run + [a])[..|run|] == run;
    assert EndToEnd.Exec(EndToEnd.START, run + [a]) == EndToEnd.Step(s, a);
    hide EndToEnd.Exec;
    var more := EverythingCanFinish(run + [a]);
    rest := [a] + more;
    assert run + rest == run + [a] + more;
  }
}
