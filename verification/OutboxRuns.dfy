/** Delivery guarantees over whole runs of any number of relays and replays. */
module OutboxRuns {
  import opened Wrappers
  import opened Ledger
  import opened Retry
  import opened Sums
  import opened Outbox
  import opened OutboxInv
  import opened OutboxSteps
  import opened OutboxCommit

  lemma StepKeeps(s: State, a: Action)
    requires Inv(s)
    ensures Inv(Step(s, a))
  {
    hide Inv, DoClaimRow, DoCloseBatch, DoClaimReplay, DoPublish, DoAbort, Stop, Begin;
    match a {
      case Insert(id, row, createdAt) => InsertKeeps(s, id, row, createdAt);
      case Tick(ms) => TickKeeps(s, ms);
      case BeginRelay(w, limit) => BeginKeeps(s, w, ByRelay, limit, Claiming);
      case ClaimRow(w, id) => if In(s, w, Claiming) { ClaimRowKeeps(s, w, id); }
      case CloseBatch(w) => if In(s, w, Claiming) { CloseBatchKeeps(s, w); }
      case BeginReplay(w, id) => BeginKeeps(s, w, ByReplay, 1, Waiting(id));
      case ClaimReplay(w) => if w in s.workers && s.workers[w].phase.Waiting? { ClaimReplayKeeps(s, w); }
      case Publish(w, error) => if In(s, w, Publishing) { PublishKeeps(s, w, error); }
      case CommitWork(w) => if Finished(s, w) { CommitKeeps(s, w); }
      case AbortWork(w) => if w in s.workers && s.workers[w].phase != Ended { AbortKeeps(s, w); }
    }
  }

  lemma TickKeeps(s: State, ms: nat)
    requires Inv(s)
    ensures Inv(s.(clock := s.clock + ms))
  {
    hide Inv, WorkersOk, LocksOk, HistoriesOk, EnvelopesOk, Accounted;
    var s' := s.(clock := s.clock + ms);
    Parts(s);
    ClockIsNotRead(s, s');
    SameTables(s, s');
    SameFlights(s, s');
    SameAccounts(s, s');
    Assemble(s');
  }

  lemma ClockIsNotRead(s: State, s': State)
    requires WorkersOk(s) && LocksOk(s) && s' == s.(clock := s'.clock)
    ensures WorkersOk(s') && LocksOk(s')
  {
    hide WorkerOk, InBatch;
    forall w | w in s'.workers ensures WorkerOk(s', w) {
      SameWorker(s, s', w);
    }
  }

  lemma SameWorker(s: State, s': State, w: nat)
    requires s' == s.(clock := s'.clock) && w in s.workers && WorkerOk(s, w)
    ensures WorkerOk(s', w)
  {
    hide AttemptsOk, Due;
  }

  lemma StartInv()
    ensures Inv(START)
  {
  }

  lemma {:induction false} AlwaysInv(schedule: seq<Action>)
    ensures Inv(Exec(START, schedule))
  {
    if schedule == [] {
      StartInv();
    } else {
      hide Inv, Step;
      AlwaysInv(schedule[..|schedule| - 1]);
      StepKeeps(Exec(START, schedule[..|schedule| - 1]), schedule[|schedule| - 1]);
    }
  }

  lemma ExecConcat(schedule: seq<Action>, a: Action)
    ensures Exec(START, schedule + [a]) == Step(Exec(START, schedule), a)
    ensures Inv(Exec(START, schedule)) && Inv(Step(Exec(START, schedule), a))
  {
    assert (schedule + [a])[..|schedule|] == schedule;
    hide Step, Inv;
    AlwaysInv(schedule);
    AlwaysInv(schedule + [a]);
  }

  // ---------- state is a fold of history ----------

  /**
   * attempts counts the delivery rows; published iff the last attempt succeeded, failed iff it failed
   * and was at least the tenth, pending otherwise; last_error is the last row's; published_at is the
   * time of the last success; available_at is the creation, or min(2^(n-1), 300) seconds after the
   * n-th attempt failed.
   */
  lemma StateIsToldByHistory(schedule: seq<Action>, id: Uuid)
    requires id in Exec(START, schedule).events
    ensures TellsAll(Exec(START, schedule).events[id], History(Exec(START, schedule).deliveries, id))
  {
    hide Exec, Inv, WorkersOk, LocksOk, EnvelopesOk, Accounted, RelayWaits, ToldByHistory, History, TellsAll;
    var s := Exec(START, schedule);
    AlwaysInv(schedule);
    Parts(s);
    Telling(s.events[id], History(s.deliveries, id));
  }

  ghost predicate TellsAll(e: Event, h: seq<Delivery>) {
    var failed := h != [] && !h[|h| - 1].succeeded;
    && e.attempts == |h|
    && (e.status == Published <==> h != [] && h[|h| - 1].succeeded)
    && (e.status == Failed <==> failed && |h| >= 10)
    && (e.status == Pending <==> h == [] || (failed && |h| < 10))
    && e.lastError == (if h == [] then None else h[|h| - 1].error)
    && (e.publishedAt.Some? <==> exists d :: d in h && d.succeeded)
    && (forall i :: 0 <= i < |h| && h[i].succeeded && (forall j :: i < j < |h| ==> !h[j].succeeded) ==>
          e.publishedAt == Some(h[i].at))
    && (h == [] ==> e.availableAt == e.createdAt)
    && (failed ==> e.availableAt == h[|h| - 1].at + Min(Pow2(|h| - 1), 300) * 1000)
    && e.availableAt == AvailableFrom(h, e.createdAt)
  }

  lemma Telling(e: Event, h: seq<Delivery>)
    requires ToldByHistory(e, h)
    ensures TellsAll(e, h)
  {
    SomeSuccess(h);
    if h != [] {
      IntervalExact(|h|);
      assert h[|h| - 1].succeeded || AvailableFrom(h, e.createdAt) == h[|h| - 1].at + DelayMs(|h|);
    }
    forall i | 0 <= i < |h| && h[i].succeeded && (forall j :: i < j < |h| ==> !h[j].succeeded)
      ensures e.publishedAt == Some(h[i].at)
    {
      LatestSuccess(h, i);
    }
    hide LastSuccess, AvailableFrom, DelayMs, Pow2;
  }

  lemma {:induction false} LatestSuccess(h: seq<Delivery>, i: nat)
    requires i < |h| && h[i].succeeded && forall j :: i < j < |h| ==> !h[j].succeeded
    ensures LastSuccess(h) == Some(h[i].at)
  {
    if i < |h| - 1 {
      LatestSuccess(h[..|h| - 1], i);
    }
  }

  /** The counts that follow count rows and publications one by one. */
  lemma {:induction false} AcceptedCounts(ps: seq<Publication>, id: Uuid)
    ensures Accepted(ps, id) == |set i | 0 <= i < |ps| && ps[i].accepted && ps[i].envelope.eventId == id|
  {
    var all := set i | 0 <= i < |ps| && ps[i].accepted && ps[i].envelope.eventId == id;
    if ps == [] {
      assert all == {};
    } else {
      var n := |ps| - 1;
      var init := set i | 0 <= i < n && ps[..n][i].accepted && ps[..n][i].envelope.eventId == id;
      AcceptedCounts(ps[..n], id);
      assert all == init + if ps[n].accepted && ps[n].envelope.eventId == id then {n} else {};
    }
  }

  lemma {:induction false} SomeSuccess(h: seq<Delivery>)
    ensures LastSuccess(h).Some? <==> exists d :: d in h && d.succeeded
    ensures LastSuccess(h).Some? <==> Successes(h) > 0
  {
    if h == [] {
    } else {
      var init := h[..|h| - 1];
      SomeSuccess(init);
      assert h == init + [h[|h| - 1]];
      if !h[|h| - 1].succeeded {
        assert forall d :: d in h && d.succeeded <==> d in init && d.succeeded;
      } else {
        assert h[|h| - 1] in h;
      }
    }
  }

  // ---------- what a replay can and cannot do to a failed event ----------

  lemma StepGrows(s: State, a: Action, id: Uuid)
    ensures s.deliveries <= Step(s, a).deliveries
    ensures id in s.events ==> id in Step(s, a).events
  {
    hide Settle, Due;
  }

  lemma {:induction false} RunGrows(schedule: seq<Action>, more: seq<Action>, id: Uuid)
    ensures Exec(START, schedule).deliveries <= Exec(START, schedule + more).deliveries
    ensures id in Exec(START, schedule).events ==> id in Exec(START, schedule + more).events
  {
    if more == [] {
      assert schedule + more == schedule;
    } else {
      hide Step;
      var init, a := more[..|more| - 1], more[|more| - 1];
      RunGrows(schedule, init, id);
      StepGrows(Exec(START, schedule + init), a, id);
      assert (schedule + init) + [a] == schedule + more;
      ExecConcat(schedule + init, a);
      hide Exec, Inv;
    }
  }

  /** When an event was created never changes. */
  lemma CreationStays(s: State, a: Action, id: Uuid)
    requires Inv(s) && id in s.events && id in Step(s, a).events
    ensures Step(s, a).events[id].createdAt == s.events[id].createdAt
  {
    hide Inv;
    if a.CommitWork? && Finished(s, a.w) {
      WorkerHolds(s, a.w);
      hide WorkerOk;
      var x := s.workers[a.w];
      if InBatch(x, id) {
        var i :| 0 <= i < |x.batch| && x.batch[i].id == id;
        CommitRow(s, a.w, i);
      } else {
        CommitOther(s, a.w, id);
      }
    } else if !a.Insert? {
      OtherwiseSameEvents(s, a);
    }
  }

  lemma {:induction false} CreationStaysOver(schedule: seq<Action>, more: seq<Action>, id: Uuid)
    requires id in Exec(START, schedule).events
    ensures id in Exec(START, schedule + more).events
    ensures Exec(START, schedule + more).events[id].createdAt == Exec(START, schedule).events[id].createdAt
  {
    if more == [] {
      assert schedule + more == schedule;
    } else {
      hide Step, Exec, Inv;
      var init, a := more[..|more| - 1], more[|more| - 1];
      CreationStaysOver(schedule, init, id);
      assert (schedule + init) + [a] == schedule + more;
      ExecConcat(schedule + init, a);
      StepGrows(Exec(START, schedule + init), a, id);
      CreationStays(Exec(START, schedule + init), a, id);
    }
  }

  /** By its deliveries an event may be tried now: never tried, or failed fewer than ten times and waited long enough. */
  ghost predicate MayBeTried(h: seq<Delivery>, createdAt: int, now: int) {
    if h == [] then createdAt <= now
    else |h| < 10 && !h[|h| - 1].succeeded && h[|h| - 1].at + Min(Pow2(|h| - 1), 300) * 1000 <= now
  }

  /** An event that may be tried is pending and available; if nothing is, it must have been tried meanwhile. */
  lemma TriedMeanwhile(before: seq<Action>, after: seq<Action>, id: Uuid, now: int)
    requires before <= after && id in Exec(START, before).events
    requires var s := Exec(START, before);
             MayBeTried(History(s.deliveries, id), s.events[id].createdAt, now)
    requires var events := Exec(START, after).events;
             id in events ==> !(events[id].status == Pending && events[id].availableAt <= now)
    ensures |History(Exec(START, after).deliveries, id)| > |History(Exec(START, before).deliveries, id)|
  {
    hide Exec, AvailableFrom, History, Pow2;
    var more := after[|before|..];
    assert after == before + more;
    RunGrows(before, more, id);
    CreationStaysOver(before, more, id);
    StateIsToldByHistory(after, id);
    var a, b := Exec(START, before).deliveries, Exec(START, after).deliveries;
    assert b == a + b[|a|..];
    HistoryConcat(a, b[|a|..], id);
  }

  /**
   * Once failed, never pending again: a replay either publishes the event or leaves it failed, because
   * it adds to the attempts and never resets them. No relay ever takes the event up again.
   */
  lemma FailedNeverPendingAgain(schedule: seq<Action>, more: seq<Action>, id: Uuid)
    requires id in Exec(START, schedule).events && Exec(START, schedule).events[id].status == Failed
    ensures id in Exec(START, schedule + more).events
    ensures Exec(START, schedule + more).events[id].status != Pending
  {
    hide Exec, AvailableFrom;
    RunGrows(schedule, more, id);
    StateIsToldByHistory(schedule, id);
    StateIsToldByHistory(schedule + more, id);
    var a, b := Exec(START, schedule).deliveries, Exec(START, schedule + more).deliveries;
    assert b == a + b[|a|..];
    HistoryConcat(a, b[|a|..], id);
  }

  /** A failed attempt on a published event takes the mark back: pending again below the limit, failed from it on. */
  lemma FailedReplayOfPublished(e: Event, h: seq<Delivery>, msg: string, now: int)
    requires ToldByHistory(e, h) && e.status == Published
    ensures var e' := Settle(e, e, Some(msg), now);
            && e'.publishedAt == e.publishedAt && e'.publishedAt.Some?
            && (e'.status == Pending <==> |h| < 9)
            && (e'.status == Failed <==> |h| >= 9)
            && e'.availableAt == now + Min(Pow2(|h|), 300) * 1000
  {
    IntervalExact(|h| + 1);
  }

  // ---------- at least once ----------

  /** Every accepted publication is a committed success, an orphan of an aborted transaction, or in flight. */
  lemma AcceptedIsAccountedFor(schedule: seq<Action>, id: Uuid)
    ensures var s := Exec(START, schedule);
            Accepted(s.wire, id)
              == Successes(History(s.deliveries, id)) + Accepted(s.orphaned, id) + InFlight(s, id)
  {
    var s := Exec(START, schedule);
    AlwaysInv(schedule);
    Parts(s);
    hide Exec, Inv, InFlight, Accepted, History, Successes;
  }

  /** No event is ever marked published without having been accepted at least once. */
  lemma AtLeastOnce(schedule: seq<Action>, id: Uuid)
    requires id in Exec(START, schedule).events && Exec(START, schedule).events[id].publishedAt.Some?
    ensures Accepted(Exec(START, schedule).wire, id) >= 1
  {
    StateIsToldByHistory(schedule, id);
    SomeSuccess(History(Exec(START, schedule).deliveries, id));
    AcceptedIsAccountedFor(schedule, id);
    hide Exec, InFlight;
  }

  /** All publications of one event carry the same envelope, across relays, retries and replays. */
  lemma OneEnvelope(schedule: seq<Action>, p: Publication, q: Publication)
    requires p in Exec(START, schedule).wire && q in Exec(START, schedule).wire
    requires p.envelope.eventId == q.envelope.eventId
    ensures p.envelope == q.envelope
  {
    AlwaysInv(schedule);
    Parts(Exec(START, schedule));
    hide Exec, Inv, WorkersOk, LocksOk, HistoriesOk, Accounted, EnvelopeOf;
  }

  /** Two open transactions never hold the same event. */
  lemma HoldersAreDisjoint(schedule: seq<Action>, v: nat, w: nat, id: Uuid)
    requires var s := Exec(START, schedule); v in s.workers && w in s.workers
    requires InBatch(Exec(START, schedule).workers[v], id) && InBatch(Exec(START, schedule).workers[w], id)
    ensures v == w
  {
    var s := Exec(START, schedule);
    AlwaysInv(schedule);
    WorkerHolds(s, v);
    WorkerHolds(s, w);
    hide Exec, Inv, AttemptsOk, Due;
  }

  // ---------- retry timing ----------

  predicate RelayOnly(h: seq<Delivery>) {
    forall d <- h :: d.trigger == ByRelay
  }

  /** Between the first and the k-th attempt of a relay all delays have passed. */
  lemma {:induction false} DelaysPass(h: seq<Delivery>, k: nat)
    requires RelayWaits(h) && RelayOnly(h) && k < |h|
    ensures h[k].at >= h[0].at + TotalDelayMs(k)
  {
    if k > 0 {
      DelaysPass(h, k - 1);
      assert h[k] in h;
    }
  }

  /**
   * An event only ever tried by relays fails for good on exactly its tenth committed attempt, at
   * least 511 seconds after the first; it is never tried an eleventh time.
   */
  lemma TenthAttemptFails(schedule: seq<Action>, id: Uuid)
    requires id in Exec(START, schedule).events && RelayOnly(History(Exec(START, schedule).deliveries, id))
    ensures var e := Exec(START, schedule).events[id];
            var h := History(Exec(START, schedule).deliveries, id);
            && |h| <= 10
            && (e.status == Failed ==> |h| == 10 && h[9].at - h[0].at >= 511_000)
            && (|h| == 10 && !h[9].succeeded ==> e.status == Failed)
            && (forall i :: 0 <= i < |h| - 1 ==> !h[i].succeeded)
  {
    var h := History(Exec(START, schedule).deliveries, id);
    StateIsToldByHistory(schedule, id);
    AlwaysInv(schedule);
    Parts(Exec(START, schedule));
    assert RelayWaits(h);
    hide Exec, Inv, WorkersOk, LocksOk, EnvelopesOk, Accounted, HistoriesOk;
    forall i | 0 <= i < |h| - 1 ensures !h[i].succeeded && i + 1 < MAX_ATTEMPTS {
      assert h[i + 1] in h;
    }
    if |h| == MAX_ATTEMPTS {
      DelaysPass(h, 9);
      DelaysAddUp(9);
      SmallPowers();
    }
  }

  // ---------- the drain's measure ----------

  function Weight(e: Event): int {
    if e.status == Pending then MAX_ATTEMPTS - e.attempts else 0
  }

  function Weights(events: map<Uuid, Event>): map<nat, int> {
    map id | id in events :: Weight(events[id])
  }

  /** Attempts the relays may still spend on pending events. */
  ghost function Potential(s: State): int {
    Sum(Weights(s.events))
  }

  lemma AttemptSpends(e: Event, h: seq<Delivery>, error: Option<string>, now: int)
    requires ToldByHistory(e, h) && e.status == Pending
    ensures 0 <= Weight(Settle(e, e, error, now)) < Weight(e)
  {
  }

  lemma WeightNonNegative(e: Event, h: seq<Delivery>)
    requires ToldByHistory(e, h)
    ensures 0 <= Weight(e)
  {
  }

  lemma PotentialNonNegative(s: State)
    requires Inv(s)
    ensures 0 <= Potential(s)
  {
    Parts(s);
    hide Inv, Weight, ToldByHistory, History, RelayWaits, WorkersOk, LocksOk, EnvelopesOk, Accounted;
    forall id | id in s.events ensures 0 <= Weights(s.events)[id] {
      WeightNonNegative(s.events[id], History(s.deliveries, id));
    }
    SumOverNonNegative(Weights(s.events).Keys, Weights(s.events));
  }

  function BatchIds(x: Worker): seq<nat> {
    seq(|x.batch|, i requires 0 <= i < |x.batch| => x.batch[i].id)
  }

  /** A relay's committed batch lowers the potential by at least its length, whatever the publisher did. */
  lemma BatchLowersPotential(s: State, w: nat)
    requires Inv(s) && Finished(s, w) && s.workers[w].trigger == ByRelay
    ensures Potential(DoCommit(s, w)) <= Potential(s) - |s.workers[w].batch|
  {
    var x := s.workers[w];
    var s' := DoCommit(s, w);
    Parts(s);
    WorkerHolds(s, w);
    CommitKeys(s, w);
    DistinctBatch(s, w);
    hide Inv, WorkersOk, LocksOk, EnvelopesOk, Accounted, WorkerOk, DoCommit, Weight;
    var f, g := Weights(s.events), Weights(s'.events);
    forall id | id in f ensures g[id] <= f[id] && (InBatch(x, id) ==> g[id] < f[id]) {
      CommitSpends(s, w, id);
    }
    forall i | 0 <= i < |x.batch| ensures BatchIds(x)[i] in f && g[BatchIds(x)[i]] < f[BatchIds(x)[i]] {
      assert InBatch(x, x.batch[i].id);
    }
    SumFalls(f, g, BatchIds(x));
  }

  lemma DistinctBatch(s: State, w: nat)
    requires w in s.workers && WorkerOk(s, w)
    ensures var ids := BatchIds(s.workers[w]);
            && (forall i, j :: 0 <= i < j < |ids| ==> ids[i] != ids[j])
            && (forall i :: 0 <= i < |ids| ==> ids[i] in s.events)
  {
    hide AttemptsOk, Due;
  }

  lemma CommitSpends(s: State, w: nat, id: Uuid)
    requires Finished(s, w) && WorkerOk(s, w) && s.workers[w].trigger == ByRelay && HistoriesOk(s)
    requires id in s.events && id in DoCommit(s, w).events
    ensures Weight(DoCommit(s, w).events[id]) <= Weight(s.events[id])
    ensures InBatch(s.workers[w], id) ==> Weight(DoCommit(s, w).events[id]) < Weight(s.events[id])
  {
    var x := s.workers[w];
    if InBatch(x, id) {
      var i :| 0 <= i < |x.batch| && x.batch[i].id == id;
      CommitRow(s, w, i);
      assert Due(s.events[id], x.now);
      hide WorkerOk, DoCommit, Settle, History;
      AttemptSpends(s.events[id], History(s.deliveries, id), x.rows[i].error, x.now);
    } else {
      CommitOther(s, w, id);
    }
  }

  /** Neither a transfer committing a new event nor a replay committing. */
  predicate Undisturbed(s: State, a: Action) {
    match a
    case Insert(_, _, _) => false
    case CommitWork(w) => Finished(s, w) ==> s.workers[w].trigger == ByRelay
    case _ => true
  }

  /** Events a relay's commit disposes of. */
  function Dispatched(s: State, a: Action): nat {
    if a.CommitWork? && Finished(s, a.w) then |s.workers[a.w].batch| else 0
  }

  lemma StepLowersPotential(s: State, a: Action)
    requires Inv(s) && Undisturbed(s, a)
    ensures Potential(Step(s, a)) + Dispatched(s, a) <= Potential(s)
  {
    if a.CommitWork? && Finished(s, a.w) {
      BatchLowersPotential(s, a.w);
    } else {
      OtherwiseSameEvents(s, a);
    }
  }

  lemma OtherwiseSameEvents(s: State, a: Action)
    requires !a.Insert? && !(a.CommitWork? && Finished(s, a.w))
    ensures Step(s, a).events == s.events
  {
  }

  ghost predicate UndisturbedRun(s: State, run: seq<Action>) {
    forall i :: 0 <= i < |run| ==> Undisturbed(Exec(s, run[..i]), run[i])
  }

  function DispatchedBy(s: State, run: seq<Action>): nat {
    if run == [] then 0
    else
      var init := run[..|run| - 1];
      DispatchedBy(s, init) + Dispatched(Exec(s, init), run[|run| - 1])
  }

  /**
   * While no transfer commits and nobody replays, all relays together dispatch no more events than
   * the potential, even as time passes and delays expire: every drain comes to an end.
   */
  lemma {:induction false} RelaysExhaustPotential(s: State, run: seq<Action>)
    requires Inv(s) && UndisturbedRun(s, run)
    ensures Inv(Exec(s, run))
    ensures 0 <= Potential(Exec(s, run)) <= Potential(s) - DispatchedBy(s, run)
  {
    hide Inv, Step, Potential, Dispatched, Undisturbed;
    if run == [] {
      PotentialNonNegative(s);
    } else {
      var init, a := run[..|run| - 1], run[|run| - 1];
      assert UndisturbedRun(s, init) by {
        forall i | 0 <= i < |init| ensures Undisturbed(Exec(s, init[..i]), init[i]) {
          assert init[..i] == run[..i];
          assert Undisturbed(Exec(s, run[..i]), run[i]);
        }
      }
      RelaysExhaustPotential(s, init);
      assert Undisturbed(Exec(s, run[..|init|]), run[|init|]);
      StepKeeps(Exec(s, init), a);
      StepLowersPotential(Exec(s, init), a);
      PotentialNonNegative(Step(Exec(s, init), a));
    }
  }

  // ---------- calm: relays only, and no new events ----------

  ghost predicate CalmState(s: State) {
    forall w :: w in s.workers && s.workers[w].phase != Ended ==> s.workers[w].trigger == ByRelay
  }

  predicate CalmAction(a: Action) {
    !a.Insert? && !a.BeginReplay?
  }

  /** A running transaction of the relays after a calm action was one before, or has just begun. */
  lemma TriggersStay(s: State, a: Action, w: nat)
    requires CalmAction(a) && w in Step(s, a).workers && Step(s, a).workers[w].phase != Ended
    ensures var y := Step(s, a).workers[w];
            if w in s.workers then s.workers[w].phase != Ended && y.trigger == s.workers[w].trigger
            else y.trigger == ByRelay
  {
    hide Settle, Due, EnvelopeOf, DeliveryOf;
  }

  lemma CalmStep(s: State, a: Action)
    requires Inv(s) && CalmState(s) && CalmAction(a)
    ensures CalmState(Step(s, a))
    ensures Potential(Step(s, a)) + Dispatched(s, a) <= Potential(s)
  {
    hide Inv, Potential, Step;
    forall w | w in Step(s, a).workers && Step(s, a).workers[w].phase != Ended
      ensures Step(s, a).workers[w].trigger == ByRelay
    {
      TriggersStay(s, a, w);
    }
    StepLowersPotential(s, a);
  }
}
