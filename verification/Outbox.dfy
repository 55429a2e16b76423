/**
 * The delivery state machine of the outbox: relays that claim due rows skipping locked ones, manual
 * replays that wait for their row, a publisher that accepts or refuses at will, and transactions
 * that may die after publishing and before committing.
 */
module Outbox {
  import opened Wrappers
  import opened Ledger
  import opened Tables
  import opened Retry

  datatype Status = Pending | Published | Failed

  datatype Trigger = ByRelay | ByReplay

  /** A row of outbox_events: what the event says, and its delivery state. Times are milliseconds. */
  datatype Event = Event(
    row: EventRow,
    createdAt: int,
    status: Status,
    attempts: nat,
    lastError: Option<string>,
    availableAt: int,
    publishedAt: Option<int>)

  /** A row of outbox_deliveries. */
  datatype Delivery = Delivery(eventId: Uuid, at: int, succeeded: bool, trigger: Trigger, error: Option<string>)

  const PRODUCER := "sumzero"

  datatype Envelope = Envelope(
    eventId: Uuid,
    eventType: string,
    schemaVersion: int,
    occurredAt: int,
    producer: string,
    aggregateType: string,
    aggregateId: Uuid,
    payload: Payload)

  function EnvelopeOf(id: Uuid, e: Event): Envelope {
    Envelope(id, e.row.eventType, e.row.schemaVersion, e.createdAt, PRODUCER,
             e.row.aggregateType, e.row.aggregateId, e.row.payload)
  }

  function NewEvent(row: EventRow, createdAt: int): Event {
    Event(row, createdAt, Pending, 0, None, createdAt, None)
  }

  /** The UPDATE of settleAttempt on the current row, with the attempt count computed from the row read. */
  function Settle(current: Event, read: Event, error: Option<string>, now: int): Event {
    var attempts := read.attempts + 1;
    match error
    case None =>
      current.(status := Published, publishedAt := Some(now), attempts := attempts, lastError := None)
    case Some(msg) =>
      current.(status := if attempts >= MAX_ATTEMPTS then Failed else Pending, attempts := attempts,
               lastError := Some(msg), availableAt := now + DelayMs(attempts))
  }

  function DeliveryOf(id: Uuid, error: Option<string>, trigger: Trigger, now: int): Delivery {
    Delivery(id, now, error.None?, trigger, error)
  }

  /** What reached the publisher, and whether it took it. */
  datatype Publication = Publication(envelope: Envelope, accepted: bool)

  datatype Phase = Claiming | Waiting(id: Uuid) | Publishing | Ended

  /** A row claimed FOR UPDATE, as it was read. */
  datatype Claimed = Claimed(id: Uuid, read: Event)

  /** One database transaction of a relay or of a replay. now() is fixed when it begins. */
  datatype Worker = Worker(
    trigger: Trigger,
    now: int,
    limit: nat,
    phase: Phase,
    batch: seq<Claimed>,
    updates: map<Uuid, Event>,
    rows: seq<Delivery>,
    sent: seq<Publication>)

  /** `wire` is everything ever handed to the publisher; `orphaned` what aborted transactions handed over. */
  datatype State = State(
    events: map<Uuid, Event>,
    deliveries: seq<Delivery>,
    workers: map<nat, Worker>,
    locks: map<Uuid, nat>,
    clock: int,
    wire: seq<Publication>,
    orphaned: seq<Publication>)

  const START := State(map[], [], map[], map[], 0, [], [])

  datatype Action =
    | Insert(id: Uuid, row: EventRow, createdAt: int)   // the commit of a transfer
    | Tick(ms: nat)
    | BeginRelay(w: nat, limit: nat)
    | ClaimRow(w: nat, id: Uuid)
    | CloseBatch(w: nat)
    | BeginReplay(w: nat, id: Uuid)
    | ClaimReplay(w: nat)
    | Publish(w: nat, error: Option<string>)
    | CommitWork(w: nat)
    | AbortWork(w: nat)

  predicate In(s: State, w: nat, phase: Phase) {
    w in s.workers && s.workers[w].phase == phase
  }

  /** WHERE status = 'pending' AND available_at <= now(), on the latest version of the row. */
  predicate Due(e: Event, now: int) {
    e.status == Pending && e.availableAt <= now
  }

  function Put(s: State, w: nat, x: Worker): State {
    s.(workers := s.workers[w := x])
  }

  function Stop(s: State, w: nat): State
    requires w in s.workers
  {
    Put(s, w, s.workers[w].(phase := Ended, batch := [], updates := map[], rows := [], sent := []))
      .(locks := map id | id in s.locks && s.locks[id] != w :: s.locks[id])
  }

  function Begin(s: State, w: nat, trigger: Trigger, limit: nat, phase: Phase): State {
    if w in s.workers then s
    else Put(s, w, Worker(trigger, s.clock, limit, phase, [], map[], [], []))
  }

  /** FOR UPDATE SKIP LOCKED: a row held by somebody else, or no longer due, is passed over. */
  function DoClaimRow(s: State, w: nat, id: Uuid): State
    requires In(s, w, Claiming)
  {
    var x := s.workers[w];
    if id in s.events && id !in s.locks && Due(s.events[id], x.now) && |x.batch| < x.limit then
      Put(s, w, x.(batch := x.batch + [Claimed(id, s.events[id])])).(locks := s.locks[id := w])
    else s
  }

  /** An empty batch returns at once; otherwise publishing starts. */
  function DoCloseBatch(s: State, w: nat): State
    requires In(s, w, Claiming)
  {
    if s.workers[w].batch == [] then Stop(s, w) else Put(s, w, s.workers[w].(phase := Publishing))
  }

  /** FOR UPDATE: wait for the row, whatever its status; an unknown event ends the replay. */
  function DoClaimReplay(s: State, w: nat): State
    requires w in s.workers && s.workers[w].phase.Waiting?
  {
    var x := s.workers[w];
    var id := x.phase.id;
    if id !in s.events then Stop(s, w)
    else if id in s.locks then s
    else Put(s, w, x.(phase := Publishing, batch := [Claimed(id, s.events[id])])).(locks := s.locks[id := w])
  }

  /** Publish the next event of the batch, then settle the attempt. */
  function DoPublish(s: State, w: nat, error: Option<string>): State
    requires In(s, w, Publishing)
  {
    var x := s.workers[w];
    var n := |x.rows|;
    if n >= |x.batch| || x.batch[n].id !in s.events then s
    else
      var c := x.batch[n];
      var p := Publication(EnvelopeOf(c.id, c.read), error.None?);
      Put(s, w, x.(updates := x.updates[c.id := Settle(s.events[c.id], c.read, error, x.now)],
                   rows := x.rows + [DeliveryOf(c.id, error, x.trigger, x.now)],
                   sent := x.sent + [p]))
        .(wire := s.wire + [p])
  }

  function DoCommit(s: State, w: nat): State
    requires In(s, w, Publishing)
  {
    var x := s.workers[w];
    if |x.rows| < |x.batch| then s
    else Stop(s, w).(events := s.events + x.updates, deliveries := s.deliveries + x.rows)
  }

  function DoAbort(s: State, w: nat): State
    requires w in s.workers
  {
    Stop(s, w).(orphaned := s.orphaned + s.workers[w].sent)
  }

  function Step(s: State, a: Action): State {
    match a
    case Insert(id, row, createdAt) =>
      if id in s.events || createdAt > s.clock then s else s.(events := s.events[id := NewEvent(row, createdAt)])
    case Tick(ms) => s.(clock := s.clock + ms)
    case BeginRelay(w, limit) => Begin(s, w, ByRelay, limit, Claiming)
    case ClaimRow(w, id) => if In(s, w, Claiming) then DoClaimRow(s, w, id) else s
    case CloseBatch(w) => if In(s, w, Claiming) then DoCloseBatch(s, w) else s
    case BeginReplay(w, id) => Begin(s, w, ByReplay, 1, Waiting(id))
    case ClaimReplay(w) => if w in s.workers && s.workers[w].phase.Waiting? then DoClaimReplay(s, w) else s
    case Publish(w, error) => if In(s, w, Publishing) then DoPublish(s, w, error) else s
    case CommitWork(w) => if In(s, w, Publishing) then DoCommit(s, w) else s
    case AbortWork(w) => if w in s.workers && s.workers[w].phase != Ended then DoAbort(s, w) else s
  }

  function Exec(s: State, schedule: seq<Action>): State {
    if schedule == [] then s
    else Step(Exec(s, schedule[..|schedule| - 1]), schedule[|schedule| - 1])
  }

  // ---------- delivery history ----------

  /** The committed deliveries of one event, oldest first. */
  function History(deliveries: seq<Delivery>, id: Uuid): seq<Delivery> {
    if deliveries == [] then []
    else
      var last := deliveries[|deliveries| - 1];
      History(deliveries[..|deliveries| - 1], id) + (if last.eventId == id then [last] else [])
  }

  /** When the last success happened. */
  function LastSuccess(h: seq<Delivery>): Option<int> {
    if h == [] then None
    else if h[|h| - 1].succeeded then Some(h[|h| - 1].at)
    else LastSuccess(h[..|h| - 1])
  }

  /** When the event may next be tried: its creation, or the last failure plus its delay. */
  function AvailableFrom(h: seq<Delivery>, createdAt: int): int {
    if h == [] then createdAt
    else if h[|h| - 1].succeeded then AvailableFrom(h[..|h| - 1], createdAt)
    else h[|h| - 1].at + DelayMs(|h|)
  }

  /** The delivery state of an event is determined by its history alone. */
  ghost predicate ToldByHistory(e: Event, h: seq<Delivery>) {
    && e.attempts == |h|
    && e.status == (if h == [] then Pending
                    else if h[|h| - 1].succeeded then Published
                    else if |h| >= MAX_ATTEMPTS then Failed
                    else Pending)
    && e.lastError == (if h == [] then None else h[|h| - 1].error)
    && e.publishedAt == LastSuccess(h)
    && e.availableAt == AvailableFrom(h, e.createdAt)
  }

  /** A relay attempt follows only a failure below the limit, and only after its delay. */
  ghost predicate RelayWaits(h: seq<Delivery>) {
    forall i :: 1 <= i < |h| && h[i].trigger == ByRelay ==>
      && !h[i - 1].succeeded
      && i < MAX_ATTEMPTS
      && h[i].at >= h[i - 1].at + DelayMs(i)
  }

  /** How many publications of the event were accepted. */
  function Accepted(ps: seq<Publication>, id: Uuid): nat {
    if ps == [] then 0
    else
      var last := ps[|ps| - 1];
      Accepted(ps[..|ps| - 1], id) + (if last.accepted && last.envelope.eventId == id then 1 else 0)
  }

  function Successes(h: seq<Delivery>): nat {
    if h == [] then 0 else Successes(h[..|h| - 1]) + (if h[|h| - 1].succeeded then 1 else 0)
  }

  /** Accepted publications of transactions still open. Only the holder of the row can have any. */
  function InFlight(s: State, id: Uuid): nat {
    if id in s.locks && s.locks[id] in s.workers then Accepted(s.workers[s.locks[id]].sent, id) else 0
  }
}
