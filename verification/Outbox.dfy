/**
  Room creation for a match as a protocol: the outbox row, the Redis list, one consumer
  (MatchWorker.processOne), the retry scheduler (MatchWorker.compensate) and the engine's
  idempotent rooms/create.  Any process may stop between any two steps, replies may be
  lost, and messages may be delivered more than once.
  */
module Outbox {
  import opened Common
  import opened MatchMessages

  /** Where the single consumer is inside processOne. */
  datatype Consumer =
    | Idle
    | Popped(id: Id)
    | Creating(id: Id)
    | Received(id: Id, code: Code)
    | Notifying(id: Id, code: Code)

  /** Where the scheduler thread is inside compensate. */
  datatype Scheduler =
    | Resting
    | Pushing(ids: seq<Id>)
    | Bumping(id: Id, rest: seq<Id>)

  datatype Reply = Reply(id: Id, code: Code)

  /** `created` records the replies to rooms/create; the engine does not read it. */
  datatype Engine = Engine(matchRooms: map<Id, Code>, rooms: set<Code>, created: seq<Reply>)

  /** `pushes` and `lostBumps` record what happened; the protocol does not read them. */
  datatype State = State(
    rows: Rows, list: seq<Id>, consumer: Consumer, scheduler: Scheduler, engine: Engine,
    pushes: map<Id, nat>, lostBumps: map<Id, nat>)

  /**
    What the consumer does.  Fails is whatever makes processOne write status 2: an exception
    caught anywhere in it, from the row lookup to the notification, a reply lost on the way
    back, or one that is not 200.  Crash also stands for a write of status 2 that fails.
    */
  datatype Delivery = Pop | Read | Create(newCode: Code) | Record | Notify | Fails | Crash

  /** What the scheduler does.  Stops is an exception from a push or a bump, or a crash. */
  datatype Retry = ListRetries(now: int, ids: seq<Id>) | Push | Bump | Stops

  datatype Step =
    | Enqueue(id: Id, hasPlayers: bool, now: int, pushed: bool)
    | Deliver(delivery: Delivery)
    | Retried(retry: Retry)
    | RoomCloses(code: Code)
    | EngineRestart(kept: set<Code>)

  const INITIAL := State(map[], [], Idle, Resting, Engine(map[], {}, []), map[], map[])

  // ----- the engine -----

  /** The matchId branch of rooms/create: the bound room if it still exists, else a new one. */
  function RoomFor(e: Engine, id: Id, newCode: Code): Code {
    if id != "" && Bound(e, id) then e.matchRooms[id] else newCode
  }

  predicate Bound(e: Engine, id: Id) {
    id in e.matchRooms && e.matchRooms[id] in e.rooms
  }

  function EngineCreate(e: Engine, id: Id, newCode: Code): Engine {
    var code := RoomFor(e, id, newCode);
    Engine(if id == "" then e.matchRooms else e.matchRooms[id := code], e.rooms + {code}, e.created + [Reply(id, code)])
  }

  // ----- steps -----

  function Tally(m: map<Id, nat>, id: Id): nat {
    if id in m then m[id] else 0
  }

  /** Status 2, whatever the status was. */
  function Fail(s: State, id: Id): State {
    s.(rows := Updated(s.rows, id, FAILED, None), consumer := Idle)
  }

  /** A step whose guard does not hold leaves the state alone. */
  function AfterDelivery(s: State, d: Delivery): State {
    match d
    case Pop =>
      if s.consumer != Idle || s.list == [] then s
      else s.(consumer := Popped(s.list[|s.list| - 1]), list := s.list[..|s.list| - 1])
    case Read =>
      if !s.consumer.Popped? then s
      else
        var id := s.consumer.id;
        if id !in s.rows || s.rows[id].status != PENDING then s.(consumer := Idle)
        else if !s.rows[id].hasPlayers then Fail(s, id)
        else s.(consumer := Creating(id))
    case Create(newCode) =>
      if !s.consumer.Creating? || newCode in s.engine.rooms then s
      else s.(engine := EngineCreate(s.engine, s.consumer.id, newCode),
              consumer := Received(s.consumer.id, RoomFor(s.engine, s.consumer.id, newCode)))
    case Record =>
      if !s.consumer.Received? then s
      else if s.consumer.code == "" then Fail(s, s.consumer.id)
      else s.(rows := Updated(s.rows, s.consumer.id, OK, Some(s.consumer.code)),
              consumer := Notifying(s.consumer.id, s.consumer.code))
    case Notify =>
      if !s.consumer.Notifying? then s else s.(consumer := Idle)
    case Fails =>
      if s.consumer == Idle then s else Fail(s, s.consumer.id)
    case Crash => s.(consumer := Idle)
  }

  function AfterRetry(s: State, r: Retry): State {
    match r
    case ListRetries(now, ids) =>
      if s.scheduler != Resting || !Listed(s.rows, now, ids) then s else s.(scheduler := Pushing(ids))
    case Push =>
      if !s.scheduler.Pushing? then s
      else if s.scheduler.ids == [] then s.(scheduler := Resting)
      else
        var id := s.scheduler.ids[0];
        s.(list := [id] + s.list, scheduler := Bumping(id, s.scheduler.ids[1..]),
           pushes := s.pushes[id := Tally(s.pushes, id) + 1])
    case Bump =>
      if !s.scheduler.Bumping? then s
      else s.(rows := Bumped(s.rows, s.scheduler.id), scheduler := Pushing(s.scheduler.rest))
    case Stops =>
      if s.scheduler.Bumping?
      then s.(scheduler := Resting, lostBumps := s.lostBumps[s.scheduler.id := Tally(s.lostBumps, s.scheduler.id) + 1])
      else s.(scheduler := Resting)
  }

  function AfterEnqueue(s: State, id: Id, hasPlayers: bool, now: int, pushed: bool): State {
    if id in s.rows then s
    else s.(rows := s.rows[id := Row(PENDING, 0, None, hasPlayers, now)],
            list := if pushed then [id] + s.list else s.list)
  }

  function Next(s: State, step: Step): State {
    match step
    case Enqueue(id, hasPlayers, now, pushed) => AfterEnqueue(s, id, hasPlayers, now, pushed)
    case Deliver(d) => AfterDelivery(s, d)
    case Retried(r) => AfterRetry(s, r)
    case RoomCloses(code) => s.(engine := s.engine.(rooms := s.engine.rooms - {code}))
    case EngineRestart(kept) => s.(engine := s.engine.(matchRooms := map[], rooms := s.engine.rooms * kept))
  }

  function Run(s: State, steps: seq<Step>): State
    decreases |steps|
  {
    if steps == [] then s else Run(Next(s, steps[0]), steps[1..])
  }

  // ----- invariant -----

  ghost predicate RowOk(row: Row) {
    row.status in {PENDING, OK, FAILED} && (row.status == PENDING ==> row.roomCode == None)
  }

  ghost predicate RowsOk(rows: Rows) {
    forall id :: id in rows ==> RowOk(rows[id])
  }

  /** The consumer works on a pending row until it has recorded the room. */
  ghost predicate ConsumerOk(c: Consumer, rows: Rows) {
    match c
    case Idle => true
    case Popped(_) => true
    case Creating(id) => id in rows && rows[id].status == PENDING
    case Received(id, _) => id in rows && rows[id].status == PENDING
    case Notifying(id, code) => id in rows && rows[id].status == OK && rows[id].roomCode == Some(code)
  }

  /** Retry pushes that were followed by a bump, or still can be. */
  ghost function Counted(s: State, id: Id): int {
    Tally(s.pushes, id) - Tally(s.lostBumps, id)
  }

  ghost predicate Waiting(c: Scheduler, id: Id) {
    (c.Pushing? && id in c.ids) || (c.Bumping? && id in c.rest)
  }

  /** The retry budget of one row. */
  ghost predicate BudgetOk(s: State, id: Id) {
    && Counted(s, id) <= MAX_RETRIES
    && (Waiting(s.scheduler, id) ==> Counted(s, id) < MAX_RETRIES)
    && (id !in s.rows ==> Counted(s, id) <= 0 && !Waiting(s.scheduler, id))
    && (id in s.rows && s.rows[id].status == PENDING ==>
          Counted(s, id) <= s.rows[id].retries + if s.scheduler.Bumping? && s.scheduler.id == id then 1 else 0)
  }

  ghost predicate SchedulerOk(c: Scheduler, rows: Rows) {
    match c
    case Resting => true
    case Pushing(ids) => Different(ids) && forall k :: 0 <= k < |ids| ==> ids[k] in rows
    case Bumping(id, rest) =>
      Different(rest) && id !in rest && id in rows && forall k :: 0 <= k < |rest| ==> rest[k] in rows
  }

  ghost predicate Inv(s: State) {
    && RowsOk(s.rows) && ConsumerOk(s.consumer, s.rows) && SchedulerOk(s.scheduler, s.rows)
    && forall id :: BudgetOk(s, id)
  }

  // ----- how a row may change in one step -----

  /** Settled stays settled, a stored room code stays, and retries change by bumps only. */
  ghost predicate RowMoves(a: Row, b: Row) {
    && RowOk(b)
    && (a.status != PENDING ==> b.status != PENDING)
    && (a.roomCode.Some? ==> b.roomCode == a.roomCode)
    && b.retries >= a.retries
  }

  ghost predicate RowsMove(a: Rows, b: Rows) {
    forall id :: id in a ==> id in b && RowMoves(a[id], b[id])
  }

  /** Everything but the retry counts may move, and new rows have none. */
  ghost predicate RetriesStay(a: Rows, b: Rows) {
    && (forall id :: id in a ==> id in b && b[id].retries == a[id].retries)
    && forall id :: id in b && id !in a ==> b[id].retries == 0
  }

  lemma FailMovesRows(rows: Rows, id: Id)
    requires RowsOk(rows)
    ensures var t := Updated(rows, id, FAILED, None);
      RowsOk(t) && RowsMove(rows, t) && RetriesStay(rows, t)
  {}

  lemma RecordMovesRows(rows: Rows, id: Id, code: Code)
    requires RowsOk(rows) && id in rows && rows[id].status == PENDING
    ensures var t := Updated(rows, id, OK, Some(code));
      RowsOk(t) && RowsMove(rows, t) && RetriesStay(rows, t)
  {}

  lemma DeliveryKeepsRows(s: State, d: Delivery)
    requires RowsOk(s.rows) && ConsumerOk(s.consumer, s.rows)
    ensures var t := AfterDelivery(s, d);
      && RowsOk(t.rows) && ConsumerOk(t.consumer, t.rows)
      && RowsMove(s.rows, t.rows) && RetriesStay(s.rows, t.rows)
  {
    if s.consumer != Idle {
      FailMovesRows(s.rows, s.consumer.id);
    }
    if s.consumer.Received? {
      RecordMovesRows(s.rows, s.consumer.id, s.consumer.code);
    }
    RowsStay(s.rows);
    hide RowsOk, RowsMove, RetriesStay, RoomFor, EngineCreate;
  }

  lemma RowsStay(rows: Rows)
    requires RowsOk(rows)
    ensures RowsMove(rows, rows) && RetriesStay(rows, rows)
  {}

  lemma DeliveryFrame(s: State, d: Delivery)
    ensures var t := AfterDelivery(s, d);
      t.scheduler == s.scheduler && t.pushes == s.pushes && t.lostBumps == s.lostBumps
    ensures !d.Create? ==> AfterDelivery(s, d).engine == s.engine
  {
    hide RoomFor, EngineCreate, Updated;
  }

  lemma EnqueueKeepsRows(s: State, id: Id, hasPlayers: bool, now: int, pushed: bool)
    requires RowsOk(s.rows) && ConsumerOk(s.consumer, s.rows)
    ensures var t := AfterEnqueue(s, id, hasPlayers, now, pushed);
      && RowsOk(t.rows) && ConsumerOk(t.consumer, t.rows)
      && RowsMove(s.rows, t.rows) && RetriesStay(s.rows, t.rows)
  {}

  lemma BumpMovesRows(rows: Rows, id: Id, c: Consumer)
    requires RowsOk(rows) && ConsumerOk(c, rows)
    ensures var t := Bumped(rows, id);
      RowsOk(t) && ConsumerOk(c, t) && RowsMove(rows, t)
  {}

  lemma RetryKeepsRows(s: State, r: Retry)
    requires RowsOk(s.rows) && ConsumerOk(s.consumer, s.rows)
    ensures var t := AfterRetry(s, r);
      && RowsOk(t.rows) && t.consumer == s.consumer && ConsumerOk(t.consumer, t.rows)
      && RowsMove(s.rows, t.rows) && t.engine == s.engine
  {
    if s.scheduler.Bumping? {
      BumpMovesRows(s.rows, s.scheduler.id, s.consumer);
    }
    RowsStay(s.rows);
    hide Listed, Tally, Bumped, RowsOk, RowsMove;
  }

  /** What every step does to the rows. */
  lemma StepKeepsRows(s: State, step: Step)
    requires RowsOk(s.rows) && ConsumerOk(s.consumer, s.rows)
    ensures var t := Next(s, step);
      RowsOk(t.rows) && ConsumerOk(t.consumer, t.rows) && RowsMove(s.rows, t.rows)
  {
    RowsStay(s.rows);
    hide AfterDelivery, AfterRetry, AfterEnqueue, RowsOk, ConsumerOk, RowsMove;
    match step
    case Enqueue(id, hasPlayers, now, pushed) => EnqueueKeepsRows(s, id, hasPlayers, now, pushed);
    case Deliver(d) => DeliveryKeepsRows(s, d);
    case Retried(r) => RetryKeepsRows(s, r);
    case RoomCloses(_) =>
    case EngineRestart(_) =>
  }

  // ----- the retry budget -----

  lemma RowsStayListed(c: Scheduler, a: Rows, b: Rows)
    requires SchedulerOk(c, a) && RowsMove(a, b)
    ensures SchedulerOk(c, b)
  {
    hide RowMoves, Different;
  }

  lemma RetryKeepsScheduler(s: State, r: Retry)
    requires SchedulerOk(s.scheduler, s.rows)
    ensures SchedulerOk(AfterRetry(s, r).scheduler, AfterRetry(s, r).rows)
  {
    hide Tally, Retryable;
    if r.ListRetries? && Listed(s.rows, r.now, r.ids) {
      forall k | 0 <= k < |r.ids| ensures r.ids[k] in s.rows { RetryableIsRow(s.rows, r.now, r.ids[k]); }
    }
  }

  lemma RetryableIsRow(rows: Rows, now: int, id: Id)
    requires Retryable(rows, now, id)
    ensures id in rows && rows[id].retries < MAX_RETRIES && rows[id].status == PENDING
  {}

  /** Steps of anyone but the scheduler leave every budget alone. */
  lemma BudgetStays(s: State, t: State, id: Id)
    requires BudgetOk(s, id) && RowsMove(s.rows, t.rows) && RetriesStay(s.rows, t.rows)
    requires t.scheduler == s.scheduler && t.pushes == s.pushes && t.lostBumps == s.lostBumps
    ensures BudgetOk(t, id)
  {
    assert id in s.rows ==> RowMoves(s.rows[id], t.rows[id]);
  }

  /** A row in the retry list has used fewer than five pushes. */
  lemma ListKeepsBudget(s: State, now: int, ids: seq<Id>, id: Id)
    requires BudgetOk(s, id)
    ensures BudgetOk(AfterRetry(s, ListRetries(now, ids)), id)
  {
    hide Tally, Retryable;
    if Listed(s.rows, now, ids) && id in ids {
      RetryableIsRow(s.rows, now, id);
    }
  }

  lemma PushKeepsBudget(s: State, id: Id)
    requires BudgetOk(s, id) && SchedulerOk(s.scheduler, s.rows)
    ensures BudgetOk(AfterRetry(s, Push), id)
  {
    hide Listed;
    if s.scheduler.Pushing? && s.scheduler.ids != [] {
      var ids := s.scheduler.ids;
      assert id in ids <==> id == ids[0] || id in ids[1..];
      assert id in ids[1..] ==> id != ids[0];
    }
  }

  lemma BumpKeepsBudget(s: State, id: Id)
    requires BudgetOk(s, id) && SchedulerOk(s.scheduler, s.rows)
    ensures BudgetOk(AfterRetry(s, Bump), id)
  {
    hide Listed, Different;
  }

  lemma StopKeepsBudget(s: State, id: Id)
    requires BudgetOk(s, id) && SchedulerOk(s.scheduler, s.rows)
    ensures BudgetOk(AfterRetry(s, Stops), id)
  {
    hide Listed, Different;
  }

  lemma RetryKeepsBudget(s: State, r: Retry, id: Id)
    requires BudgetOk(s, id) && SchedulerOk(s.scheduler, s.rows)
    ensures BudgetOk(AfterRetry(s, r), id)
  {
    hide AfterRetry, BudgetOk, SchedulerOk;
    match r
    case ListRetries(now, ids) => ListKeepsBudget(s, now, ids, id);
    case Push => PushKeepsBudget(s, id);
    case Bump => BumpKeepsBudget(s, id);
    case Stops => StopKeepsBudget(s, id);
  }

  lemma BudgetStaysOk(s: State, step: Step, id: Id)
    requires RowsOk(s.rows) && ConsumerOk(s.consumer, s.rows) && SchedulerOk(s.scheduler, s.rows) && BudgetOk(s, id)
    ensures BudgetOk(Next(s, step), id)
  {
    hide AfterDelivery, AfterRetry, RowsOk, ConsumerOk, SchedulerOk, BudgetOk, RowsMove, RetriesStay;
    RowsStay(s.rows);
    match step
    case Enqueue(row, hasPlayers, now, pushed) =>
      EnqueueKeepsRows(s, row, hasPlayers, now, pushed);
      BudgetStays(s, Next(s, step), id);
    case Deliver(d) =>
      DeliveryKeepsRows(s, d);
      DeliveryFrame(s, d);
      BudgetStays(s, Next(s, step), id);
    case Retried(r) => RetryKeepsBudget(s, r, id);
    case RoomCloses(_) => BudgetStays(s, Next(s, step), id);
    case EngineRestart(_) => BudgetStays(s, Next(s, step), id);
  }

  lemma SchedulerStaysOk(s: State, step: Step)
    requires RowsOk(s.rows) && ConsumerOk(s.consumer, s.rows) && SchedulerOk(s.scheduler, s.rows)
    ensures SchedulerOk(Next(s, step).scheduler, Next(s, step).rows)
  {
    hide AfterDelivery, AfterRetry, RowsOk, ConsumerOk, SchedulerOk, RowsMove;
    StepKeepsRows(s, step);
    match step
    case Enqueue(_, _, _, _) => RowsStayListed(s.scheduler, s.rows, Next(s, step).rows);
    case Deliver(d) =>
      DeliveryFrame(s, d);
      RowsStayListed(s.scheduler, s.rows, Next(s, step).rows);
    case Retried(r) => RetryKeepsScheduler(s, r);
    case RoomCloses(_) =>
    case EngineRestart(_) =>
  }

  lemma InvStep(s: State, step: Step)
    requires Inv(s)
    ensures Inv(Next(s, step)) && RowsMove(s.rows, Next(s, step).rows)
  {
    hide Next, RowsOk, ConsumerOk, SchedulerOk, BudgetOk, RowsMove;
    StepKeepsRows(s, step);
    SchedulerStaysOk(s, step);
    forall id ensures BudgetOk(Next(s, step), id) { BudgetStaysOk(s, step, id); }
  }

  lemma {:induction false} InvHolds(s: State, steps: seq<Step>)
    requires Inv(s)
    ensures Inv(Run(s, steps))
    decreases |steps|
  {
    if steps != [] {
      hide Next, Inv, RowsMove;
      InvStep(s, steps[0]);
      InvHolds(Next(s, steps[0]), steps[1..]);
    }
  }

  // ----- what the rows promise -----

  /**
    Over any run a settled row never becomes pending again, and a room code, once stored,
    is never lost or replaced: not even when a failed lookup or notification turns status 1
    into 2.
    */
  lemma {:induction false} SettledForGood(s: State, steps: seq<Step>, id: Id)
    requires Inv(s) && id in s.rows
    ensures var t := Run(s, steps);
      && id in t.rows
      && (s.rows[id].status != 0 ==> t.rows[id].status != 0)
      && (s.rows[id].roomCode.Some? ==> t.rows[id].roomCode == s.rows[id].roomCode)
    decreases |steps|
  {
    if steps != [] {
      hide Next, Inv;
      InvStep(s, steps[0]);
      assert RowMoves(s.rows[id], Next(s, steps[0]).rows[id]);
      SettledForGood(Next(s, steps[0]), steps[1..], id);
    }
  }

  /** Only a create is answered, and only while its row is pending. */
  lemma AnswersOnlyCreates(s: State, step: Step)
    ensures var t := Next(s, step);
      || t.engine.created == s.engine.created
      || (step.Deliver? && step.delivery.Create? && s.consumer.Creating?
          && t.engine == EngineCreate(s.engine, s.consumer.id, step.delivery.newCode))
  {
    hide AfterRetry, EngineCreate, RoomFor;
    match step
    case Deliver(d) => DeliveryFrame(s, d);
    case Retried(r) => RetryIdlesEngine(s, r);
    case _ =>
  }

  lemma RetryIdlesEngine(s: State, r: Retry)
    ensures AfterRetry(s, r).engine == s.engine
  {
    hide Listed, Tally, Bumped;
  }

  lemma NoCreateWhenSettled(s: State, step: Step, id: Id)
    requires ConsumerOk(s.consumer, s.rows) && id in s.rows && s.rows[id].status != PENDING
    ensures s.engine.created <= Next(s, step).engine.created
    ensures forall k :: |s.engine.created| <= k < |Next(s, step).engine.created| ==> Next(s, step).engine.created[k].id != id
  {
    hide Next, RoomFor;
    AnswersOnlyCreates(s, step);
  }

  lemma CreatedGrows(s: State, step: Step)
    ensures s.engine.created <= Next(s, step).engine.created
  {
    hide Next, RoomFor;
    AnswersOnlyCreates(s, step);
  }

  /** Once the row is settled, duplicate deliveries and retry pushes create nothing more for it. */
  lemma {:induction false} SettledCreatesNothing(s: State, steps: seq<Step>, id: Id)
    requires Inv(s) && id in s.rows && s.rows[id].status != 0
    ensures s.engine.created <= Run(s, steps).engine.created
    ensures forall k :: |s.engine.created| <= k < |Run(s, steps).engine.created| ==> Run(s, steps).engine.created[k].id != id
    decreases |steps|
  {
    if steps != [] {
      hide Next, RowsOk, SchedulerOk, BudgetOk;
      NoCreateWhenSettled(s, steps[0], id);
      InvStep(s, steps[0]);
      assert RowMoves(s.rows[id], Next(s, steps[0]).rows[id]);
      SettledCreatesNothing(Next(s, steps[0]), steps[1..], id);
    }
  }

  // ----- stored and notified rooms are the engine's answers -----

  /** Every room code stored or on its way is one the engine answered for that match id. */
  ghost predicate AnswersOk(s: State) {
    && (forall id :: id in s.rows && s.rows[id].roomCode.Some? ==> Reply(id, s.rows[id].roomCode.value) in s.engine.created)
    && (s.consumer.Received? || s.consumer.Notifying? ==> Reply(s.consumer.id, s.consumer.code) in s.engine.created)
  }

  lemma DeliveryAnswers(s: State, d: Delivery)
    requires AnswersOk(s)
    ensures AnswersOk(AfterDelivery(s, d))
  {
    hide RoomFor;
    if d.Create? {
      CreateAnswers(s, d.newCode);
    } else {
      DeliveryFrame(s, d);
    }
  }

  lemma CreateAnswers(s: State, newCode: Code)
    requires AnswersOk(s)
    ensures AnswersOk(AfterDelivery(s, Create(newCode)))
  {
    hide RoomFor;
    var t := AfterDelivery(s, Create(newCode));
    assert s.engine.created <= t.engine.created;
    assert forall r :: r in s.engine.created ==> r in t.engine.created;
  }

  lemma RetryAnswers(s: State, r: Retry)
    requires AnswersOk(s)
    ensures AnswersOk(AfterRetry(s, r))
  {
    hide Listed, Tally;
  }

  lemma StepAnswers(s: State, step: Step)
    requires AnswersOk(s)
    ensures AnswersOk(Next(s, step))
  {
    hide AfterDelivery, AfterRetry;
    match step
    case Deliver(d) => DeliveryAnswers(s, d);
    case Retried(r) => RetryAnswers(s, r);
    case _ =>
  }

  lemma {:induction false} AnswersHold(s: State, steps: seq<Step>)
    requires AnswersOk(s)
    ensures AnswersOk(Run(s, steps))
    decreases |steps|
  {
    if steps != [] {
      hide Next, AnswersOk;
      StepAnswers(s, steps[0]);
      AnswersHold(Next(s, steps[0]), steps[1..]);
    }
  }

  /**
    Over any run from the start: a room is notified only while its row says status 1 with that
    code, and every code stored or notified is one the engine answered for the match id.
    */
  lemma NotifiesAnsweredRooms(steps: seq<Step>)
    ensures var s := Run(INITIAL, steps);
      && (s.consumer.Notifying? ==>
            var id, code := s.consumer.id, s.consumer.code;
            && id in s.rows && s.rows[id].status == 1 && s.rows[id].roomCode == Some(code)
            && Reply(id, code) in s.engine.created)
      && forall id :: id in s.rows && s.rows[id].roomCode.Some? ==> Reply(id, s.rows[id].roomCode.value) in s.engine.created
  {
    assert Inv(INITIAL) && AnswersOk(INITIAL);
    InvHolds(INITIAL, steps);
    AnswersHold(INITIAL, steps);
    hide Run, RowsOk, SchedulerOk, BudgetOk;
  }

  // ----- at most one room -----

  /** Since the n-th reply, id had no reply, or every one named the one open room bound to it. */
  ghost predicate OneRoomSince(e: Engine, id: Id, n: nat) {
    || (forall k :: n <= k < |e.created| ==> e.created[k].id != id)
    || (Bound(e, id) && forall k :: n <= k < |e.created| && e.created[k].id == id ==> e.created[k].code == e.matchRooms[id])
  }

  /** Steps that answer no create leave the engine alone, but for the two that end rooms. */
  lemma EngineIdle(s: State, step: Step)
    requires !step.EngineRestart? && Next(s, step).engine.created == s.engine.created
    ensures Next(s, step).engine ==
            if step.RoomCloses? then s.engine.(rooms := s.engine.rooms - {step.code}) else s.engine
  {
    hide AfterRetry, RoomFor;
    match step
    case Deliver(d) => DeliveryFrame(s, d);
    case Retried(r) => RetryIdlesEngine(s, r);
    case _ =>
  }

  /** A bound room, if it was answered, was answered since the n-th reply. */
  lemma BoundWasAnswered(e: Engine, id: Id, n: nat, k: nat)
    requires OneRoomSince(e, id, n) && n <= k < |e.created| && e.created[k].id == id
    ensures Bound(e, id) && Reply(id, e.matchRooms[id]) in e.created[n..]
  {
    assert e.created[n..][k - n] == e.created[k] == Reply(id, e.matchRooms[id]);
  }

  lemma OneRoomStays(s: State, step: Step, id: Id, n: nat)
    requires OneRoomSince(s.engine, id, n) && id != "" && n <= |s.engine.created|
    requires !step.EngineRestart?
    requires step.RoomCloses? ==> Reply(id, step.code) !in s.engine.created[n..]
    ensures OneRoomSince(Next(s, step).engine, id, n)
  {
    hide Next, EngineCreate;
    if Next(s, step).engine.created == s.engine.created {
      EngineIdle(s, step);
      if k: nat :| n <= k < |s.engine.created| && s.engine.created[k].id == id {
        BoundWasAnswered(s.engine, id, n, k);
      }
    } else {
      AnswersOnlyCreates(s, step);
      CreateKeepsOneRoom(s.engine, s.consumer.id, step.delivery.newCode, id, n);
    }
  }

  lemma CreateKeepsOneRoom(e: Engine, asked: Id, newCode: Code, id: Id, n: nat)
    requires OneRoomSince(e, id, n) && id != "" && n <= |e.created|
    ensures OneRoomSince(EngineCreate(e, asked, newCode), id, n)
  {
    var t := EngineCreate(e, asked, newCode);
    assert forall k :: 0 <= k < |e.created| ==> t.created[k] == e.created[k];
    if k: nat :| n <= k < |e.created| && e.created[k].id == id {
      BoundWasAnswered(e, id, n, k);
    }
  }

  /** The engine process keeps running, and no room answered for id is closed. */
  ghost predicate KeepsRoom(steps: seq<Step>, answered: seq<Reply>, id: Id) {
    forall k :: 0 <= k < |steps| ==>
      !steps[k].EngineRestart? && (steps[k].RoomCloses? ==> Reply(id, steps[k].code) !in answered)
  }

  lemma {:induction false} OneRoomOverRun(s: State, steps: seq<Step>, id: Id, n: nat)
    requires n <= |s.engine.created|
    requires OneRoomSince(s.engine, id, n) && id != "" && KeepsRoom(steps, RepliesFrom(Run(s, steps), n), id)
    ensures OneRoomSince(Run(s, steps).engine, id, n)
    decreases |steps|
  {
    if steps != [] {
      var t := Next(s, steps[0]);
      RunGrows(t, steps[1..]);
      CreatedGrows(s, steps[0]);
      hide Next, OneRoomSince;
      assert steps[0].RoomCloses? ==> Reply(id, steps[0].code) !in s.engine.created[n..] by {
        PartOf(s.engine.created, Run(s, steps).engine.created, n);
      }
      OneRoomStays(s, steps[0], id, n);
      OneRoomOverRun(t, steps[1..], id, n);
    }
  }

  /** The replies since the n-th. */
  function RepliesFrom(s: State, n: nat): seq<Reply> {
    if n <= |s.engine.created| then s.engine.created[n..] else []
  }

  lemma PartOf<T>(a: seq<T>, b: seq<T>, n: nat)
    requires a <= b && n <= |a|
    ensures forall x :: x in a[n..] ==> x in b[n..]
  {
    assert a[n..] <= b[n..];
  }

  lemma {:induction false} RunGrows(s: State, steps: seq<Step>)
    ensures s.engine.created <= Run(s, steps).engine.created
    decreases |steps|
  {
    if steps != [] {
      hide Next;
      CreatedGrows(s, steps[0]);
      RunGrows(Next(s, steps[0]), steps[1..]);
    }
  }

  /**
    At most one room: from any moment on, under any interleaving of deliveries, retries,
    crashes and lost replies, all creates answered for one match id name the same room, which
    is still open, as long as the engine runs and no room answered for the id is closed.
    */
  lemma AtMostOneRoom(s: State, steps: seq<Step>, id: Id)
    requires id != "" && KeepsRoom(steps, RepliesFrom(Run(s, steps), |s.engine.created|), id)
    ensures var t := Run(s, steps).engine;
      forall j, k :: |s.engine.created| <= j < |t.created| && |s.engine.created| <= k < |t.created| ==>
        t.created[j].id == id == t.created[k].id ==>
          t.created[j].code == t.created[k].code && t.created[j].code in t.rooms
  {
    OneRoomOverRun(s, steps, id, |s.engine.created|);
  }

  // ----- at most five retry pushes -----

  /** Each retry push beyond the fifth follows a bump that was lost. */
  lemma RetryPushesBounded(steps: seq<Step>, id: Id)
    ensures var t := Run(INITIAL, steps);
      Tally(t.pushes, id) <= 5 + Tally(t.lostBumps, id)
  {
    assert Inv(INITIAL);
    InvHolds(INITIAL, steps);
    assert BudgetOk(Run(INITIAL, steps), id);
  }

  /** The scheduler never stops between a push and its bump. */
  ghost predicate BumpsFollow(s: State, steps: seq<Step>)
    decreases |steps|
  {
    steps == [] || (!(s.scheduler.Bumping? && steps[0] == Retried(Stops)) && BumpsFollow(Next(s, steps[0]), steps[1..]))
  }

  lemma BumpKept(s: State, step: Step)
    requires !(s.scheduler.Bumping? && step == Retried(Stops))
    ensures Next(s, step).lostBumps == s.lostBumps
  {
    hide AfterDelivery, Listed, Tally, Bumped;
    if step.Deliver? {
      DeliveryFrame(s, step.delivery);
    }
  }

  lemma {:induction false} NoBumpLost(s: State, steps: seq<Step>)
    requires BumpsFollow(s, steps)
    ensures Run(s, steps).lostBumps == s.lostBumps
    decreases |steps|
  {
    if steps != [] {
      BumpKept(s, steps[0]);
      hide Next;
      NoBumpLost(Next(s, steps[0]), steps[1..]);
    }
  }

  /** Unless the scheduler stops between a push and its bump, a row is pushed again at most five times. */
  lemma FiveRetryPushes(steps: seq<Step>, id: Id)
    requires BumpsFollow(INITIAL, steps)
    ensures Tally(Run(INITIAL, steps).pushes, id) <= 5
  {
    RetryPushesBounded(steps, id);
    NoBumpLost(INITIAL, steps);
  }

  // ----- a restarted engine forgets -----

  lemma RunStep(s: State, step: Step, rest: seq<Step>)
    ensures Run(s, [step] + rest) == Run(Next(s, step), rest)
  {
    hide Next;
    assert ([step] + rest)[1..] == rest;
  }

  /** The first delivery creates a room and the consumer dies before it can record it. */
  function CrashAfterCreate(code: Code): seq<Step> {
    [Enqueue("m", true, 0, true)] +
    ([Deliver(Pop)] + ([Deliver(Read)] + ([Deliver(Create(code))] + ([Deliver(Crash)] + []))))
  }

  function AfterCrash(code: Code): State {
    State(map["m" := Row(PENDING, 0, None, true, 0)], [], Idle, Resting,
      Engine(map["m" := code], {code}, [Reply("m", code)]), map[], map[])
  }

  lemma CrashAfterCreateRun(code: Code)
    ensures Run(INITIAL, CrashAfterCreate(code)) == AfterCrash(code)
  {
    var row := Row(PENDING, 0, None, true, 0);
    var s1 := State(map["m" := row], ["m"], Idle, Resting, Engine(map[], {}, []), map[], map[]);
    var s2 := s1.(list := [], consumer := Popped("m"));
    var s3 := s2.(consumer := Creating("m"));
    var s4 := AfterCrash(code).(consumer := Received("m", code));
    assert Next(INITIAL, Enqueue("m", true, 0, true)) == s1;
    assert Next(s1, Deliver(Pop)) == s2;
    assert Next(s2, Deliver(Read)) == s3;
    assert Next(s3, Deliver(Create(code))) == s4;
    assert Next(s4, Deliver(Crash)) == AfterCrash(code);
    hide Next;
    RunStep(INITIAL, Enqueue("m", true, 0, true),
            [Deliver(Pop)] + ([Deliver(Read)] + ([Deliver(Create(code))] + ([Deliver(Crash)] + []))));
    RunStep(s1, Deliver(Pop), [Deliver(Read)] + ([Deliver(Create(code))] + ([Deliver(Crash)] + [])));
    RunStep(s2, Deliver(Read), [Deliver(Create(code))] + ([Deliver(Crash)] + []));
    RunStep(s3, Deliver(Create(code)), [Deliver(Crash)] + []);
    RunStep(s4, Deliver(Crash), []);
  }

  /** The retry scheduler delivers the message again. */
  function Redelivery(code: Code): seq<Step> {
    [Retried(ListRetries(RETRY_AGE_SECONDS + 1, ["m"]))] +
    ([Retried(Push)] + ([Deliver(Pop)] + ([Deliver(Read)] + ([Deliver(Create(code))] + []))))
  }

  lemma Relisted(s: State, s1: State, s2: State)
    requires s.rows == AfterCrash("").rows && s.list == [] && s.scheduler == Resting
    requires s1 == s.(scheduler := Pushing(["m"]))
    requires s2 == s1.(list := ["m"], scheduler := Bumping("m", []), pushes := s.pushes["m" := Tally(s.pushes, "m") + 1])
    ensures Next(s, Retried(ListRetries(RETRY_AGE_SECONDS + 1, ["m"]))) == s1 && Next(s1, Retried(Push)) == s2
  {
    hide AfterDelivery;
    assert Retryable(s.rows, RETRY_AGE_SECONDS + 1, "m");
    assert Listed(s.rows, RETRY_AGE_SECONDS + 1, ["m"]);
    assert ["m"][1..] == [];
  }

  lemma Retaken(s2: State, s3: State, s4: State)
    requires s2.rows == AfterCrash("").rows && s2.list == ["m"] && s2.consumer == Idle
    requires s3 == s2.(list := [], consumer := Popped("m")) && s4 == s3.(consumer := Creating("m"))
    ensures Next(s2, Deliver(Pop)) == s3 && Next(s3, Deliver(Read)) == s4
  {
    hide RoomFor, AfterRetry;
    assert ["m"][..0] == [];
  }

  lemma CreateReplies(s: State, id: Id, code: Code)
    requires s.consumer == Creating(id) && code !in s.engine.rooms
    ensures Next(s, Deliver(Create(code))).engine.created == s.engine.created + [Reply(id, RoomFor(s.engine, id, code))]
  {
    hide RoomFor, AfterRetry;
  }

  lemma RedeliveryRun(s: State, code: Code)
    requires s.rows == AfterCrash("").rows && s.list == [] && s.consumer == Idle && s.scheduler == Resting
    requires code !in s.engine.rooms
    ensures Run(s, Redelivery(code)).engine.created == s.engine.created + [Reply("m", RoomFor(s.engine, "m", code))]
  {
    hide RoomFor;
    var s1 := s.(scheduler := Pushing(["m"]));
    var s2 := s1.(list := ["m"], scheduler := Bumping("m", []), pushes := s.pushes["m" := Tally(s.pushes, "m") + 1]);
    var s3 := s2.(list := [], consumer := Popped("m"));
    var s4 := s3.(consumer := Creating("m"));
    Relisted(s, s1, s2);
    Retaken(s2, s3, s4);
    CreateReplies(s4, "m", code);
    hide Next;
    RunStep(s, Retried(ListRetries(RETRY_AGE_SECONDS + 1, ["m"])),
            [Retried(Push)] + ([Deliver(Pop)] + ([Deliver(Read)] + ([Deliver(Create(code))] + []))));
    RunStep(s1, Retried(Push), [Deliver(Pop)] + ([Deliver(Read)] + ([Deliver(Create(code))] + [])));
    RunStep(s2, Deliver(Pop), [Deliver(Read)] + ([Deliver(Create(code))] + []));
    RunStep(s3, Deliver(Read), [Deliver(Create(code))] + []);
    RunStep(s4, Deliver(Create(code)), []);
  }

  /**
    Why the engine has to keep running: the map from match ids to rooms lives in its memory,
    so after a restart the redelivered message is answered with a second room, even if the
    first one was restored and is still open.
    */
  lemma RestartMakesSecondRoom()
    ensures var s := Run(INITIAL, CrashAfterCreate("A"));
      var restarted := Run(Next(s, EngineRestart({"A"})), Redelivery("B"));
      && "A" in Next(s, EngineRestart({"A"})).engine.rooms
      && restarted.engine.created == [Reply("m", "A"), Reply("m", "B")]
    ensures var s := Run(INITIAL, CrashAfterCreate("A"));
      Run(s, Redelivery("B")).engine.created == [Reply("m", "A"), Reply("m", "A")]
  {
    CrashAfterCreateRun("A");
    hide Run, CrashAfterCreate, Redelivery, AfterDelivery, AfterRetry;
    RedeliveryRun(AfterCrash("A"), "B");
    RedeliveryRun(Next(AfterCrash("A"), EngineRestart({"A"})), "B");
  }
}
