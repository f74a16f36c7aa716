/**
  The two bodies of MatchWorker: processOne, run by the consumer, and compensate, run by the
  scheduler.  Each is proved against a function on the rows, and each such function is a run
  of the protocol of module Outbox.
  */
module MatchWorker {
  import opened Common
  import opened MatchMessages
  import opened Outbox

  const BATCH := 40

  /**
    What the rooms/create call came back with.  NoAnswer is an exception, `reached` telling
    whether the engine served the call all the same; Created("") is a reply without a room code.
    */
  datatype Answer = NoAnswer(reached: bool) | NotOk | Created(code: Code)

  /**
    One delivery's dealings with the outside: whether the row lookup, the one status update on
    the way, the notification, and the status update of the catch block go through.  An update
    that throws after it took effect counts as one that went through.
    */
  datatype Env = Env(found: bool, answer: Answer, written: bool, notified: bool, caught: bool)

  /** The rows after the body of the try block, and whether it threw. */
  function Attempted(rows: Rows, id: Id, env: Env): (Rows, bool) {
    if !env.found then (rows, true)
    else if id !in rows || rows[id].status != PENDING then (rows, false)
    else if !rows[id].hasPlayers then Written(rows, id, FAILED, None, env.written)
    else
      match env.answer
      case NoAnswer(_) => (rows, true)
      case NotOk => Written(rows, id, FAILED, None, env.written)
      case Created(code) =>
        if code == "" then Written(rows, id, FAILED, None, env.written)
        else if env.written then (Updated(rows, id, OK, Some(code)), !env.notified)
        else (rows, true)
  }

  /** An update, or the exception it throws. */
  function Written(rows: Rows, id: Id, status: int, code: Option<Code>, written: bool): (Rows, bool) {
    if written then (Updated(rows, id, status, code), false) else (rows, true)
  }

  /** The rows after processOne. */
  function Processed(rows: Rows, id: Id, env: Env): Rows {
    var (after, threw) := Attempted(rows, id, env);
    if threw && env.caught then Updated(after, id, FAILED, None) else after
  }

  /** The engine answered a create for a group with players, and the answer names a room. */
  ghost predicate Answered(row: Row, env: Env) {
    env.found && row.hasPlayers && env.answer.Created? && env.answer.code != ""
  }

  /**
    What a delivery makes of its row.  A pending one ends with status 1 exactly when the room was
    answered and stored, and the notification did not fail with its status written after it;
    it stays pending exactly when nothing could be written.  A settled row changes only by a
    failed lookup.
    */
  lemma DeliveryOutcome(rows: Rows, id: Id, env: Env)
    requires id in rows
    ensures var row, after := rows[id], Processed(rows, id, env);
      && after.Keys == rows.Keys && (forall other :: other in rows && other != id ==> after[other] == rows[other])
      && after[id] == row.(status := after[id].status, roomCode := after[id].roomCode)
      && (row.status == 0 ==>
            && (after[id].status == 1 <==> Answered(row, env) && env.written && (env.notified || !env.caught))
            && (after[id].status == 0 <==>
                  !env.caught && (!env.found || !env.written || (row.hasPlayers && env.answer.NoAnswer?)))
            && after[id].status in {0, 1, 2}
            && after[id].roomCode == if Answered(row, env) && env.written then Some(env.answer.code) else row.roomCode)
      && (row.status != 0 ==> after[id] == if env.found || !env.caught then row else row.(status := 2))
  {}

  /** Where compensate's loop is cut short by an exception, if anywhere. */
  datatype Cut = Never | AtPush(k: nat) | AtBump(k: nat)

  /** How many of n ids are pushed. */
  function PushesOf(cut: Cut, n: nat): (m: nat)
    ensures m <= n
  {
    if cut == Never || cut.k >= n then n else if cut.AtPush? then cut.k else cut.k + 1
  }

  /** How many of n ids are bumped. */
  function BumpsOf(cut: Cut, n: nat): (m: nat)
    ensures m <= n
  {
    if cut == Never || cut.k >= n then n else cut.k
  }

  /** The rows after compensate has bumped the first n ids. */
  function BumpedAll(rows: Rows, ids: seq<Id>, n: nat): Rows
    requires n <= |ids|
  {
    if n == 0 then rows else Bumped(BumpedAll(rows, ids, n - 1), ids[n - 1])
  }

  /** The list after compensate has pushed the first n ids. */
  function PushedAll(list: seq<Id>, ids: seq<Id>, n: nat): seq<Id>
    requires n <= |ids|
  {
    if n == 0 then list else [ids[n - 1]] + PushedAll(list, ids, n - 1)
  }

  class Worker {
    const table: Table
    var list: seq<Id>

    constructor (table: Table)
      ensures this.table == table && list == []
    {
      this.table, list := table, [];
    }

    /** BRPOP takes from the tail of the list. */
    method Take() returns (id: Option<Id>)
      modifies this
      ensures id == None <==> old(list) == []
      ensures id.Some? ==> old(list) == list + [id.value]
      ensures id == None ==> list == []
    {
      if list == [] {
        return None;
      }
      id := Some(list[|list| - 1]);
      list := list[..|list| - 1];
    }

    /** processOne: the try block, and the catch block that writes status 2. */
    method ProcessOne(id: Id, env: Env)
      requires table.Valid()
      modifies table
      ensures table.Valid() && table.order == old(table.order)
      ensures table.rows == Processed(old(table.rows), id, env)
    {
      var threw := Attempt(id, env);
      if threw && env.caught {
        table.UpdateStatus(id, FAILED, None);
      }
    }

    method Attempt(id: Id, env: Env) returns (threw: bool)
      requires table.Valid()
      modifies table
      ensures table.Valid() && table.order == old(table.order)
      ensures (table.rows, threw) == Attempted(old(table.rows), id, env)
    {
      if !env.found {
        return true;
      }
      if id !in table.rows || table.rows[id].status != PENDING {
        return false;
      }
      if !table.rows[id].hasPlayers {
        threw := Write(id, FAILED, None, env.written);
        return;
      }
      match env.answer
      case NoAnswer(_) =>
        return true;
      case NotOk =>
        threw := Write(id, FAILED, None, env.written);
      case Created(code) =>
        if code == "" {
          threw := Write(id, FAILED, None, env.written);
          return;
        }
        threw := Write(id, OK, Some(code), env.written);
        threw := threw || !env.notified;
    }

    /** A status update that may throw instead. */
    method Write(id: Id, status: int, code: Option<Code>, written: bool) returns (threw: bool)
      requires table.Valid()
      modifies table
      ensures table.Valid() && table.order == old(table.order)
      ensures (table.rows, threw) == Written(old(table.rows), id, status, code, written)
    {
      if !written {
        return true;
      }
      table.UpdateStatus(id, status, code);
      threw := false;
    }

    /** compensate: pushes and bumps the listed ids one by one, up to the first exception. */
    method Compensate(now: int, cut: Cut) returns (ids: seq<Id>)
      requires table.Valid()
      modifies this, table
      ensures table.Valid() && table.order == old(table.order)
      ensures |ids| <= BATCH && ids <= RetryableBelow(old(table.rows), table.order, now, |table.order|)
      ensures |ids| < BATCH ==> ids == RetryableBelow(old(table.rows), table.order, now, |table.order|)
      ensures Listed(old(table.rows), now, ids)
      ensures list == PushedAll(old(list), ids, PushesOf(cut, |ids|))
      ensures table.rows == BumpedAll(old(table.rows), ids, BumpsOf(cut, |ids|))
    {
      hide Listed, RetryableBelow, Bumped;
      ids := table.ListPendingForRetry(now, BATCH);
      for k := 0 to |ids|
        invariant cut != Never && cut.k < |ids| ==> k <= cut.k
        invariant table.Valid() && table.order == old(table.order)
        invariant list == PushedAll(old(list), ids, k)
        invariant table.rows == BumpedAll(old(table.rows), ids, k)
      {
        if cut == AtPush(k) {
          return;
        }
        list := [ids[k]] + list;
        if cut == AtBump(k) {
          return;
        }
        table.BumpRetryByMatchId(ids[k]);
      }
    }
  }

  // ----- the same as runs of the protocol -----

  /** The catch block, or the end of the delivery without it. */
  function Catch(caught: bool): Step {
    Deliver(if caught then Fails else Crash)
  }

  /** The steps of one delivery that has just been taken from the list. */
  function ConsumerSteps(rows: Rows, id: Id, env: Env, newCode: Code): seq<Step> {
    if !env.found then [Catch(env.caught)]
    else if id !in rows || rows[id].status != PENDING then [Deliver(Read)]
    else if !rows[id].hasPlayers then [if env.written || env.caught then Deliver(Read) else Deliver(Crash)]
    else
      match env.answer
      case NoAnswer(reached) =>
        if reached then [Deliver(Read)] + ([Deliver(Create(newCode))] + [Catch(env.caught)])
        else [Deliver(Read)] + [Catch(env.caught)]
      case NotOk => [Deliver(Read)] + [Catch(env.written || env.caught)]
      case Created(code) => [Deliver(Read)] + ([Deliver(Create(newCode))] + AnsweredSteps(code, env))
  }

  function AnsweredSteps(code: Code, env: Env): seq<Step> {
    if code == "" then [Catch(env.written || env.caught)]
    else if !env.written then [Catch(env.caught)]
    else [Deliver(Record)] + [if env.notified then Deliver(Notify) else Catch(env.caught)]
  }

  /** What a finished delivery leaves behind, seen from the state s it started in. */
  ghost predicate Delivered(s: State, t: State, env: Env)
    requires s.consumer != Idle
  {
    t.rows == Processed(s.rows, s.consumer.id, env) && t.consumer == Idle && t.list == s.list
  }

  lemma RunOne(s: State, step: Step)
    ensures Run(s, [step]) == Next(s, step)
  {
    assert [step] == [step] + [];
    RunStep(s, step, []);
  }

  lemma CatchIs(s: State, caught: bool)
    requires s.consumer != Idle
    ensures Next(s, Catch(caught)) == if caught then Fail(s, s.consumer.id) else s.(consumer := Idle)
  {
    hide AfterRetry, RoomFor, EngineCreate, Updated;
  }

  lemma ReadStarts(s: State)
    requires s.consumer.Popped? && s.consumer.id in s.rows
    requires s.rows[s.consumer.id].status == PENDING && s.rows[s.consumer.id].hasPlayers
    ensures Next(s, Deliver(Read)) == s.(consumer := Creating(s.consumer.id))
  {
    hide AfterRetry, RoomFor, EngineCreate, Updated;
  }

  lemma ReadEnds(s: State)
    requires s.consumer.Popped?
    requires s.consumer.id in s.rows && s.rows[s.consumer.id].status == PENDING ==> !s.rows[s.consumer.id].hasPlayers
    ensures Next(s, Deliver(Read)) ==
      if s.consumer.id in s.rows && s.rows[s.consumer.id].status == PENDING
      then Fail(s, s.consumer.id) else s.(consumer := Idle)
  {
    hide AfterRetry, RoomFor, EngineCreate, Updated;
  }

  lemma CreateReceives(s: State, newCode: Code)
    requires s.consumer.Creating? && newCode !in s.engine.rooms
    ensures var t := Next(s, Deliver(Create(newCode)));
      && t.consumer == Received(s.consumer.id, RoomFor(s.engine, s.consumer.id, newCode))
      && t.rows == s.rows && t.list == s.list
  {
    hide AfterRetry, RoomFor, EngineCreate, Updated;
  }

  lemma RecordStores(s: State)
    requires s.consumer.Received? && s.consumer.code != ""
    ensures Next(s, Deliver(Record)) ==
      s.(rows := Updated(s.rows, s.consumer.id, OK, Some(s.consumer.code)), consumer := Notifying(s.consumer.id, s.consumer.code))
  {
    hide AfterRetry, RoomFor, EngineCreate, Updated;
  }

  lemma NotifyEnds(s: State)
    requires s.consumer.Notifying?
    ensures Next(s, Deliver(Notify)) == s.(consumer := Idle)
  {
    hide AfterRetry, RoomFor, EngineCreate, Updated;
  }

  /** From a received room code to the end. */
  lemma AnsweredRun(s: State, env: Env)
    requires s.consumer.Received? && s.consumer.id in s.rows && s.rows[s.consumer.id].status == PENDING
    requires s.rows[s.consumer.id].hasPlayers && env.found && env.answer == Created(s.consumer.code)
    ensures Delivered(s, Run(s, AnsweredSteps(s.consumer.code, env)), env)
  {
    hide Next, Run;
    if s.consumer.code == "" {
      CatchIs(s, env.written || env.caught);
      RunOne(s, Catch(env.written || env.caught));
    } else if !env.written {
      CatchIs(s, env.caught);
      RunOne(s, Catch(env.caught));
    } else {
      RecordStores(s);
      var t := Next(s, Deliver(Record));
      CatchIs(t, env.caught);
      NotifyEnds(t);
      var last := if env.notified then Deliver(Notify) else Catch(env.caught);
      RunStep(s, Deliver(Record), [last]);
      RunOne(t, last);
    }
  }

  /** From the start of the call to the end. */
  lemma CallRun(s: State, env: Env, newCode: Code)
    requires s.consumer.Creating? && s.consumer.id in s.rows && s.rows[s.consumer.id].status == PENDING
    requires s.rows[s.consumer.id].hasPlayers && env.found && newCode !in s.engine.rooms
    requires env.answer.Created? ==> env.answer.code == RoomFor(s.engine, s.consumer.id, newCode)
    ensures Delivered(s, Run(s, ConsumerSteps(s.rows, s.consumer.id, env, newCode)[1..]), env)
  {
    hide Next, Run, AnsweredSteps;
    CreateReceives(s, newCode);
    var t := Next(s, Deliver(Create(newCode)));
    match env.answer
    case NoAnswer(reached) =>
      assert ConsumerSteps(s.rows, s.consumer.id, env, newCode)[1..] ==
        if reached then [Deliver(Create(newCode))] + [Catch(env.caught)] else [Catch(env.caught)];
      RunStep(s, Deliver(Create(newCode)), [Catch(env.caught)]);
      RunOne(s, Catch(env.caught));
      RunOne(t, Catch(env.caught));
      CatchIs(s, env.caught);
      CatchIs(t, env.caught);
    case NotOk =>
      assert ConsumerSteps(s.rows, s.consumer.id, env, newCode)[1..] == [Catch(env.written || env.caught)];
      RunOne(s, Catch(env.written || env.caught));
      CatchIs(s, env.written || env.caught);
    case Created(code) =>
      assert ConsumerSteps(s.rows, s.consumer.id, env, newCode)[1..] == [Deliver(Create(newCode))] + AnsweredSteps(code, env);
      RunStep(s, Deliver(Create(newCode)), AnsweredSteps(code, env));
      AnsweredRun(t, env);
  }

  /** processOne is a run of consumer steps, whatever fails on the way. */
  lemma ProcessOneIsRun(s: State, env: Env, newCode: Code)
    requires s.consumer.Popped? && newCode !in s.engine.rooms
    requires env.answer.Created? ==> env.answer.code == RoomFor(s.engine, s.consumer.id, newCode)
    ensures Delivered(s, Run(s, ConsumerSteps(s.rows, s.consumer.id, env, newCode)), env)
  {
    var id := s.consumer.id;
    var steps := ConsumerSteps(s.rows, id, env, newCode);
    if env.found && id in s.rows && s.rows[id].status == PENDING && s.rows[id].hasPlayers {
      hide Next, Processed, RoomFor;
      ReadStarts(s);
      CallRun(s.(consumer := Creating(id)), env, newCode);
      assert steps == [Deliver(Read)] + steps[1..];
      RunStep(s, Deliver(Read), steps[1..]);
    } else {
      hide Next, Run, RoomFor;
      CatchIs(s, env.caught);
      CatchIs(s, false);
      if env.found {
        ReadEnds(s);
      }
      RunOne(s, steps[0]);
    }
  }

  function RetrySteps(n: nat): seq<Step> {
    if n == 0 then [] else [Retried(Push)] + ([Retried(Bump)] + RetrySteps(n - 1))
  }

  /** The last steps: the end of the list, or the exception that cut the loop short. */
  function LastSteps(cut: Cut, n: nat): seq<Step> {
    if cut == Never || cut.k >= n then [Retried(Push)]
    else if cut.AtPush? then [Retried(Stops)]
    else [Retried(Push)] + [Retried(Stops)]
  }

  lemma PushThenBump(s: State, ids: seq<Id>, n: nat)
    requires n < |ids| && s.scheduler == Pushing(ids[n..])
    ensures var s1 := Next(s, Retried(Push));
      && s1.scheduler == Bumping(ids[n], ids[n + 1..]) && s1.list == [ids[n]] + s.list && s1.rows == s.rows
      && var s2 := Next(s1, Retried(Bump));
      s2.scheduler == Pushing(ids[n + 1..]) && s2.list == s1.list && s2.rows == Bumped(s.rows, ids[n])
  {
    hide AfterDelivery, Listed, Tally, Bumped;
    assert ids[n..][1..] == ids[n + 1..];
  }

  /** n pushes with their bumps are done; the run goes on to m. */
  lemma {:induction false} RetryRun(s: State, ids: seq<Id>, n: nat, m: nat, list: seq<Id>, rows: Rows, rest: seq<Step>)
    returns (t: State)
    requires n <= m <= |ids| && s.scheduler == Pushing(ids[n..])
    requires s.rows == BumpedAll(rows, ids, n) && s.list == PushedAll(list, ids, n)
    ensures Run(s, RetrySteps(m - n) + rest) == Run(t, rest) && t.scheduler == Pushing(ids[m..])
    ensures t.rows == BumpedAll(rows, ids, m) && t.list == PushedAll(list, ids, m)
    decreases m - n
  {
    hide Next, Run, Bumped;
    if n < m {
      var s1 := Next(s, Retried(Push));
      var s2 := Next(s1, Retried(Bump));
      PushThenBump(s, ids, n);
      t := RetryRun(s2, ids, n + 1, m, list, rows, rest);
      var more := RetrySteps(m - n - 1) + rest;
      assert RetrySteps(m - n) + rest == [Retried(Push)] + ([Retried(Bump)] + more);
      RunStep(s, Retried(Push), [Retried(Bump)] + more);
      RunStep(s1, Retried(Bump), more);
    } else {
      assert RetrySteps(0) + rest == rest;
      t := s;
    }
  }

  /** The end of the loop, m ids having been pushed and bumped. */
  lemma LastRun(s: State, ids: seq<Id>, m: nat, cut: Cut)
    requires m == BumpsOf(cut, |ids|) && s.scheduler == Pushing(ids[m..])
    ensures var t := Run(s, LastSteps(cut, |ids|));
      && t.rows == s.rows && t.scheduler == Resting
      && t.list == if m < PushesOf(cut, |ids|) then [ids[m]] + s.list else s.list
  {
    hide AfterDelivery, Listed, Tally, Bumped, Run;
    RunOne(s, Retried(Push));
    RunOne(s, Retried(Stops));
    RunStep(s, Retried(Push), [Retried(Stops)]);
    RunOne(Next(s, Retried(Push)), Retried(Stops));
  }

  lemma ListingStarts(s: State, now: int, ids: seq<Id>)
    requires s.scheduler == Resting && Listed(s.rows, now, ids)
    ensures Next(s, Retried(ListRetries(now, ids))) == s.(scheduler := Pushing(ids))
  {
    hide AfterDelivery, Listed;
  }

  /** compensate is a run of scheduler steps, wherever an exception cuts it short. */
  lemma CompensateIsRun(s: State, now: int, ids: seq<Id>, cut: Cut)
    requires s.scheduler == Resting && Listed(s.rows, now, ids)
    ensures var t := Run(s, [Retried(ListRetries(now, ids))] + (RetrySteps(BumpsOf(cut, |ids|)) + LastSteps(cut, |ids|)));
      && t.rows == BumpedAll(s.rows, ids, BumpsOf(cut, |ids|)) && t.list == PushedAll(s.list, ids, PushesOf(cut, |ids|))
      && t.scheduler == Resting
  {
    var m := BumpsOf(cut, |ids|);
    var s1 := s.(scheduler := Pushing(ids));
    ListingStarts(s, now, ids);
    hide Next, Run, Listed, Bumped;
    RunStep(s, Retried(ListRetries(now, ids)), RetrySteps(m) + LastSteps(cut, |ids|));
    assert ids[0..] == ids;
    var t := RetryRun(s1, ids, 0, m, s.list, s.rows, LastSteps(cut, |ids|));
    LastRun(t, ids, m, cut);
  }
}
