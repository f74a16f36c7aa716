/**
  The match_message table (MatchMessageDao.java): one row per match, in insertion order,
  with the guards of its statements.
  */
module MatchMessages {
  import opened Common

  type Id = string
  type Code = string

  const PENDING := 0
  const OK := 1
  const FAILED := 2
  const MAX_RETRIES := 5
  const RETRY_AGE_SECONDS := 120

  datatype Row = Row(status: int, retries: nat, roomCode: Option<Code>, hasPlayers: bool, createdAt: int)

  type Rows = map<Id, Row>

  /** UPDATE ... SET status=?, room_code=COALESCE(?, room_code) WHERE match_id=?. */
  function Updated(rows: Rows, id: Id, status: int, code: Option<Code>): Rows {
    if id !in rows then rows
    else rows[id := rows[id].(status := status, roomCode := if code.Some? then code else rows[id].roomCode)]
  }

  /** UPDATE ... SET retry_count=retry_count+1 WHERE match_id=? AND status=0. */
  function Bumped(rows: Rows, id: Id): Rows {
    if id !in rows || rows[id].status != PENDING then rows
    else rows[id := rows[id].(retries := rows[id].retries + 1)]
  }

  /** The WHERE clause of the retry query. */
  predicate Retryable(rows: Rows, now: int, id: Id) {
    && id in rows && rows[id].status == PENDING && rows[id].retries < MAX_RETRIES
    && now - rows[id].createdAt > RETRY_AGE_SECONDS
  }

  predicate Different(ids: seq<Id>) {
    forall j, k | 0 <= j < k < |ids| :: ids[j] != ids[k]
  }

  /** What the retry query may return: retryable rows, each once. */
  predicate Listed(rows: Rows, now: int, ids: seq<Id>) {
    Different(ids) && forall k | 0 <= k < |ids| :: Retryable(rows, now, ids[k])
  }

  /** The retryable ids among the first n inserted, in insertion order. */
  function RetryableBelow(rows: Rows, order: seq<Id>, now: int, n: nat): seq<Id>
    requires n <= |order|
  {
    if n == 0 then []
    else RetryableBelow(rows, order, now, n - 1) + if Retryable(rows, now, order[n - 1]) then [order[n - 1]] else []
  }

  class Table {
    var rows: map<Id, Row>
    var order: seq<Id>

    /** match_id is UNIQUE; every row has its place in insertion order. */
    ghost predicate Valid()
      reads this
    {
      && (forall i :: i in order <==> i in rows)
      && forall j, k :: 0 <= j < k < |order| ==> order[j] != order[k]
    }

    constructor ()
      ensures Valid() && rows == map[] && order == []
    {
      rows, order := map[], [];
    }

    /** insertPending: false when the UNIQUE key is violated. */
    method InsertPending(id: Id, hasPlayers: bool, now: int) returns (ok: bool)
      requires Valid()
      modifies this
      ensures Valid() && ok == (id !in old(rows))
      ensures ok ==> rows == old(rows)[id := Row(PENDING, 0, None, hasPlayers, now)] && order == old(order) + [id]
      ensures !ok ==> rows == old(rows) && order == old(order)
    {
      if id in rows {
        return false;
      }
      rows := rows[id := Row(PENDING, 0, None, hasPlayers, now)];
      order := order + [id];
      ok := true;
    }

    method UpdateStatus(id: Id, status: int, code: Option<Code>)
      requires Valid()
      modifies this
      ensures Valid() && rows == Updated(old(rows), id, status, code) && order == old(order)
    {
      if id in rows {
        rows := rows[id := rows[id].(status := status, roomCode := if code.Some? then code else rows[id].roomCode)];
      }
    }

    method BumpRetryByMatchId(id: Id)
      requires Valid()
      modifies this
      ensures Valid() && rows == Bumped(old(rows), id) && order == old(order)
    {
      if id in rows && rows[id].status == PENDING {
        rows := rows[id := rows[id].(retries := rows[id].retries + 1)];
      }
    }

    /** listPendingForRetry: the first maxRows retryable ids. */
    method ListPendingForRetry(now: int, maxRows: nat) returns (out: seq<Id>)
      requires Valid()
      ensures Listed(rows, now, out) && |out| <= maxRows
      ensures out <= RetryableBelow(rows, order, now, |order|)
      ensures |out| < maxRows ==> out == RetryableBelow(rows, order, now, |order|)
    {
      out := [];
      var n := 0;
      while n < |order| && |out| < maxRows
        invariant n <= |order| && |out| <= maxRows
        invariant out == RetryableBelow(rows, order, now, n)
        invariant forall k :: 0 <= k < |out| ==> Retryable(rows, now, out[k]) && out[k] in order[..n]
        invariant forall j, k :: 0 <= j < k < |out| ==> out[j] != out[k]
      {
        assert order[n] !in order[..n];
        assert order[..n + 1] == order[..n] + [order[n]];
        if Retryable(rows, now, order[n]) {
          out := out + [order[n]];
        }
        n := n + 1;
      }
      PrefixGrows(rows, order, now, n, |order|);
    }
  }

  lemma {:induction false} PrefixGrows(rows: Rows, order: seq<Id>, now: int, m: nat, n: nat)
    requires m <= n <= |order|
    ensures RetryableBelow(rows, order, now, m) <= RetryableBelow(rows, order, now, n)
    decreases n - m
  {
    if m < n {
      PrefixGrows(rows, order, now, m, n - 1);
    }
  }

  /** The full list holds exactly the rows of status 0 older than 120 seconds with fewer than five retries. */
  lemma {:induction false} AllRetryableListed(rows: Rows, order: seq<Id>, now: int, n: nat, id: Id)
    requires n <= |order|
    ensures id in RetryableBelow(rows, order, now, n) <==>
      && id in order[..n] && id in rows
      && rows[id].status == 0 && rows[id].retries < 5 && now - rows[id].createdAt > 120
  {
    if n > 0 {
      AllRetryableListed(rows, order, now, n - 1, id);
      assert order[..n] == order[..n - 1] + [order[n - 1]];
    }
  }
}
