/**
 `OfflineMessage::insert`: a retry loop around a flush of the failure queue and the insert of
 the current message. The database decides, trip by trip, whether a connection is to be had
 and at which statement it throws.
 */
module OfflineStore {

  import opened ChatTypes

  datatype Row = Row(user: UserId, text: string)

  /** What the database does on one trip round the retry loop. */
  datatype Outcome =
    | NoConnection
    /** The first `after` statements of the trip succeed, the next one throws. */
    | Throws(after: nat)
    | AllOk

  const MAX_RETRIES := 3

  /** Trip `i` of the call; a database that has thrown its last exception behaves from then on. */
  function OutcomeAt(env: seq<Outcome>, i: nat): Outcome {
    if i < |env| then env[i] else AllOk
  }

  function Nulls(env: seq<Outcome>, trips: nat): nat {
    if trips == 0 then 0
    else Nulls(env, trips - 1) + if OutcomeAt(env, trips - 1).NoConnection? then 1 else 0
  }

  function Exceptions(env: seq<Outcome>, trips: nat): nat {
    if trips == 0 then 0
    else Exceptions(env, trips - 1) + if OutcomeAt(env, trips - 1).Throws? then 1 else 0
  }

  /** No statement of the first `trips` trips goes through. */
  predicate Blocked(env: seq<Outcome>, trips: nat) {
    forall i :: 0 <= i < trips ==> OutcomeAt(env, i) in {NoConnection, Throws(0)}
  }

  lemma {:induction false} NullsMonotone(env: seq<Outcome>, a: nat, b: nat)
    requires a <= b
    ensures Nulls(env, a) <= Nulls(env, b)
    decreases b
  {
    if a == b {
    } else {
      NullsMonotone(env, a, b - 1);
    }
  }

  class OfflineMessage {
    var failedQueue: seq<Row>
    /** The rows of the OfflineMessage table, oldest first. */
    var table: seq<Row>

    constructor ()
      ensures failedQueue == [] && table == []
    {
      failedQueue, table := [], [];
    }

    /** One trip with a connection: flush the queue, then insert `row`, until a statement throws. */
    method TryStore(row: Row, outcome: Outcome) returns (success: bool)
      requires !outcome.NoConnection?
      modifies this
      ensures success ==> table == old(table + failedQueue) + [row] && failedQueue == []
      ensures !success ==> table + failedQueue == old(table + failedQueue) && old(table) <= table
      ensures !success ==> outcome.Throws? && |table| - |old(table)| == outcome.after
      ensures success <==> outcome.AllOk? || outcome.after > |old(failedQueue)|
    {
      var budget := if outcome.Throws? then outcome.after else |failedQueue| + 1;
      while failedQueue != []
        invariant table + failedQueue == old(table + failedQueue)
        invariant old(table) <= table
        invariant |table| - |old(table)| + budget ==
          if outcome.Throws? then outcome.after else |old(failedQueue)| + 1
        invariant budget >= 0
        decreases |failedQueue|
      {
        if budget == 0 { return false; }
        table := table + [failedQueue[0]];
        failedQueue := failedQueue[1..];
        budget := budget - 1;
      }
      assert table == table + failedQueue;
      if budget == 0 { return false; }
      table := table + [row];
      return true;
    }

    /**
     The whole call. However connections fail and statements throw, the rows followed by the
     queue gain exactly the new message, at the end; the call gives up exactly when three
     requests for a connection came back null; every trip is one of those, one that threw, or the
     last and successful one, so exceptions cost no retry.
     */
    method Insert(row: Row, env: seq<Outcome>) returns (success: bool, trips: nat)
      modifies this
      ensures table + failedQueue == old(table + failedQueue) + [row]
      ensures old(table) <= table
      ensures success <==> failedQueue == []
      ensures success <==> Nulls(env, trips) < 3
      ensures !success ==> Nulls(env, trips) == 3
      ensures trips >= One(success)
      ensures trips == Nulls(env, trips) + Exceptions(env, trips - One(success)) + One(success)
      ensures forall n: nat :: Blocked(env, n) && Nulls(env, n) < 3 ==> trips > n
    {
      var retryCount := 0;
      success, trips := false, 0;
      while retryCount < MAX_RETRIES && !success
        invariant retryCount == Nulls(env, trips) <= MAX_RETRIES
        invariant !success ==> table + failedQueue == old(table + failedQueue)
        invariant success ==> table + failedQueue == old(table + failedQueue) + [row] && failedQueue == []
        invariant success ==> retryCount < MAX_RETRIES
        invariant old(table) <= table
        invariant trips >= One(success)
        invariant trips == retryCount + Exceptions(env, trips - One(success)) + One(success)
        invariant success ==> OutcomeAt(env, trips - 1) !in {NoConnection, Throws(0)}
        decreases !success, |env| - trips
      {
        var outcome := OutcomeAt(env, trips);
        trips := trips + 1;
        if outcome.NoConnection? {
          retryCount := retryCount + 1;
          continue;
        }
        success := TryStore(row, outcome);
      }
      if !success {
        failedQueue := failedQueue + [row];
      }
      forall n: nat | Blocked(env, n) && Nulls(env, n) < MAX_RETRIES ensures trips > n {
        if trips <= n {
          NullsMonotone(env, trips, n);
        }
      }
    }

    /** Serial calls keep every message, in the order given. */
    method InsertAll(rows: seq<Row>, envs: seq<seq<Outcome>>)
      requires |envs| == |rows|
      modifies this
      ensures table + failedQueue == old(table + failedQueue) + rows
    {
      for i := 0 to |rows|
        invariant table + failedQueue == old(table + failedQueue) + rows[..i]
      {
        var _, _ := Insert(rows[i], envs[i]);
        assert rows[..i + 1] == rows[..i] + [rows[i]];
      }
      assert rows[..|rows|] == rows;
    }
  }
}
