/**
 The MySQL connection ledger. `getConnection` is taken as one atomic step; every model method
 borrows once and runs one of three scripts, and what is not given back is gone for good.
 */
module MySqlPool {

  import opened ChatTypes
  import opened Scripts

  type Conn = nat

  /** How a borrower treats its connection. */
  datatype Kind =
    /** `FriendModel::query`: never gives it back. */
    | FriendQuery
    /** The other model methods: give it back at the end of the `try`. */
    | KeepsOnThrow
    /** One trip of `OfflineMessage::insert`: gives it back after the `try`. */
    | StoreTrip

  function Code(kind: Kind, k: nat): Op {
    match kind
    case FriendQuery => NoReturn(k)
    case KeepsOnThrow => ReturnInTry(k)
    case StoreTrip => ReturnAfter(k)
  }

  datatype Borrow = Borrow(kind: Kind, conn: Conn, held: bool, thrown: bool, code: Op)

  datatype State = State(
    idle: seq<Conn>,
    borrows: map<ThreadId, Borrow>,
    /** The connections whose borrowers ended without giving them back. */
    leaked: seq<Conn>,
    /** History: friend queries that obtained a connection, those that ended, and throwing ends. */
    queriesServed: nat,
    queriesEnded: nat,
    throwsEnded: nat
  )

  datatype Action =
    | Get(t: ThreadId, kind: Kind, k: nat)
    | DoCall(t: ThreadId)
    | CallThrows(t: ThreadId)
    | DoRelease(t: ThreadId)
    | End(t: ThreadId)

  predicate Enabled(s: State, a: Action) {
    match a
    case Get(t, kind, k) => t !in s.borrows
    case DoCall(t) => t in s.borrows && !Finished(s.borrows[t].code) && Head(s.borrows[t].code).Call?
    case CallThrows(t) => t in s.borrows && CanThrow(s.borrows[t].code)
    case DoRelease(t) => t in s.borrows && !Finished(s.borrows[t].code) && Head(s.borrows[t].code).GiveBack?
    case End(t) => t in s.borrows && Finished(s.borrows[t].code)
  }

  function Next(s: State, a: Action): State
    requires Enabled(s, a)
  {
    match a
    case Get(t, kind, k) =>
      if s.idle == [] then s
      else s.(idle := s.idle[1..],
              borrows := s.borrows[t := Borrow(kind, s.idle[0], true, false, Code(kind, k))],
              queriesServed := s.queriesServed + One(kind.FriendQuery?))
    case DoCall(t) => s.(borrows := s.borrows[t := s.borrows[t].(code := Rest(s.borrows[t].code))])
    case CallThrows(t) =>
      s.(borrows := s.borrows[t := s.borrows[t].(thrown := true, code := Thrown(s.borrows[t].code))])
    case DoRelease(t) =>
      var b := s.borrows[t];
      s.(idle := s.idle + [b.conn], borrows := s.borrows[t := b.(held := false, code := Rest(b.code))])
    case End(t) =>
      var b := s.borrows[t];
      s.(borrows := s.borrows - {t},
         leaked := if b.held then s.leaked + [b.conn] else s.leaked,
         queriesEnded := s.queriesEnded + One(b.kind.FriendQuery?),
         throwsEnded := s.throwsEnded + One(b.kind.KeepsOnThrow? && b.thrown))
  }

  predicate Valid(s: State, run: seq<Action>)
    decreases |run|
  {
    run == [] || (Enabled(s, run[0]) && Valid(Next(s, run[0]), run[1..]))
  }

  function Exec(s: State, run: seq<Action>): State
    requires Valid(s, run)
    decreases |run|
  {
    if run == [] then s else Exec(Next(s, run[0]), run[1..])
  }

  function Start(conns: seq<Conn>): State {
    State(conns, map[], [], 0, 0, 0)
  }

  function Holders(s: State): set<ThreadId> {
    set t | t in s.borrows && s.borrows[t].held
  }

  function Queries(s: State): set<ThreadId> {
    set t | t in s.borrows && s.borrows[t].kind.FriendQuery?
  }

  /** The code left to a borrower matches what it still holds. */
  ghost predicate OnTrack(b: Borrow) {
    match b.kind
    case FriendQuery => b.held && GivesBack(b.code, 0)
    case StoreTrip => GivesBack(b.code, One(b.held))
    case KeepsOnThrow =>
      if b.thrown then b.held && GivesBack(b.code, 0)
      else if b.held then exists k: nat :: b.code == ReturnInTry(k)
      else b.code == Op([], [], [])
  }

  ghost predicate CodeInv(s: State) {
    forall t :: t in s.borrows ==> OnTrack(s.borrows[t])
  }

  lemma {:induction false} CodeOnTrack(kind: Kind, conn: Conn, k: nat)
    ensures OnTrack(Borrow(kind, conn, true, false, Code(kind, k)))
  {
    ReturnAfterOnce(k);
    NoReturnNever(k);
  }

  lemma {:induction false} OnTrackStep(b: Borrow)
    requires OnTrack(b) && !Finished(b.code)
    ensures Head(b.code).GiveBack? ==> b.held && OnTrack(b.(held := false, code := Rest(b.code)))
    ensures Head(b.code).Call? ==> OnTrack(b.(code := Rest(b.code)))
    ensures CanThrow(b.code) ==> OnTrack(b.(thrown := true, code := Thrown(b.code)))
  {
    if b.kind.KeepsOnThrow? && !b.thrown && b.held {
      var k: nat :| b.code == ReturnInTry(k);
      assert Thrown(b.code) == Op([], [], []);
      if k == 0 {
        assert Rest(b.code) == Op([], [], []);
      } else {
        assert Rest(b.code) == ReturnInTry(k - 1);
      }
    }
  }

  lemma {:induction false} CodeStep(s: State, a: Action)
    requires CodeInv(s) && Enabled(s, a)
    ensures CodeInv(Next(s, a))
  {
    if a.Get? {
      if s.idle != [] {
        CodeOnTrack(a.kind, s.idle[0], a.k);
      }
    } else if !a.End? {
      OnTrackStep(s.borrows[a.t]);
    }
  }

  /** Idle, held and leaked make up the pool; the leaked are accounted for by their cause. */
  ghost predicate Ledger(s: State, size: nat) {
    && |s.idle| + |Holders(s)| + |s.leaked| == size
    && |s.leaked| == s.queriesEnded + s.throwsEnded
    && s.queriesServed == |Queries(s)| + s.queriesEnded
    && Queries(s) <= Holders(s)
  }

  lemma {:induction false} LedgerGet(s: State, a: Action, size: nat)
    requires Ledger(s, size) && Enabled(s, a) && a.Get? && s.idle != []
    ensures Ledger(Next(s, a), size)
  {
    var s' := Next(s, a);
    assert Holders(s') == Holders(s) + {a.t};
    assert Queries(s') == if a.kind.FriendQuery? then Queries(s) + {a.t} else Queries(s);
  }

  lemma {:induction false} LedgerRelease(s: State, a: Action, size: nat)
    requires CodeInv(s) && Ledger(s, size) && Enabled(s, a) && a.DoRelease?
    ensures Ledger(Next(s, a), size)
  {
    var s' := Next(s, a);
    OnTrackStep(s.borrows[a.t]);
    assert !s.borrows[a.t].kind.FriendQuery?;
    assert Holders(s') == Holders(s) - {a.t};
    assert Queries(s') == Queries(s);
  }

  /** A borrower ends with the connection in hand in exactly two cases. */
  lemma {:induction false} EndLeaks(b: Borrow)
    requires OnTrack(b) && Finished(b.code)
    ensures b.held <==> b.kind.FriendQuery? || (b.kind.KeepsOnThrow? && b.thrown)
  {
  }

  lemma {:induction false} LedgerEnd(s: State, a: Action, size: nat)
    requires CodeInv(s) && Ledger(s, size) && Enabled(s, a) && a.End?
    ensures Ledger(Next(s, a), size)
  {
    var s' := Next(s, a);
    EndLeaks(s.borrows[a.t]);
    assert Holders(s') == Holders(s) - {a.t};
    assert Queries(s') == Queries(s) - {a.t};
  }

  lemma {:induction false} LedgerStep(s: State, a: Action, size: nat)
    requires CodeInv(s) && Ledger(s, size) && Enabled(s, a)
    ensures Ledger(Next(s, a), size)
  {
    if a.Get? {
      if s.idle != [] {
        LedgerGet(s, a, size);
      }
    } else if a.DoRelease? {
      LedgerRelease(s, a, size);
    } else if a.End? {
      LedgerEnd(s, a, size);
    } else {
      assert Holders(Next(s, a)) == Holders(s);
      assert Queries(Next(s, a)) == Queries(s);
    }
  }

  lemma {:induction false} LedgerRun(s: State, run: seq<Action>, size: nat)
    requires CodeInv(s) && Ledger(s, size) && Valid(s, run)
    ensures CodeInv(Exec(s, run)) && Ledger(Exec(s, run), size)
    ensures s.queriesServed <= Exec(s, run).queriesServed
    decreases |run|
  {
    if run == [] {
    } else {
      CodeStep(s, run[0]);
      LedgerStep(s, run[0], size);
      LedgerRun(Next(s, run[0]), run[1..], size);
    }
  }

  /**
   In every reachable state idle, held and leaked connections add up to the pool, and the
   leaked ones are exactly the ended friend queries plus the throwing ends of the methods that
   give back only inside their `try`; trips of `OfflineMessage::insert` leak none.
   */
  lemma {:induction false} LedgerBalances(conns: seq<Conn>, run: seq<Action>)
    requires Valid(Start(conns), run)
    ensures var s := Exec(Start(conns), run);
      |s.idle| + |Holders(s)| + |s.leaked| == |conns| && |s.leaked| == s.queriesEnded + s.throwsEnded
  {
    LedgerRun(Start(conns), run, |conns|);
  }

  lemma {:induction false} SubsetSize<T>(small: set<T>, large: set<T>)
    requires small <= large
    ensures |small| <= |large|
    ensures |small| == |large| ==> small == large
  {
    assert large == small + (large - small);
    assert |large| == |small| + |large - small|;
  }

  lemma {:induction false} ServedBound(s: State, size: nat)
    requires Ledger(s, size)
    ensures s.queriesServed <= size
    ensures s.queriesServed == size ==> s.idle == [] && Holders(s) == Queries(s)
  {
    SubsetSize(Queries(s), Holders(s));
  }

  /**
   At most as many friend queries as the pool has connections are ever served; once that many
   have been, the pool is empty in this state and in every later one.
   */
  lemma {:induction false} FriendQueriesDrainThePool(conns: seq<Conn>, run: seq<Action>, later: seq<Action>)
    requires Valid(Start(conns), run) && Valid(Exec(Start(conns), run), later)
    ensures Exec(Start(conns), run).queriesServed <= |conns|
    ensures Exec(Start(conns), run).queriesServed == |conns| ==>
      Exec(Exec(Start(conns), run), later).idle == []
  {
    LedgerRun(Start(conns), run, |conns|);
    var s := Exec(Start(conns), run);
    ServedBound(s, |conns|);
    LedgerRun(s, later, |conns|);
    ServedBound(Exec(s, later), |conns|);
  }

  lemma {:induction false} QueriesFrom(s: State, t: ThreadId) returns (run: seq<Action>)
    requires t !in s.borrows
    ensures Valid(s, run) && |run| == 2 * |s.idle|
    ensures var e := Exec(s, run);
      e.idle == [] && t !in e.borrows && e.queriesServed == s.queriesServed + |s.idle|
    decreases |s.idle|
  {
    if s.idle == [] {
      run := [];
    } else {
      var get, end := Get(t, FriendQuery, 0), End(t);
      var s1 := Next(s, get);
      var rest := QueriesFrom(Next(s1, end), t);
      assert ([end] + rest)[1..] == rest;
      assert Valid(s1, [end] + rest) && Exec(s1, [end] + rest) == Exec(Next(s1, end), rest);
      run := [get] + ([end] + rest);
      assert run[1..] == [end] + rest;
    }
  }

  /** One thread, one friend query after the other, nothing failing: the pool ends up empty. */
  lemma {:induction false} SerialQueriesDrainThePool(conns: seq<Conn>, t: ThreadId) returns (run: seq<Action>)
    ensures Valid(Start(conns), run) && |run| == 2 * |conns|
    ensures var s := Exec(Start(conns), run);
      s.idle == [] && t !in s.borrows && s.queriesServed == |conns|
  {
    run := QueriesFrom(Start(conns), t);
  }

  // ---------- Which connection is lent ----------

  predicate Holds(s: State, t: ThreadId, c: Conn) {
    t in s.borrows && s.borrows[t].held && s.borrows[t].conn == c
  }

  /** No connection is in two places: two hands, or a hand, the queue or the leaked ones. */
  ghost predicate LentOnce(s: State) {
    && Distinct(s.idle) && Distinct(s.leaked)
    && (forall c :: c in s.idle ==> c !in s.leaked)
    && (forall t, c :: Holds(s, t, c) ==> c !in s.idle && c !in s.leaked)
    && (forall t, u, c :: Holds(s, t, c) && Holds(s, u, c) ==> t == u)
  }

  ghost predicate Somewhere(s: State, c: Conn) {
    c in s.idle || c in s.leaked || exists t :: Holds(s, t, c)
  }

  lemma {:induction false} HoldersStep(s: State, a: Action, t: ThreadId, c: Conn)
    requires CodeInv(s) && Enabled(s, a)
    ensures Holds(Next(s, a), t, c) <==>
      || (Holds(s, t, c) && !((a.DoRelease? || a.End?) && a.t == t))
      || (a.Get? && a.t == t && s.idle != [] && c == s.idle[0])
  {
  }

  lemma {:induction false} LentOnceStep(s: State, a: Action)
    requires CodeInv(s) && LentOnce(s) && Enabled(s, a)
    ensures LentOnce(Next(s, a))
  {
    var s' := Next(s, a);
    if a.DoRelease? {
      OnTrackStep(s.borrows[a.t]);
      assert Holds(s, a.t, s.borrows[a.t].conn);
    } else if a.End? && s.borrows[a.t].held {
      assert Holds(s, a.t, s.borrows[a.t].conn);
    }
    forall t, c | Holds(s', t, c) ensures c !in s'.idle && c !in s'.leaked {
      HoldersStep(s, a, t, c);
    }
    forall t, u, c | Holds(s', t, c) && Holds(s', u, c) ensures t == u {
      HoldersStep(s, a, t, c);
      HoldersStep(s, a, u, c);
    }
  }

  lemma {:induction false} SomewhereStep(s: State, a: Action, c: Conn)
    requires CodeInv(s) && Enabled(s, a)
    ensures Somewhere(Next(s, a), c) <==> Somewhere(s, c)
  {
    var s' := Next(s, a);
    if a.DoRelease? {
      OnTrackStep(s.borrows[a.t]);
      assert Holds(s, a.t, s.borrows[a.t].conn);
    } else if a.End? && s.borrows[a.t].held {
      assert Holds(s, a.t, s.borrows[a.t].conn);
    } else if a.Get? && s.idle != [] {
      assert Holds(s', a.t, s.idle[0]);
    }
    if t :| Holds(s, t, c) {
      HoldersStep(s, a, t, c);
    }
    if t :| Holds(s', t, c) {
      HoldersStep(s, a, t, c);
    }
  }

  lemma {:induction false} LentRun(s: State, run: seq<Action>, c: Conn)
    requires CodeInv(s) && LentOnce(s) && Valid(s, run)
    ensures LentOnce(Exec(s, run))
    ensures Somewhere(Exec(s, run), c) <==> Somewhere(s, c)
    decreases |run|
  {
    if run == [] {
    } else {
      CodeStep(s, run[0]);
      LentOnceStep(s, run[0]);
      SomewhereStep(s, run[0], c);
      LentRun(Next(s, run[0]), run[1..], c);
    }
  }

  /**
   In every reachable state, whichever calls throw: no connection is lent twice, or lent and idle,
   and the idle, the held and the leaked ones together are exactly those the pool was given.
   */
  lemma {:induction false} NoConnectionLentTwiceOrLost(conns: seq<Conn>, run: seq<Action>, c: Conn)
    requires Distinct(conns) && Valid(Start(conns), run)
    ensures LentOnce(Exec(Start(conns), run))
    ensures c in conns <==> Somewhere(Exec(Start(conns), run), c)
  {
    LentRun(Start(conns), run, c);
  }

  /** The connection a step puts into a borrower's hands. */
  function LentBy(s: State, a: Action): seq<Conn>
    requires Enabled(s, a)
  {
    if a.Get? && a.t in Next(s, a).borrows then [Next(s, a).borrows[a.t].conn] else []
  }

  function ReturnedBy(s: State, a: Action): seq<Conn>
    requires Enabled(s, a)
  {
    if a.DoRelease? then [s.borrows[a.t].conn] else []
  }

  function LentLog(s: State, run: seq<Action>): seq<Conn>
    requires Valid(s, run)
    decreases |run|
  {
    if run == [] then [] else LentBy(s, run[0]) + LentLog(Next(s, run[0]), run[1..])
  }

  function ReturnedLog(s: State, run: seq<Action>): seq<Conn>
    requires Valid(s, run)
    decreases |run|
  {
    if run == [] then [] else ReturnedBy(s, run[0]) + ReturnedLog(Next(s, run[0]), run[1..])
  }

  /**
   The pool is a queue: the connections lent so far, followed by the idle ones, are those there at
   the start followed by those given back, in that order.
   */
  lemma {:induction false} LentInOrder(s: State, run: seq<Action>)
    requires Valid(s, run)
    ensures s.idle + ReturnedLog(s, run) == LentLog(s, run) + Exec(s, run).idle
    decreases |run|
  {
    if run == [] {
    } else {
      var s', rest := Next(s, run[0]), run[1..];
      assert s.idle + ReturnedBy(s, run[0]) == LentBy(s, run[0]) + s'.idle;
      LentInOrder(s', rest);
      ThenAppend(s.idle, ReturnedBy(s, run[0]), ReturnedLog(s', rest));
      ThenAppend(LentBy(s, run[0]), s'.idle, ReturnedLog(s', rest));
      ThenAppend(LentBy(s, run[0]), LentLog(s', rest), Exec(s, run).idle);
    }
  }

  // ---------- The pool object ----------

  /**
   The pool's field with the ledger it is part of. Every method is one step of the ledger, taken
   by the borrower named in its ghost parameters.
   */
  class MySQLConnectionPool {
    var connections: seq<Conn>
    ghost var ledger: State
    /** How many connections the pool was given. */
    ghost var size: nat

    ghost predicate Agrees()
      reads this
    {
      ledger.idle == connections && CodeInv(ledger) && Ledger(ledger, size)
    }

    constructor ()
      ensures Agrees() && ledger == Start([]) && size == 0
    {
      connections, ledger, size := [], Start([]), 0;
    }

    method InitConnection(created: seq<Conn>)
      requires connections == []
      modifies this
      ensures Agrees() && ledger == Start(created) && size == |created|
    {
      for i := 0 to |created|
        invariant connections == created[..i]
      {
        connections := connections + [created[i]];
      }
      ledger, size := Start(created), |created|;
    }

    /** Null exactly when every connection is held or leaked. */
    method GetConnection(ghost t: ThreadId, ghost kind: Kind, ghost k: nat) returns (conn: Option<Conn>)
      requires Agrees() && Enabled(ledger, Get(t, kind, k))
      modifies this
      ensures Agrees() && size == old(size) && ledger == Next(old(ledger), Get(t, kind, k))
      ensures conn.None? <==> |Holders(old(ledger))| + |old(ledger).leaked| == size
      ensures old(connections) == (if conn.Some? then [conn.value] else []) + connections
      ensures if conn.Some? then t in Holders(ledger) && ledger.borrows[t].conn == conn.value else ledger == old(ledger)
    {
      CodeStep(ledger, Get(t, kind, k));
      LedgerStep(ledger, Get(t, kind, k), size);
      ledger := Next(ledger, Get(t, kind, k));
      if |connections| == 0 { return None; }
      conn := Some(connections[0]);
      connections := connections[1..];
    }

    method ReleaseConnection(conn: Option<Conn>, ghost t: ThreadId) returns (ok: bool)
      requires Agrees()
      requires conn.Some? ==> Enabled(ledger, DoRelease(t)) && ledger.borrows[t].conn == conn.value
      modifies this
      ensures Agrees() && size == old(size) && ok == conn.Some?
      ensures ledger == if ok then Next(old(ledger), DoRelease(t)) else old(ledger)
      ensures connections == old(connections) + if ok then [conn.value] else []
      ensures ok ==> Holders(ledger) == Holders(old(ledger)) - {t}
    {
      if conn.None? { return false; }
      CodeStep(ledger, DoRelease(t));
      LedgerStep(ledger, DoRelease(t), size);
      ledger := Next(ledger, DoRelease(t));
      connections := connections + [conn.value];
      return true;
    }

    /** What borrowers do between the two: statements, exceptions, returning to their caller. */
    ghost method Elsewhere(a: Action)
      requires Agrees() && Enabled(ledger, a)
      requires a.DoCall? || a.CallThrows? || a.End?
      modifies this`ledger
      ensures Agrees() && ledger == Next(old(ledger), a)
    {
      CodeStep(ledger, a);
      LedgerStep(ledger, a, size);
      ledger := Next(ledger, a);
    }
  }
}
