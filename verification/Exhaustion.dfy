/**
 One-to-one chat on top of the MySQL pool. Every well-formed message costs one friend query,
 and a friend query never gives its connection back.
 */
module Exhaustion {

  import opened ChatTypes
  import OneChat
  import MySqlPool

  datatype State = State(desk: OneChat.Desk, pool: MySqlPool.State)

  datatype Action =
    /** A message handled by thread `t`, whose friend query makes `k` calls. */
    | Chat(t: ThreadId, k: nat, chat: OneChat.Action)
    /** Friendships and connections change. */
    | DeskStep(change: OneChat.Action)
    /** Any other borrower, and the rest of a friend query, one pool step at a time. */
    | PoolStep(step: MySqlPool.Action)

  predicate WellFormed(req: OneChat.Request) {
    req.msg.Some? && req.msg.value != "" && req.id.Some? && req.to.Some?
  }

  predicate Enabled(s: State, a: Action) {
    match a
    case Chat(t, k, chat) =>
      && chat.Chat? && OneChat.Enabled(s.desk, chat)
      && t !in s.pool.borrows
      && (WellFormed(chat.req) ==> (chat.reply.NoConn? <==> s.pool.idle == []))
    case DeskStep(change) => !change.Chat?
    case PoolStep(step) => MySqlPool.Enabled(s.pool, step)
  }

  function Next(s: State, a: Action): State
    requires Enabled(s, a)
  {
    match a
    case Chat(t, k, chat) =>
      State(OneChat.Next(s.desk, chat),
            if WellFormed(chat.req) then MySqlPool.Next(s.pool, MySqlPool.Get(t, MySqlPool.FriendQuery, k)) else s.pool)
    case DeskStep(change) => s.(desk := OneChat.Next(s.desk, change))
    case PoolStep(step) => s.(pool := MySqlPool.Next(s.pool, step))
  }

  predicate Valid(s: State, run: seq<Action>)
    decreases |run|
  {
    run == [] || (Enabled(s, run[0]) && Valid(Next(s, run[0]), run[1..]))
  }

  function Exec(s: State, run: seq<Action>): State
    requires Valid(s, run)
    decreases |run|
  {
    if run == [] then s else Exec(Next(s, run[0]), run[1..])
  }

  ghost predicate Inv(s: State, size: nat) {
    MySqlPool.CodeInv(s.pool) && MySqlPool.Ledger(s.pool, size) && |s.desk.acked| <= s.pool.queriesServed
  }

  lemma {:induction false} InvStep(s: State, a: Action, size: nat)
    requires Inv(s, size) && Enabled(s, a)
    ensures Inv(Next(s, a), size)
  {
    if a.PoolStep? {
      MySqlPool.CodeStep(s.pool, a.step);
      MySqlPool.LedgerStep(s.pool, a.step, size);
    } else if a.Chat? && WellFormed(a.chat.req) {
      var get := MySqlPool.Get(a.t, MySqlPool.FriendQuery, a.k);
      MySqlPool.CodeStep(s.pool, get);
      MySqlPool.LedgerStep(s.pool, get, size);
    }
  }

  lemma {:induction false} InvRun(s: State, run: seq<Action>, size: nat)
    requires Inv(s, size) && Valid(s, run)
    ensures Inv(Exec(s, run), size)
    decreases |run|
  {
    if run == [] {
    } else {
      InvStep(s, run[0], size);
      InvRun(Next(s, run[0]), run[1..], size);
    }
  }

  lemma {:induction false} BoundedNow(s: State, size: nat)
    requires Inv(s, size)
    ensures |s.desk.acked| <= size
    ensures |s.desk.acked| == size ==>
      forall a :: Enabled(s, a) && a.Chat? ==> !OneChat.Judge(s.desk.friends, a.chat.req, a.chat.reply).Pass?
  {
    MySqlPool.ServedBound(s.pool, size);
  }

  lemma {:induction false} InvStart(desk: OneChat.Desk, conns: seq<MySqlPool.Conn>)
    requires desk.acked == []
    ensures Inv(State(desk, MySqlPool.Start(conns)), |conns|)
  {
  }

  /**
   Whatever else the server does, it acknowledges at most as many one-to-one messages as the
   pool has connections; once that many have been, no further one passes the gate.
   */
  lemma {:induction false} ChatsAreBoundedByThePool(desk: OneChat.Desk, conns: seq<MySqlPool.Conn>, run: seq<Action>)
    requires desk.acked == []
    requires Valid(State(desk, MySqlPool.Start(conns)), run)
    ensures var s := Exec(State(desk, MySqlPool.Start(conns)), run);
      && |s.desk.acked| <= |conns|
      && (|s.desk.acked| == |conns| ==>
            forall a :: Enabled(s, a) && a.Chat? ==> !OneChat.Judge(s.desk.friends, a.chat.req, a.chat.reply).Pass?)
  {
    var s0 := State(desk, MySqlPool.Start(conns));
    InvStart(desk, conns);
    InvRun(s0, run, |conns|);
    BoundedNow(Exec(s0, run), |conns|);
  }
}
