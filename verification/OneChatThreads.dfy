/**
 One-to-one chat handled by any number of threads at once: the gate, the look-up under the
 connection lock, the statements of the offline store, and the acknowledgement are separate
 steps, between which connections and friendships change.
 */
module OneChatThreads {

  import opened ChatTypes
  import opened OfflineStore
  import opened OneChat
  import Store = OfflineStoreThreads

  datatype Pc =
    | Ready
    /** The sender turned out to be a friend; the recipient has not been looked up. */
    | Passed(row: Row)
    /** The recipient was not connected; the message is with the offline store. */
    | Saving(row: Row)

  datatype State = State(
    friends: Friends,
    conns: Conns,
    pcs: seq<Pc>,
    store: Store.State,
    sent: seq<Delivery>,
    acked: seq<Row>,
    refusals: nat
  )

  datatype Action =
    | Gate(t: nat, req: Request, reply: Reply)
    | LookUp(t: nat)
    | Save(step: Store.Action)
    | Acknowledge(t: nat)
    | Befriend(a: UserId, b: UserId, reply: Reply)
    | Connect(conns: Conns)

  predicate Enabled(s: State, a: Action) {
    match a
    case Gate(t, req, reply) => t < |s.pcs| && s.pcs[t].Ready?
    case LookUp(t) =>
      && t < |s.pcs| && s.pcs[t].Passed?
      && (s.pcs[t].row.user !in s.conns ==> Store.Enabled(s.store, Store.Call(t, s.pcs[t].row)))
    case Save(step) => !step.Call? && Store.Enabled(s.store, step)
    case Acknowledge(t) => t < |s.pcs| && s.pcs[t].Saving? && t < |s.store.jobs| && s.store.jobs[t].NoJob?
    case Befriend(x, y, reply) => true
    case Connect(conns) => true
  }

  function Next(s: State, a: Action): State
    requires Enabled(s, a)
  {
    match a
    case Gate(t, req, reply) =>
      (match Judge(s.friends, req, reply)
       case Drop => s
       case Refuse => s.(refusals := s.refusals + 1)
       case Pass(row) => s.(pcs := s.pcs[t := Passed(row)]))
    case LookUp(t) =>
      var row := s.pcs[t].row;
      if row.user in s.conns then
        s.(pcs := s.pcs[t := Ready], acked := s.acked + [row], sent := s.sent + [Delivery(s.conns[row.user], row)])
      else
        s.(pcs := s.pcs[t := Saving(row)], store := Store.Next(s.store, Store.Call(t, row)))
    case Save(step) => s.(store := Store.Next(s.store, step))
    case Acknowledge(t) => s.(pcs := s.pcs[t := Ready], acked := s.acked + [s.pcs[t].row])
    case Befriend(x, y, reply) => if reply.Done? then s.(friends := s.friends + {Canonical(x, y)}) else s
    case Connect(conns) => s.(conns := conns)
  }

  predicate Valid(s: State, run: seq<Action>)
    decreases |run|
  {
    run == [] || (Enabled(s, run[0]) && Valid(Next(s, run[0]), run[1..]))
  }

  function Exec(s: State, run: seq<Action>): State
    requires Valid(s, run)
    decreases |run|
  {
    if run == [] then s else Exec(Next(s, run[0]), run[1..])
  }

  function Start(threads: nat, friends: Friends, conns: Conns, table: seq<Row>, queue: seq<Row>): State {
    State(friends, conns, seq(threads, _ => Ready), Store.Start(threads, table, queue), [], [], 0)
  }

  /** No message is between the gate and its acknowledgement. */
  predicate AtRest(s: State) {
    forall t :: 0 <= t < |s.pcs| ==> s.pcs[t].Ready?
  }

  /** How many threads have handed `r` to the store and not acknowledged it. */
  function Unacknowledged(pcs: seq<Pc>, r: Row): nat {
    if pcs == [] then 0 else One(pcs[0] == Saving(r)) + Unacknowledged(pcs[1..], r)
  }

  lemma {:induction false} UnacknowledgedUpdate(pcs: seq<Pc>, t: nat, pc: Pc, r: Row)
    requires t < |pcs|
    ensures Unacknowledged(pcs[t := pc], r) + One(pcs[t] == Saving(r)) == Unacknowledged(pcs, r) + One(pc == Saving(r))
  {
    if t == 0 {
      assert pcs[t := pc][1..] == pcs[1..];
    } else {
      assert pcs[t := pc][1..] == pcs[1..][t - 1 := pc];
      UnacknowledgedUpdate(pcs[1..], t - 1, pc, r);
    }
  }

  /** A call in progress belongs to a thread that waits for it. */
  ghost predicate CallsMatch(s: State) {
    |s.pcs| == |s.store.jobs| &&
    forall t :: 0 <= t < |s.pcs| && !s.store.jobs[t].NoJob? ==> s.pcs[t] == Saving(s.store.jobs[t].row)
  }

  /** Sent or given to the store: acknowledged, about to be, or there from the start. */
  ghost predicate Balanced(s: State, earlier: seq<Row>, r: Row) {
    Store.Count(Rows(s.sent), r) + Store.Count(s.store.given, r)
      == Store.Count(earlier, r) + Store.Count(s.acked, r) + Unacknowledged(s.pcs, r)
  }

  lemma {:induction false} CallsMatchStep(s: State, a: Action)
    requires CallsMatch(s) && Enabled(s, a)
    ensures CallsMatch(Next(s, a))
  {
  }

  lemma {:induction false} GivenStep(s: Store.State, a: Store.Action, r: Row)
    requires Store.Enabled(s, a)
    ensures Store.Count(Store.Next(s, a).given, r) == Store.Count(s.given, r) + One(a.Call? && a.row == r)
  {
    if a.Call? {
      Store.CountSnoc(s.given, a.row, r);
    }
  }

  lemma {:induction false} BalancedStep(s: State, a: Action, earlier: seq<Row>, r: Row)
    requires Balanced(s, earlier, r) && Enabled(s, a)
    ensures Balanced(Next(s, a), earlier, r)
  {
    var s' := Next(s, a);
    match a
    case Gate(t, req, reply) =>
      UnacknowledgedUpdate(s.pcs, t, s'.pcs[t], r);
    case LookUp(t) =>
      var row := s.pcs[t].row;
      UnacknowledgedUpdate(s.pcs, t, s'.pcs[t], r);
      if row.user in s.conns {
        assert Rows(s'.sent) == Rows(s.sent) + [row];
        Store.CountSnoc(Rows(s.sent), row, r);
        Store.CountSnoc(s.acked, row, r);
      } else {
        GivenStep(s.store, Store.Call(t, row), r);
      }
    case Save(step) =>
      GivenStep(s.store, step, r);
    case Acknowledge(t) =>
      UnacknowledgedUpdate(s.pcs, t, Ready, r);
      Store.CountSnoc(s.acked, s.pcs[t].row, r);
    case Befriend(x, y, reply) =>
    case Connect(conns) =>
  }

  ghost predicate Inv(s: State, earlier: seq<Row>) {
    && CallsMatch(s) && Store.LockInv(s.store) && Store.Conserved(s.store)
    && forall r :: Balanced(s, earlier, r)
  }

  lemma {:induction false} StoreStep(s: State, a: Action)
    requires Store.LockInv(s.store) && Store.Conserved(s.store) && Enabled(s, a)
    ensures Store.LockInv(Next(s, a).store) && Store.Conserved(Next(s, a).store)
  {
    if a.Save? {
      Store.LockStep(s.store, a.step);
      Store.ConservedStep(s.store, a.step);
    } else if a.LookUp? && s.pcs[a.t].row.user !in s.conns {
      var call := Store.Call(a.t, s.pcs[a.t].row);
      Store.LockStep(s.store, call);
      Store.ConservedStep(s.store, call);
    }
  }

  lemma {:induction false} InvRun(s: State, run: seq<Action>, earlier: seq<Row>)
    requires Inv(s, earlier) && Valid(s, run)
    ensures Inv(Exec(s, run), earlier)
    decreases |run|
  {
    if run == [] {
    } else {
      CallsMatchStep(s, run[0]);
      StoreStep(s, run[0]);
      forall r ensures Balanced(Next(s, run[0]), earlier, r) {
        BalancedStep(s, run[0], earlier, r);
      }
      InvRun(Next(s, run[0]), run[1..], earlier);
    }
  }

  lemma {:induction false} NobodySaving(pcs: seq<Pc>, r: Row)
    requires forall i :: 0 <= i < |pcs| ==> !pcs[i].Saving?
    ensures Unacknowledged(pcs, r) == 0
  {
    if pcs == [] {
    } else {
      NobodySaving(pcs[1..], r);
    }
  }

  lemma {:induction false} InvStart(threads: nat, friends: Friends, conns: Conns, table: seq<Row>, queue: seq<Row>)
    ensures Inv(Start(threads, friends, conns, table, queue), table + queue)
  {
    var s := Start(threads, friends, conns, table, queue);
    Store.StartIsConserved(threads, table, queue);
    forall r ensures Balanced(s, table + queue, r) {
      NobodySaving(s.pcs, r);
      assert Rows(s.sent) == [];
    }
  }

  lemma {:induction false} CallsAreUnacknowledged(pcs: seq<Pc>, jobs: seq<Store.Job>, r: Row)
    requires |pcs| == |jobs|
    requires forall t :: 0 <= t < |pcs| && !jobs[t].NoJob? ==> pcs[t] == Saving(jobs[t].row)
    ensures Store.InProgress(jobs, r) <= Unacknowledged(pcs, r)
  {
    if pcs == [] {
    } else {
      CallsAreUnacknowledged(pcs[1..], jobs[1..], r);
    }
  }

  /** The balance of one message, in terms of where it is. */
  lemma {:induction false} InState(s: State, earlier: seq<Row>, r: Row)
    requires Inv(s, earlier)
    ensures multiset(earlier)[r] + multiset(s.acked)[r] + Unacknowledged(s.pcs, r)
            + One(Store.Doubled(s.store) == Some(r))
         == multiset(Rows(s.sent))[r] + multiset(s.store.table + s.store.queue)[r] + Store.InProgress(s.store.jobs, r)
  {
    assert Balanced(s, earlier, r);
    assert Store.Places(s.store, r) == Store.Count(s.store.given, r) + One(Store.Doubled(s.store) == Some(r));
    Store.CountIsMultiplicity(earlier, r);
    Store.CountIsMultiplicity(s.acked, r);
    Store.CountIsMultiplicity(Rows(s.sent), r);
    Store.CountIsMultiplicity(s.store.table, r);
    Store.CountIsMultiplicity(s.store.queue, r);
  }

  /**
   In every state of every interleaving, with any number of messages still on their way: each
   message acknowledged with errno 0, counted with multiplicity, has been sent or is in the table
   or the failure queue already.
   */
  lemma {:induction false} AcknowledgedIsSafe(
      threads: nat, friends: Friends, conns: Conns, table: seq<Row>, queue: seq<Row>, run: seq<Action>)
    requires Valid(Start(threads, friends, conns, table, queue), run)
    ensures var s := Exec(Start(threads, friends, conns, table, queue), run);
      multiset(table + queue) + multiset(s.acked) <= multiset(Rows(s.sent)) + multiset(s.store.table + s.store.queue)
  {
    InvStart(threads, friends, conns, table, queue);
    InvRun(Start(threads, friends, conns, table, queue), run, table + queue);
    var s := Exec(Start(threads, friends, conns, table, queue), run);
    forall r ensures multiset(table + queue)[r] + multiset(s.acked)[r]
                  <= multiset(Rows(s.sent))[r] + multiset(s.store.table + s.store.queue)[r] {
      InState(s, table + queue, r);
      CallsAreUnacknowledged(s.pcs, s.store.jobs, r);
    }
  }

  /**
   Whenever no message is on its way, acknowledged messages and what was stored at the start are
   exactly the messages sent and those in the table and the failure queue.
   */
  lemma {:induction false} ConcurrentChatsConserve(
      threads: nat, friends: Friends, conns: Conns, table: seq<Row>, queue: seq<Row>, run: seq<Action>)
    requires Valid(Start(threads, friends, conns, table, queue), run)
    requires AtRest(Exec(Start(threads, friends, conns, table, queue), run))
    ensures var s := Exec(Start(threads, friends, conns, table, queue), run);
      multiset(table + queue) + multiset(s.acked) == multiset(Rows(s.sent)) + multiset(s.store.table + s.store.queue)
  {
    InvStart(threads, friends, conns, table, queue);
    InvRun(Start(threads, friends, conns, table, queue), run, table + queue);
    var s := Exec(Start(threads, friends, conns, table, queue), run);
    forall r ensures multiset(table + queue)[r] + multiset(s.acked)[r]
                  == multiset(Rows(s.sent))[r] + multiset(s.store.table + s.store.queue)[r] {
      InState(s, table + queue, r);
      NobodySaving(s.pcs, r);
      Store.NothingInProgress(s.store.jobs, r);
    }
  }

  // ---------- Whose messages they are ----------

  /** The message a step lets through the gate. */
  function PassedBy(s: State, a: Action): seq<Row> {
    if a.Gate? && Passes(s.friends, a.req, a.reply) then [Addressed(a.req)] else []
  }

  function PassLog(s: State, run: seq<Action>): seq<Row>
    requires Valid(s, run)
    decreases |run|
  {
    if run == [] then [] else PassedBy(s, run[0]) + PassLog(Next(s, run[0]), run[1..])
  }

  /** How many threads are between the gate and the look-up with `r`. */
  function OnTheWay(pcs: seq<Pc>, r: Row): nat {
    if pcs == [] then 0 else One(pcs[0] == Passed(r)) + OnTheWay(pcs[1..], r)
  }

  lemma {:induction false} OnTheWayUpdate(pcs: seq<Pc>, t: nat, pc: Pc, r: Row)
    requires t < |pcs|
    ensures OnTheWay(pcs[t := pc], r) + One(pcs[t] == Passed(r)) == OnTheWay(pcs, r) + One(pc == Passed(r))
  {
    if t == 0 {
      assert pcs[t := pc][1..] == pcs[1..];
    } else {
      assert pcs[t := pc][1..] == pcs[1..][t - 1 := pc];
      OnTheWayUpdate(pcs[1..], t - 1, pc, r);
    }
  }

  /** Where a message that passed the gate can be. */
  function Whereabouts(s: State, r: Row): nat {
    Store.Count(Rows(s.sent), r) + Store.Count(s.store.given, r) + OnTheWay(s.pcs, r)
  }

  lemma {:induction false} WhereaboutsStep(s: State, a: Action, r: Row)
    requires Enabled(s, a)
    ensures Whereabouts(Next(s, a), r) == Whereabouts(s, r) + Store.Count(PassedBy(s, a), r)
  {
    var s' := Next(s, a);
    if a.Gate? {
      OnTheWayUpdate(s.pcs, a.t, s'.pcs[a.t], r);
    } else if a.LookUp? {
      var row := s.pcs[a.t].row;
      OnTheWayUpdate(s.pcs, a.t, s'.pcs[a.t], r);
      if row.user in s.conns {
        assert Rows(s'.sent) == Rows(s.sent) + [row];
        Store.CountSnoc(Rows(s.sent), row, r);
      } else {
        GivenStep(s.store, Store.Call(a.t, row), r);
      }
    } else if a.Save? {
      GivenStep(s.store, a.step, r);
    } else if a.Acknowledge? {
      OnTheWayUpdate(s.pcs, a.t, Ready, r);
    }
  }

  /**
   In every state of every interleaving, what was sent, given to the store or is on its way are
   exactly the messages of the passing requests, each for the recipient its request names and
   with its own text, counted with multiplicity.
   */
  lemma {:induction false} SentAsAddressed(s: State, run: seq<Action>, r: Row)
    requires Valid(s, run)
    ensures Whereabouts(Exec(s, run), r) == Whereabouts(s, r) + Store.Count(PassLog(s, run), r)
    decreases |run|
  {
    if run == [] {
    } else {
      WhereaboutsStep(s, run[0], r);
      SentAsAddressed(Next(s, run[0]), run[1..], r);
      var first, rest := PassedBy(s, run[0]), PassLog(Next(s, run[0]), run[1..]);
      Store.CountIsMultiplicity(first, r);
      Store.CountIsMultiplicity(rest, r);
      Store.CountIsMultiplicity(first + rest, r);
    }
  }

  /** A message is refused exactly if it is neither empty nor passing; only logins move connections. */
  lemma {:induction false} RefusedStep(s: State, a: Action)
    requires Enabled(s, a)
    ensures Next(s, a).refusals
         == s.refusals + One(a.Gate? && !Dropped(a.req) && !Passes(s.friends, a.req, a.reply))
    ensures Next(s, a).conns == if a.Connect? then a.conns else s.conns
  {
  }

  /** In some state of the run `u` is connected on `c`. */
  ghost predicate WasConnected(s: State, run: seq<Action>, u: UserId, c: ConnId)
    requires Valid(s, run)
    decreases |run|
  {
    || (u in s.conns && s.conns[u] == c)
    || (run != [] && WasConnected(Next(s, run[0]), run[1..], u, c))
  }

  /** Whatever is sent goes out on a connection that its recipient had. */
  lemma {:induction false} SentOnOwnConnection(s: State, run: seq<Action>, d: Delivery)
    requires Valid(s, run) && d in Exec(s, run).sent
    ensures d in s.sent || WasConnected(s, run, d.row.user, d.conn)
    decreases |run|
  {
    if run == [] {
    } else {
      SentOnOwnConnection(Next(s, run[0]), run[1..], d);
    }
  }
}
