/**
 Where messages for absent users go and where logins look for them, in a cluster of nodes that
 share the database and Redis: `oneChat` stores in the MySQL table only, `login` reads the Redis
 list only, and the one writer of that list is the branch of the inbox callback for forwarded
 messages.
 */
module Undelivered {

  import opened ChatTypes
  import opened OfflineStore
  import OneChat
  import OfflineList
  import Store = OfflineStoreThreads

  /** What a node has for itself; friends and stored rows are shared. */
  datatype Node = Node(
    conns: Conns,
    queue: seq<Row>,
    sent: seq<OneChat.Delivery>,
    acked: seq<Row>,
    refusals: nat
  )

  datatype State = State(
    friends: OneChat.Friends,
    table: seq<Row>,
    nodes: seq<Node>,
    lists: OfflineList.State,
    /** History: the messages an inbox callback stored for users absent from its node. */
    forwarded: seq<Row>
  )

  datatype Action =
    /** Chats, new friends, and connections that come and go, at node `n`. */
    | AtDesk(n: nat, step: OneChat.Action)
    /** A forwarded message for a user absent from node `n`: stored, and pushed if Redis is there. */
    | Forward(n: nat, row: Row, pushed: bool, table: seq<Row>, queue: seq<Row>)
    /** The two Redis calls of a login, at any node. */
    | AtLogin(call: OfflineList.Action)

  /** The chat side of node `n`. */
  function DeskOf(s: State, n: nat): OneChat.Desk
    requires n < |s.nodes|
  {
    var node := s.nodes[n];
    OneChat.Desk(s.friends, node.conns, s.table, node.queue, node.sent, node.acked, node.refusals)
  }

  function WithDesk(s: State, n: nat, d: OneChat.Desk): State
    requires n < |s.nodes|
  {
    s.(friends := d.friends,
       table := d.table,
       nodes := s.nodes[n := Node(d.conns, d.queue, d.sent, d.acked, d.refusals)])
  }

  predicate Enabled(s: State, a: Action) {
    match a
    case AtDesk(n, step) => n < |s.nodes| && OneChat.Enabled(DeskOf(s, n), step)
    case Forward(n, row, pushed, table, queue) =>
      && n < |s.nodes| && row.user !in s.nodes[n].conns
      && s.table <= table && table + queue == s.table + s.nodes[n].queue + [row]
    case AtLogin(call) => !call.Push? && OfflineList.Enabled(s.lists, call)
  }

  function Next(s: State, a: Action): State
    requires Enabled(s, a)
  {
    match a
    case AtDesk(n, step) => WithDesk(s, n, OneChat.Next(DeskOf(s, n), step))
    case Forward(n, row, pushed, table, queue) =>
      s.(table := table,
         nodes := s.nodes[n := s.nodes[n].(queue := queue)],
         lists := if pushed then OfflineList.Next(s.lists, OfflineList.Push(row.user, row.text)) else s.lists,
         forwarded := s.forwarded + [row])
    case AtLogin(call) => s.(lists := OfflineList.Next(s.lists, call))
  }

  predicate Valid(s: State, run: seq<Action>)
    decreases |run|
  {
    run == [] || (Enabled(s, run[0]) && Valid(Next(s, run[0]), run[1..]))
  }

  function Exec(s: State, run: seq<Action>): State
    requires Valid(s, run)
    decreases |run|
  {
    if run == [] then s else Exec(Next(s, run[0]), run[1..])
  }

  // ---------- What is stored stays ----------

  /** How often `r` is in a failure queue of the cluster. */
  function Queued(nodes: seq<Node>, r: Row): nat {
    if nodes == [] then 0 else Store.Count(nodes[0].queue, r) + Queued(nodes[1..], r)
  }

  function Stored(s: State, r: Row): nat {
    Store.Count(s.table, r) + Queued(s.nodes, r)
  }

  lemma {:induction false} QueuedUpdate(nodes: seq<Node>, n: nat, node: Node, r: Row)
    requires n < |nodes|
    ensures Queued(nodes[n := node], r) + Store.Count(nodes[n].queue, r)
         == Queued(nodes, r) + Store.Count(node.queue, r)
  {
    if n == 0 {
      assert nodes[n := node][1..] == nodes[1..];
    } else {
      assert nodes[n := node][1..] == nodes[1..][n - 1 := node];
      QueuedUpdate(nodes[1..], n - 1, node, r);
    }
  }

  /** The row a step stores, at whichever node. */
  function StoredBy(s: State, a: Action): seq<Row>
    requires Enabled(s, a)
  {
    match a
    case AtDesk(n, step) => OneChat.StoredBy(DeskOf(s, n), step)
    case Forward(n, row, pushed, table, queue) => [row]
    case AtLogin(call) => []
  }

  lemma {:induction false} CountAppended(
      table: seq<Row>, queue: seq<Row>, table': seq<Row>, queue': seq<Row>, rows: seq<Row>, r: Row)
    requires table' + queue' == table + queue + rows
    ensures Store.Count(table', r) + Store.Count(queue', r)
         == Store.Count(table, r) + Store.Count(queue, r) + Store.Count(rows, r)
  {
    Store.CountIsMultiplicity(table, r);
    Store.CountIsMultiplicity(queue, r);
    Store.CountIsMultiplicity(table', r);
    Store.CountIsMultiplicity(queue', r);
    Store.CountIsMultiplicity(rows, r);
    assert multiset(table' + queue')[r] == multiset(table + queue + rows)[r];
  }

  lemma {:induction false} StoredStep(s: State, a: Action, r: Row)
    requires Enabled(s, a)
    ensures Stored(Next(s, a), r) == Stored(s, r) + Store.Count(StoredBy(s, a), r)
    ensures s.table <= Next(s, a).table
  {
    var s' := Next(s, a);
    if !a.AtLogin? {
      QueuedUpdate(s.nodes, a.n, s'.nodes[a.n], r);
      if a.AtDesk? {
        OneChat.ChatEffect(DeskOf(s, a.n), a.step);
      }
      CountAppended(s.table, s.nodes[a.n].queue, s'.table, s'.nodes[a.n].queue, StoredBy(s, a), r);
    }
  }

  /** Everything the run stores, in order. */
  function StoredLog(s: State, run: seq<Action>): seq<Row>
    requires Valid(s, run)
    decreases |run|
  {
    if run == [] then [] else StoredBy(s, run[0]) + StoredLog(Next(s, run[0]), run[1..])
  }

  /**
   Over every run of chats, forwarded messages and logins, at any nodes: the table and the failure
   queues hold what they held at the start and every message stored since, each as often as it was
   stored, and the table only grows at its end. Nothing ever takes a stored message out.
   */
  lemma {:induction false} StoredMessagesStay(s: State, run: seq<Action>, r: Row)
    requires Valid(s, run)
    ensures Stored(Exec(s, run), r) == Stored(s, r) + Store.Count(StoredLog(s, run), r)
    ensures s.table <= Exec(s, run).table
    decreases |run|
  {
    if run == [] {
    } else {
      StoredStep(s, run[0], r);
      StoredMessagesStay(Next(s, run[0]), run[1..], r);
      var first, rest := StoredBy(s, run[0]), StoredLog(Next(s, run[0]), run[1..]);
      Store.CountIsMultiplicity(first, r);
      Store.CountIsMultiplicity(rest, r);
      Store.CountIsMultiplicity(first + rest, r);
    }
  }

  // ---------- What is handed over ----------

  ghost predicate AllForwarded(messages: seq<string>, u: UserId, forwarded: seq<Row>) {
    forall m :: m in messages ==> Row(u, m) in forwarded
  }

  /** Whatever is in a user's list, read from it or handed over came through an inbox. */
  ghost predicate OnlyForwarded(s: State, u: UserId) {
    var b := OfflineList.BoxOf(s.lists, u);
    && AllForwarded(b.list, u, s.forwarded)
    && AllForwarded(b.handed, u, s.forwarded)
    && (forall t :: t in b.inFlight ==> AllForwarded(b.inFlight[t], u, s.forwarded))
  }

  lemma {:induction false} ReverseHasTheSame(l: seq<string>, m: string)
    ensures m in OfflineList.Reverse(l) <==> m in l
  {
    if l == [] {
    } else {
      ReverseHasTheSame(l[1..], m);
      assert l == [l[0]] + l[1..];
    }
  }

  lemma {:induction false} OnlyForwardedStep(s: State, a: Action, u: UserId)
    requires OnlyForwarded(s, u) && Enabled(s, a)
    ensures OnlyForwarded(Next(s, a), u)
  {
    var b := OfflineList.BoxOf(s.lists, u);
    if a.AtLogin? && a.call.Del? && a.call.u == u {
      forall m | m in OfflineList.Reverse(b.inFlight[a.call.t]) ensures Row(u, m) in s.forwarded {
        ReverseHasTheSame(b.inFlight[a.call.t], m);
      }
    } else if a.Forward? {
      assert Row(a.row.user, a.row.text) == a.row;
    }
  }

  lemma {:induction false} OnlyForwardedRun(s: State, run: seq<Action>, u: UserId)
    requires Valid(s, run) && OnlyForwarded(s, u)
    ensures OnlyForwarded(Exec(s, run), u)
    decreases |run|
  {
    if run == [] {
    } else {
      OnlyForwardedStep(s, run[0], u);
      OnlyForwardedRun(Next(s, run[0]), run[1..], u);
    }
  }

  /** The messages a run pushes to the list of `u`, in order. */
  function PushLog(s: State, run: seq<Action>, u: UserId): seq<string>
    requires Valid(s, run)
    decreases |run|
  {
    if run == [] then []
    else
      (if run[0].Forward? && run[0].pushed && run[0].row.user == u then [run[0].row.text] else [])
      + PushLog(Next(s, run[0]), run[1..], u)
  }

  /** Every forwarded message is pushed to the list of its own recipient, unless Redis fails. */
  lemma {:induction false} ForwardedArePushed(s: State, run: seq<Action>, u: UserId)
    requires Valid(s, run)
    ensures OfflineList.BoxOf(Exec(s, run).lists, u).pushed == OfflineList.BoxOf(s.lists, u).pushed + PushLog(s, run, u)
    decreases |run|
  {
    if run == [] {
    } else {
      var a := run[0];
      var first := if a.Forward? && a.pushed && a.row.user == u then [a.row.text] else [];
      assert OfflineList.BoxOf(Next(s, a).lists, u).pushed == OfflineList.BoxOf(s.lists, u).pushed + first;
      ForwardedArePushed(Next(s, a), run[1..], u);
      ThenAppend(OfflineList.BoxOf(s.lists, u).pushed, first, PushLog(Next(s, a), run[1..], u));
    }
  }

  /** No list has anything in it, and nothing has been forwarded. */
  predicate Initial(s: State) {
    s.lists == map[] && s.forwarded == []
  }

  /**
   Over every such run, from empty lists, a login at any node hands over forwarded messages only:
   nothing that `oneChat` alone has stored.
   */
  lemma {:induction false} StoredChatsAreNeverHandedOver(s: State, run: seq<Action>, u: UserId, m: string)
    requires Initial(s) && Valid(s, run)
    ensures m in OfflineList.BoxOf(Exec(s, run).lists, u).handed ==> Row(u, m) in Exec(s, run).forwarded
  {
    OnlyForwardedRun(s, run, u);
  }

  lemma {:induction false} NothingForwarded(s: State, run: seq<Action>)
    requires Valid(s, run) && forall a :: a in run ==> !a.Forward?
    ensures Exec(s, run).forwarded == s.forwarded
    decreases |run|
  {
    if run == [] {
    } else {
      assert run[0] in run;
      NothingForwarded(Next(s, run[0]), run[1..]);
    }
  }

  /** No part of the server publishes to a node's inbox; without that a login hands over nothing. */
  lemma {:induction false} NothingIsHandedOver(s: State, run: seq<Action>, u: UserId)
    requires Initial(s) && Valid(s, run) && forall a :: a in run ==> !a.Forward?
    ensures OfflineList.BoxOf(Exec(s, run).lists, u).handed == []
  {
    OnlyForwardedRun(s, run, u);
    var handed := OfflineList.BoxOf(Exec(s, run).lists, u).handed;
    assert |handed| > 0 ==> Row(u, handed[0]) in Exec(s, run).forwarded;
    NothingForwarded(s, run);
  }
}
