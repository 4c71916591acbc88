/**
 One-to-one chat: the friend table with its one row per pair, the gate `oneChat` puts in
 front of delivery, and where each acknowledged message ends up.
 */
module OneChat {

  import opened ChatTypes
  import opened OfflineStore

  type Friends = set<(UserId, UserId)>

  /** The row `FriendModel::insert` writes: the smaller id first. */
  function Canonical(a: UserId, b: UserId): (UserId, UserId) {
    if a < b then (a, b) else (b, a)
  }

  predicate Ordered(friends: Friends) {
    forall p :: p in friends ==> p.0 <= p.1
  }

  class FriendModel {
    var rows: Friends

    constructor ()
      ensures rows == {}
    {
      rows := {};
    }

    method Insert(userid: UserId, friendid: UserId, reply: Reply)
      modifies this
      ensures rows == if reply.Done? then old(rows) + {Canonical(userid, friendid)} else old(rows)
    {
      if reply.NoConn? || reply.Failed? { return; }
      if userid < friendid {
        rows := rows + {(userid, friendid)};
      } else {
        rows := rows + {(friendid, userid)};
      }
    }

    /** The friends found for `userid`: only rows that have it on the left are read. */
    method Query(userid: UserId, reply: Reply) returns (v: seq<UserId>)
      ensures forall f :: f in v <==> reply.Done? && (userid, f) in rows
      ensures forall i, j :: 0 <= i < j < |v| ==> v[i] != v[j]
    {
      v := [];
      if reply.NoConn? || reply.Failed? { return; }
      var todo := rows;
      while todo != {}
        invariant todo <= rows
        invariant forall f :: f in v <==> (userid, f) in rows - todo
        invariant forall i, j :: 0 <= i < j < |v| ==> v[i] != v[j]
        decreases todo
      {
        var p := Pick(todo);
        todo := todo - {p};
        if p.0 == userid {
          assert p == (userid, p.1);
          v := v + [p.1];
        }
      }
    }
  }

  /** The fields of a chat message that `oneChat` looks at; `raw` is the message as dumped. */
  datatype Request = Request(raw: string, msg: Option<string>, id: Option<UserId>, to: Option<UserId>)

  datatype Delivery = Delivery(conn: ConnId, row: Row)

  datatype Verdict = Drop | Refuse | Pass(row: Row)

  function Judge(friends: Friends, req: Request, reply: Reply): Verdict {
    if req.msg.None? || req.msg.value == "" then Drop
    else if req.id.None? || req.to.None? then Refuse
    else if reply.Done? && (req.id.value, req.to.value) in friends then Pass(Row(req.to.value, req.raw))
    else Refuse
  }

  /** The chat side of a node: tables, connections, and what has been sent and acknowledged. */
  datatype Desk = Desk(
    friends: Friends,
    conns: Conns,
    table: seq<Row>,
    queue: seq<Row>,
    sent: seq<Delivery>,
    /** The messages acknowledged with errno 0. */
    acked: seq<Row>,
    refusals: nat
  )

  datatype Action =
    | AddFriend(a: UserId, b: UserId, reply: Reply)
    /** A message; the offline store ends up as `table` and `queue`. */
    | Chat(req: Request, reply: Reply, table: seq<Row>, queue: seq<Row>)
    /** Logins and logouts leave the connection map as `conns`. */
    | Reconnect(conns: Conns)

  predicate Enabled(s: Desk, a: Action) {
    a.Chat? ==>
      var verdict := Judge(s.friends, a.req, a.reply);
      if verdict.Pass? && verdict.row.user !in s.conns
      then s.table <= a.table && a.table + a.queue == s.table + s.queue + [verdict.row]
      else a.table == s.table && a.queue == s.queue
  }

  function Next(s: Desk, a: Action): Desk
    requires Enabled(s, a)
  {
    match a
    case AddFriend(x, y, reply) =>
      if reply.Done? then s.(friends := s.friends + {Canonical(x, y)}) else s
    case Chat(req, reply, table, queue) =>
      (match Judge(s.friends, req, reply)
       case Drop => s
       case Refuse => s.(refusals := s.refusals + 1)
       case Pass(row) =>
         s.(table := table, queue := queue, acked := s.acked + [row],
            sent := if row.user in s.conns then s.sent + [Delivery(s.conns[row.user], row)] else s.sent))
    case Reconnect(conns) => s.(conns := conns)
  }

  // ---------- What a request asks for, read off the request ----------

  predicate Dropped(req: Request) {
    req.msg.None? || req.msg.value == ""
  }

  /** The message has all its fields, the lookup works, and the recipient is among the sender's rows. */
  predicate Passes(friends: Friends, req: Request, reply: Reply) {
    && !Dropped(req) && req.id.Some? && req.to.Some?
    && reply.Done? && (req.id.value, req.to.value) in friends
  }

  predicate IsPassing(s: Desk, a: Action) {
    a.Chat? && Passes(s.friends, a.req, a.reply)
  }

  /** The message as dumped, for the user it names as its recipient. */
  function Addressed(req: Request): Row
    requires req.to.Some?
  {
    Row(req.to.value, req.raw)
  }

  function AckedBy(s: Desk, a: Action): seq<Row> {
    if IsPassing(s, a) then [Addressed(a.req)] else []
  }

  function SentBy(s: Desk, a: Action): seq<Delivery> {
    if IsPassing(s, a) && a.req.to.value in s.conns
    then [Delivery(s.conns[a.req.to.value], Addressed(a.req))] else []
  }

  function StoredBy(s: Desk, a: Action): seq<Row> {
    if IsPassing(s, a) && a.req.to.value !in s.conns then [Addressed(a.req)] else []
  }

  /** One step, told from the request: who is acknowledged, who receives what, and what is stored for whom. */
  lemma {:induction false} ChatEffect(s: Desk, a: Action)
    requires Enabled(s, a)
    ensures var s' := Next(s, a);
      && s'.acked == s.acked + AckedBy(s, a)
      && s'.sent == s.sent + SentBy(s, a)
      && s'.table + s'.queue == s.table + s.queue + StoredBy(s, a)
      && s.table <= s'.table
      && s'.refusals == s.refusals + One(a.Chat? && !Dropped(a.req) && !IsPassing(s, a))
      && s'.conns == (if a.Reconnect? then a.conns else s.conns)
      && (!a.AddFriend? ==> s'.friends == s.friends)
  {
  }

  class ChatDesk {
    const friendModel: FriendModel
    const offlineMsgModel: OfflineMessage
    var userConnMap: Conns
    var sent: seq<Delivery>
    var acked: seq<Row>
    var refusals: nat

    constructor (friendModel: FriendModel, offlineMsgModel: OfflineMessage)
      ensures this.friendModel == friendModel && this.offlineMsgModel == offlineMsgModel
      ensures userConnMap == map[] && sent == [] && acked == [] && refusals == 0
    {
      this.friendModel, this.offlineMsgModel := friendModel, offlineMsgModel;
      userConnMap, sent, acked, refusals := map[], [], [], 0;
    }

    ghost function View(): Desk
      reads this, friendModel, offlineMsgModel
    {
      Desk(friendModel.rows, userConnMap, offlineMsgModel.table, offlineMsgModel.failedQueue, sent, acked, refusals)
    }

    method AddFriend(userid: UserId, friendid: UserId, reply: Reply)
      modifies friendModel
      ensures View() == Next(old(View()), Action.AddFriend(userid, friendid, reply))
    {
      friendModel.Insert(userid, friendid, reply);
    }

    /** `oneChat`; `env` is what the database does if the message has to be stored. */
    method OneChat(req: Request, reply: Reply, env: seq<Outcome>)
      modifies this, offlineMsgModel
      ensures var a := Chat(req, reply, offlineMsgModel.table, offlineMsgModel.failedQueue);
        Enabled(old(View()), a) && View() == Next(old(View()), a)
      ensures var a := Chat(req, reply, offlineMsgModel.table, offlineMsgModel.failedQueue);
        && acked == old(acked) + AckedBy(old(View()), a)
        && sent == old(sent) + SentBy(old(View()), a)
        && offlineMsgModel.table + offlineMsgModel.failedQueue
           == old(offlineMsgModel.table + offlineMsgModel.failedQueue) + StoredBy(old(View()), a)
        && refusals == old(refusals) + One(!Dropped(req) && !Passes(friendModel.rows, req, reply))
    {
      if req.msg.None? || req.msg.value == "" { return; }
      if req.id.None? || req.to.None? {
        refusals := refusals + 1;
        return;
      }
      var isFriend := false;
      var friends := friendModel.Query(req.id.value, reply);
      var i := 0;
      while i < |friends| && !isFriend
        invariant 0 <= i <= |friends|
        invariant isFriend <==> req.to.value in friends[..i]
      {
        if friends[i] == req.to.value {
          isFriend := true;
        }
        i := i + 1;
      }
      assert isFriend <==> req.to.value in friends by {
        assert i == |friends| ==> friends[..i] == friends;
      }
      if !isFriend {
        refusals := refusals + 1;
        return;
      }
      var row := Row(req.to.value, req.raw);
      acked := acked + [row];
      if req.to.value in userConnMap {
        sent := sent + [Delivery(userConnMap[req.to.value], row)];
        return;
      }
      var _, _ := offlineMsgModel.Insert(row, env);
    }
  }

  // ---------- Over whole runs ----------

  predicate Valid(s: Desk, run: seq<Action>)
    decreases |run|
  {
    run == [] || (Enabled(s, run[0]) && Valid(Next(s, run[0]), run[1..]))
  }

  function Exec(s: Desk, run: seq<Action>): Desk
    requires Valid(s, run)
    decreases |run|
  {
    if run == [] then s else Exec(Next(s, run[0]), run[1..])
  }

  function Rows(sent: seq<Delivery>): seq<Row> {
    seq(|sent|, i requires 0 <= i < |sent| => sent[i].row)
  }

  function AckLog(s: Desk, run: seq<Action>): seq<Row>
    requires Valid(s, run)
    decreases |run|
  {
    if run == [] then [] else AckedBy(s, run[0]) + AckLog(Next(s, run[0]), run[1..])
  }

  function SentLog(s: Desk, run: seq<Action>): seq<Delivery>
    requires Valid(s, run)
    decreases |run|
  {
    if run == [] then [] else SentBy(s, run[0]) + SentLog(Next(s, run[0]), run[1..])
  }

  function StoreLog(s: Desk, run: seq<Action>): seq<Row>
    requires Valid(s, run)
    decreases |run|
  {
    if run == [] then [] else StoredBy(s, run[0]) + StoreLog(Next(s, run[0]), run[1..])
  }

  /**
   Over every run, the messages sent, stored and acknowledged are exactly those of the passing
   requests, in order: each for the recipient its request names, with the request's own text, on
   the connection the recipient had at that step, and stored only if it had none.
   */
  lemma {:induction false} DeliveredAsAddressed(s: Desk, run: seq<Action>)
    requires Valid(s, run)
    ensures var e := Exec(s, run);
      && e.acked == s.acked + AckLog(s, run)
      && e.sent == s.sent + SentLog(s, run)
      && e.table + e.queue == s.table + s.queue + StoreLog(s, run)
    decreases |run|
  {
    if run == [] {
    } else {
      var s', rest := Next(s, run[0]), run[1..];
      ChatEffect(s, run[0]);
      DeliveredAsAddressed(s', rest);
      ThenAppend(s.acked, AckedBy(s, run[0]), AckLog(s', rest));
      ThenAppend(s.sent, SentBy(s, run[0]), SentLog(s', rest));
      ThenAppend(s.table + s.queue, StoredBy(s, run[0]), StoreLog(s', rest));
    }
  }

  /** What was stored at the start and every acknowledged message: sent or stored, never both. */
  ghost predicate Accounted(s: Desk, earlier: seq<Row>) {
    multiset(earlier) + multiset(s.acked) == multiset(Rows(s.sent)) + multiset(s.table + s.queue)
  }

  lemma {:induction false} AccountedStep(s: Desk, a: Action, earlier: seq<Row>)
    requires Accounted(s, earlier) && Enabled(s, a)
    ensures Accounted(Next(s, a), earlier)
  {
    var s' := Next(s, a);
    if a.Chat? && Judge(s.friends, a.req, a.reply).Pass? {
      var row := Judge(s.friends, a.req, a.reply).row;
      var total := multiset(earlier) + multiset(s.acked);
      assert multiset(earlier) + multiset(s'.acked) == total + multiset{row};
      if row.user in s.conns {
        assert Rows(s'.sent) == Rows(s.sent) + [row];
      } else {
        assert s'.table + s'.queue == (s.table + s.queue) + [row];
        assert multiset(s'.table + s'.queue) == multiset(s.table + s.queue) + multiset{row};
      }
    }
  }

  lemma {:induction false} AccountedRun(s: Desk, run: seq<Action>, earlier: seq<Row>)
    requires Accounted(s, earlier) && Valid(s, run)
    ensures Accounted(Exec(s, run), earlier)
    decreases |run|
  {
    if run == [] {
    } else {
      AccountedStep(s, run[0], earlier);
      AccountedRun(Next(s, run[0]), run[1..], earlier);
    }
  }

  /**
   Over every run, the messages acknowledged with errno 0 are those sent plus those that
   joined the table and the failure queue, counted with multiplicity: calls whose insert gave
   up included, dropped and refused messages in neither place.
   */
  lemma {:induction false} ChatConservesMessages(
      friends: Friends, conns: Conns, table: seq<Row>, queue: seq<Row>, run: seq<Action>)
    requires Valid(Desk(friends, conns, table, queue, [], [], 0), run)
    ensures var s := Exec(Desk(friends, conns, table, queue, [], [], 0), run);
      multiset(table + queue) + multiset(s.acked) == multiset(Rows(s.sent)) + multiset(s.table + s.queue)
  {
    AccountedRun(Desk(friends, conns, table, queue, [], [], 0), run, table + queue);
  }

  /** `a` and `b` were friends at the start or some step of the run made them so. */
  ghost predicate Befriended(friends: Friends, run: seq<Action>, a: UserId, b: UserId) {
    || (a, b) in friends || (b, a) in friends
    || Action.AddFriend(a, b, Done) in run || Action.AddFriend(b, a, Done) in run
  }

  /** Both orders of the arguments have the same effect on the table. */
  lemma {:induction false} InsertIsSymmetric(s: Desk, a: UserId, b: UserId, reply: Reply)
    ensures Next(s, Action.AddFriend(a, b, reply)) == Next(s, Action.AddFriend(b, a, reply))
  {
  }

  lemma {:induction false} FriendTableRun(s: Desk, run: seq<Action>, a: UserId, b: UserId)
    requires Ordered(s.friends) && Valid(s, run)
    ensures Ordered(Exec(s, run).friends)
    ensures (a, b) in Exec(s, run).friends <==> a <= b && Befriended(s.friends, run, a, b)
    decreases |run|
  {
    if run == [] {
    } else {
      var s' := Next(s, run[0]);
      FriendTableRun(s', run[1..], a, b);
      assert run == [run[0]] + run[1..];
    }
  }

  /**
   The gate, exactly: after any run from an ordered table, a well-formed message from `a` to
   `b` passes if and only if the lookup succeeds, the two were made friends at some point, and
   `a` is not the larger id. Between distinct friends one direction is always refused.
   */
  lemma {:induction false} GateOpensOneWay(s: Desk, run: seq<Action>, req: Request, reply: Reply)
    requires Ordered(s.friends) && Valid(s, run)
    requires req.msg.Some? && req.msg.value != "" && req.id.Some? && req.to.Some?
    ensures Judge(Exec(s, run).friends, req, reply).Pass? <==>
      reply.Done? && req.id.value <= req.to.value && Befriended(s.friends, run, req.id.value, req.to.value)
  {
    FriendTableRun(s, run, req.id.value, req.to.value);
  }

  /** Two friends, whoever added the other: the smaller id gets through, the larger is refused. */
  lemma {:induction false} LargerFriendIsRefused(s: Desk, a: UserId, b: UserId, text: string)
    requires Ordered(s.friends) && a < b && text != ""
    ensures var s' := Next(s, Action.AddFriend(b, a, Done));
      && Judge(s'.friends, Request(text, Some(text), Some(a), Some(b)), Done).Pass?
      && Judge(s'.friends, Request(text, Some(text), Some(b), Some(a)), Done).Refuse?
  {
    var befriend := Action.AddFriend(b, a, Done);
    assert [befriend][1..] == [];
    assert Exec(s, [befriend]) == Next(s, befriend);
    GateOpensOneWay(s, [befriend], Request(text, Some(text), Some(a), Some(b)), Done);
    GateOpensOneWay(s, [befriend], Request(text, Some(text), Some(b), Some(a)), Done);
  }

  /** Nothing is delivered or stored for two ids that were never made friends. */
  lemma {:induction false} OnlyFriendsReachEachOther(s: Desk, run: seq<Action>, a: Action)
    requires Ordered(s.friends) && Valid(s, run) && Enabled(Exec(s, run), a) && a.Chat?
    ensures var before, after := Exec(s, run), Next(Exec(s, run), a);
      after.sent != before.sent || after.table + after.queue != before.table + before.queue ==>
        a.req.id.Some? && a.req.to.Some? && Befriended(s.friends, run, a.req.id.value, a.req.to.value)
  {
    if a.req.msg.Some? && a.req.msg.value != "" && a.req.id.Some? && a.req.to.Some? {
      GateOpensOneWay(s, run, a.req, a.reply);
    }
  }
}
