/**
 The handlers of `ChatService` that change `userConnMap_` and `groupMembers_`, as methods of
 a class, the sessions they implement over whole runs, and the local fan-out of group
 messages.
 */
module ChatNode {

  import opened ChatTypes
  import opened Subscription
  import NodeSystem
  import Presence

  datatype Send = Send(to: UserId, conn: ConnId, msg: string)

  function EraseEverywhere(members: Members, id: UserId): Members {
    map g | g in members :: members[g] - {id}
  }

  /** `id` is erased from every group but those in `todo`, where `before` still stands. */
  ghost predicate ErasedExcept(members: Members, before: Members, id: UserId, todo: set<GroupId>) {
    && members.Keys == before.Keys
    && forall g :: g in members ==> members[g] == if g in todo then before[g] else before[g] - {id}
  }

  lemma {:induction false} ErasedVisit(members: Members, before: Members, id: UserId, todo: set<GroupId>, g: GroupId)
    requires ErasedExcept(members, before, id, todo) && g in todo && g in members
    ensures ErasedExcept(members[g := members[g] - {id}], before, id, todo - {g})
    ensures members[g] - {id} == EraseEverywhere(before, id)[g]
  {
  }

  lemma {:induction false} ErasedAll(members: Members, before: Members, id: UserId)
    requires ErasedExcept(members, before, id, {})
    ensures members == EraseEverywhere(before, id)
  {
    assert forall g :: g in members ==> members[g] == EraseEverywhere(before, id)[g];
  }

  function Ids(users: seq<UserId>): set<UserId> {
    set u | u in users
  }

  function IdsOn(conns: Conns, c: ConnId): set<UserId> {
    set id | id in conns && conns[id] == c
  }

  /** The members after `login` has gone through the groups of `id`. */
  function LoggedInGroups(members: Members, id: UserId, groups: seq<(GroupId, seq<UserId>)>): Members
    decreases |groups|
  {
    if groups == [] then members
    else
      var (g, users) := groups[0];
      LoggedInGroups(WithMembers(members, g, if id in users then {id} else {}), id, groups[1..])
  }

  /** The task queue after the subscribe calls of `login`. */
  function LoginTasks(subscribed: set<GroupId>, queue: seq<Task>, groups: seq<(GroupId, seq<UserId>)>): seq<Task>
    decreases |groups|
  {
    if groups == [] then queue
    else LoginTasks(subscribed, AfterSubscribe(subscribed, queue, groups[0].0), groups[1..])
  }

  /** `id` becomes a member of exactly the listed groups that name it; nobody else moves. */
  lemma {:induction false} LoginJoinsListedGroups(
      members: Members, id: UserId, groups: seq<(GroupId, seq<UserId>)>, g: GroupId)
    ensures MembersOf(LoggedInGroups(members, id, groups), g)
         == MembersOf(members, g) + if exists e :: e in groups && e.0 == g && id in e.1 then {id} else {}
    decreases |groups|
  {
    if groups == [] {
    } else {
      var (h, users) := groups[0];
      LoginJoinsListedGroups(WithMembers(members, h, if id in users then {id} else {}), id, groups[1..], g);
      assert groups == [groups[0]] + groups[1..];
    }
  }

  function Listed(groups: seq<(GroupId, seq<UserId>)>): set<GroupId> {
    set e | e in groups :: e.0
  }

  /** Every listed group has an entry afterwards, with or without members; no entry goes away. */
  lemma {:induction false} LoginMakesEntries(members: Members, id: UserId, groups: seq<(GroupId, seq<UserId>)>)
    ensures LoggedInGroups(members, id, groups).Keys == members.Keys + Listed(groups)
    decreases |groups|
  {
    if groups == [] {
    } else {
      var (g, users) := groups[0];
      LoginMakesEntries(WithMembers(members, g, if id in users then {id} else {}), id, groups[1..]);
      assert groups == [groups[0]] + groups[1..];
      assert Listed(groups) == {g} + Listed(groups[1..]);
    }
  }

  /** Every listed group that is not yet subscribed is asked for, after what was queued before. */
  lemma {:induction false} LoginAsksForListedGroups(
      subscribed: set<GroupId>, queue: seq<Task>, groups: seq<(GroupId, seq<UserId>)>)
    ensures queue <= LoginTasks(subscribed, queue, groups)
    ensures forall g ::
      LastTask(LoginTasks(subscribed, queue, groups), g) ==
      if g in Listed(groups) && g !in subscribed then Some(Subscribe(g)) else LastTask(queue, g)
    decreases |groups|
  {
    if groups == [] {
    } else {
      var g0 := groups[0].0;
      var queue' := AfterSubscribe(subscribed, queue, g0);
      forall g
        ensures LastTask(queue', g) == if g == g0 && g !in subscribed then Some(Subscribe(g)) else LastTask(queue, g)
      {
        if g0 !in subscribed {
          assert queue'[..|queue'| - 1] == queue;
        }
      }
      LoginAsksForListedGroups(subscribed, queue', groups[1..]);
      assert groups == [groups[0]] + groups[1..];
      assert Listed(groups) == {g0} + Listed(groups[1..]);
    }
  }

  /** The round as far as it has got, with the groups in `todo` still to visit. */
  ghost predicate IsPartOfRound(tasks: seq<Task>, members: Members, subscribed: set<GroupId>, todo: set<GroupId>) {
    && (forall t :: t in tasks ==>
          t.Unsubscribe? && t.gid !in todo && PresentButEmpty(members, t.gid) && t.gid in subscribed)
    && (forall g :: PresentButEmpty(members, g) && g in subscribed && g !in todo ==> Unsubscribe(g) in tasks)
    && (forall i, j :: 0 <= i < j < |tasks| ==> tasks[i] != tasks[j])
  }

  /** The unsubscribe requests of one leaver, in whatever order the map is walked. */
  ghost predicate IsUnsubscribeRound(tasks: seq<Task>, members: Members, subscribed: set<GroupId>) {
    IsPartOfRound(tasks, members, subscribed, {})
  }

  /** The queue after a leaver: what was there, then its round. */
  ghost predicate AppendsRound(before: seq<Task>, after: seq<Task>, members: Members, subscribed: set<GroupId>) {
    before <= after && IsUnsubscribeRound(after[|before|..], members, subscribed)
  }

  lemma {:induction false} RoundVisit(
      tasks: seq<Task>, members: Members, subscribed: set<GroupId>, todo: set<GroupId>, g: GroupId)
    requires IsPartOfRound(tasks, members, subscribed, todo) && g in todo
    ensures IsPartOfRound(
      if PresentButEmpty(members, g) && g in subscribed then tasks + [Unsubscribe(g)] else tasks,
      members, subscribed, todo - {g})
  {
    assert Unsubscribe(g) !in tasks;
  }

  /** A leaver's round takes exactly the empty groups out of the subscribed ones. */
  lemma {:induction false} RoundDrains(round: seq<Task>, members: Members, subscribed: set<GroupId>, g: GroupId)
    requires IsUnsubscribeRound(round, members, subscribed)
    ensures g in Drain(subscribed, round) <==> g in subscribed && !PresentButEmpty(members, g)
  {
    assert forall i :: 0 <= i < |round| ==> round[i] in round;
    DrainIsLastTaskWins(subscribed, round, g);
    if g in subscribed && PresentButEmpty(members, g) {
      assert Unsubscribe(g) in round && Concerns(Unsubscribe(g), g);
    }
  }

  /** What one group message must send: one copy to each member found connected. */
  function FanOut(members: set<UserId>, connsAt: UserId -> Conns, msg: string): set<Send> {
    set u | u in members && u in connsAt(u) :: Send(u, connsAt(u)[u], msg)
  }

  // ---------- Sessions ----------

  datatype Session = Session(conns: Conns, members: Members, open: set<ConnId>, everOpened: set<ConnId>)

  datatype Event =
    | Open(c: ConnId)
    | Login(id: UserId, c: ConnId, groups: seq<(GroupId, seq<UserId>)>)
    | LogOut(id: UserId)
    | Join(id: UserId, g: GroupId)
    | Load(g: GroupId, ids: set<UserId>)
    /** The connection closes; `victim` is the entry the handler's scan finds first. */
    | Close(c: ConnId, victim: Option<UserId>)

  const FRESH := Session(map[], map[], {}, {})

  predicate Possible(s: Session, e: Event) {
    match e
    case Open(c) => c !in s.everOpened
    case Login(id, c, groups) => c in s.open
    case LogOut(id) => true
    case Join(id, g) => true
    case Load(g, ids) => g !in s.members
    case Close(c, victim) =>
      c in s.open && if victim.Some? then victim.value in IdsOn(s.conns, c) else IdsOn(s.conns, c) == {}
  }

  function After(s: Session, e: Event): Session
    requires Possible(s, e)
  {
    match e
    case Open(c) => s.(open := s.open + {c}, everOpened := s.everOpened + {c})
    case Login(id, c, groups) =>
      s.(conns := if id in s.conns then s.conns else s.conns[id := c],
         members := LoggedInGroups(s.members, id, groups))
    case LogOut(id) => s.(conns := s.conns - {id}, members := EraseEverywhere(s.members, id))
    case Join(id, g) => s.(members := WithMembers(s.members, g, {id}))
    case Load(g, ids) => s.(members := if ids == {} then s.members else WithMembers(s.members, g, ids))
    case Close(c, victim) =>
      var s' := s.(open := s.open - {c});
      if victim.None? then s'
      else s'.(conns := s.conns - {victim.value},
               members := if victim.value == NOBODY then s.members else EraseEverywhere(s.members, victim.value))
  }

  // ---------- The handlers ----------

  /**
   The handlers one at a time, over the fields they share. Each contract says which event of the
   sessions above the call is (`Snapshot`), and which step of the presence system (`Cluster`),
   whatever the maps of the other nodes.
   */
  class ChatService {
    var userConnMap: Conns
    var groupMembers: Members
    const redis: RedisClient
    const presenceApi: Presence.PresenceApi
    /** The connections that are open, and those that ever were. */
    ghost var open: set<ConnId>
    ghost var everOpened: set<ConnId>

    constructor (redis: RedisClient, presenceApi: Presence.PresenceApi)
      ensures this.redis == redis && this.presenceApi == presenceApi && Snapshot() == FRESH
    {
      this.redis, this.presenceApi := redis, presenceApi;
      userConnMap, groupMembers, open, everOpened := map[], map[], {}, {};
    }

    ghost function Snapshot(): Session
      reads this
    {
      Session(userConnMap, groupMembers, open, everOpened)
    }

    ghost function Cluster(others: map<Presence.NodeId, Conns>): Presence.State
      reads this, presenceApi
    {
      Presence.State(others[presenceApi.localNodeId := userConnMap], presenceApi.presence)
    }

    /** A client connects: no handler runs, and the connection is a new object. */
    ghost method Connected(conn: ConnId)
      requires Possible(Snapshot(), Open(conn))
      modifies this
      ensures Snapshot() == After(old(Snapshot()), Open(conn))
    {
      open, everOpened := open + {conn}, everOpened + {conn};
    }

    /**
     `login` once the password has been checked: `groups` is what `queryGroups(id)` returns,
     `readOk` and `writes` what Redis does for the presence calls.
     */
    method Login(id: UserId, conn: ConnId, groups: seq<(GroupId, seq<UserId>)>, readOk: bool, writes: nat)
        returns (accepted: bool)
      requires Possible(Snapshot(), Event.Login(id, conn, groups))
      modifies this, presenceApi, redis`subTasks
      ensures accepted <==> !(readOk && Presence.EntryIn(old(presenceApi.presence), id).online)
      ensures Snapshot() ==
        if accepted then After(old(Snapshot()), Event.Login(id, conn, groups)) else old(Snapshot())
      ensures forall others ::
        Cluster(others) ==
        Presence.Next(old(Cluster(others)), Presence.Login(presenceApi.localNodeId, id, conn, readOk, writes))
      ensures redis.subTasks ==
        if accepted then LoginTasks(redis.subGroupSet, old(redis.subTasks), groups) else old(redis.subTasks)
    {
      var online := presenceApi.IsUserOnline(id, readOk);
      if online { return false; }
      if id !in userConnMap {
        userConnMap := userConnMap[id := conn];
      }
      presenceApi.SetUserOnline(id, conn, writes);
      LoginGroups(id, groups);
      return true;
    }

    /** The group part of `login`; `groups` is what `queryGroups(id)` returned. */
    method LoginGroups(id: UserId, groups: seq<(GroupId, seq<UserId>)>)
      modifies this`groupMembers, redis`subTasks
      ensures groupMembers == LoggedInGroups(old(groupMembers), id, groups)
      ensures redis.subTasks == LoginTasks(redis.subGroupSet, old(redis.subTasks), groups)
    {
      var k := 0;
      while k < |groups|
        invariant 0 <= k <= |groups|
        invariant LoggedInGroups(groupMembers, id, groups[k..]) == LoggedInGroups(old(groupMembers), id, groups)
        invariant LoginTasks(redis.subGroupSet, redis.subTasks, groups[k..])
               == LoginTasks(redis.subGroupSet, old(redis.subTasks), groups)
      {
        assert groups[k..][1..] == groups[k + 1..];
        var (g, users) := groups[k];
        groupMembers := WithMembers(groupMembers, g, if id in users then {id} else {});
        redis.SubscribeGroupChannel(g);
        k := k + 1;
      }
    }

    /** `joinGroup`, and `createGroup` once the group has its id. */
    method JoinGroup(id: UserId, g: GroupId)
      modifies this`groupMembers, redis`subTasks
      ensures Snapshot() == After(old(Snapshot()), Join(id, g))
      ensures forall h, u :: u in MembersOf(groupMembers, h) <==>
        u in MembersOf(old(groupMembers), h) || (h == g && u == id)
      ensures redis.subTasks == AfterSubscribe(redis.subGroupSet, old(redis.subTasks), g)
    {
      groupMembers := WithMembers(groupMembers, g, {id});
      redis.SubscribeGroupChannel(g);
    }

    /** The membership fallback of `groupChat`; `users` is what `queryGroupUsers` returned. */
    method LoadMembers(g: GroupId, users: seq<UserId>)
      modifies this`groupMembers, redis`subTasks
      ensures g in old(groupMembers) ==>
        Snapshot() == old(Snapshot()) && redis.subTasks == old(redis.subTasks)
      ensures g !in old(groupMembers) ==>
        && Snapshot() == After(old(Snapshot()), Load(g, Ids(users)))
        && redis.subTasks == AfterSubscribe(redis.subGroupSet, old(redis.subTasks), g)
    {
      if g in groupMembers { return; }
      for i := 0 to |users|
        invariant redis.subTasks == old(redis.subTasks)
        invariant groupMembers == if i == 0 then old(groupMembers)
                                  else WithMembers(old(groupMembers), g, Ids(users[..i]))
      {
        assert users[..i + 1] == users[..i] + [users[i]];
        assert Ids(users[..i + 1]) == Ids(users[..i]) + {users[i]};
        assert MembersOf(groupMembers, g) + {users[i]} == {} + Ids(users[..i + 1]);
        groupMembers := WithMembers(groupMembers, g, {users[i]});
      }
      assert users[..|users|] == users;
      assert users != [] ==> users[0] in Ids(users);
      redis.SubscribeGroupChannel(g);
    }

    /** One group of the loop below. */
    method EraseFromGroup(id: UserId, g: GroupId)
      requires g in groupMembers
      modifies this`groupMembers, redis`subTasks
      ensures groupMembers == old(groupMembers)[g := old(groupMembers)[g] - {id}]
      ensures redis.subTasks == if old(groupMembers)[g] - {id} == {}
                                then AfterUnsubscribe(redis.subGroupSet, old(redis.subTasks), g)
                                else old(redis.subTasks)
    {
      groupMembers := groupMembers[g := groupMembers[g] - {id}];
      if groupMembers[g] == {} {
        redis.UnsubscribeGroupChannel(g);
      }
    }

    /** The loop `loginOut` and `clientQuitEcption` share: erase `id`, unsubscribe empty groups. */
    method EraseFromGroups(id: UserId)
      modifies this`groupMembers, redis`subTasks
      ensures groupMembers == EraseEverywhere(old(groupMembers), id)
      ensures AppendsRound(old(redis.subTasks), redis.subTasks, groupMembers, redis.subGroupSet)
    {
      ghost var start, goal := redis.subTasks, EraseEverywhere(groupMembers, id);
      ghost var round: seq<Task> := [];
      var todo := groupMembers.Keys;
      while todo != {}
        invariant todo <= groupMembers.Keys
        invariant ErasedExcept(groupMembers, old(groupMembers), id, todo)
        invariant redis.subTasks == start + round
        invariant IsPartOfRound(round, goal, redis.subGroupSet, todo)
        decreases todo
      {
        var g := Pick(todo);
        RoundVisit(round, goal, redis.subGroupSet, todo, g);
        ErasedVisit(groupMembers, old(groupMembers), id, todo, g);
        EraseFromGroup(id, g);
        if PresentButEmpty(goal, g) && g in redis.subGroupSet {
          assert start + round + [Unsubscribe(g)] == start + (round + [Unsubscribe(g)]);
          round := round + [Unsubscribe(g)];
        }
        todo := todo - {g};
      }
      ErasedAll(groupMembers, old(groupMembers), id);
      assert redis.subTasks[|start|..] == round;
    }

    /** `deletes` of the presence fields get deleted before a call throws, if one does. */
    method LoginOut(id: UserId, deletes: nat)
      modifies this, presenceApi, redis`subTasks
      ensures Snapshot() == After(old(Snapshot()), LogOut(id))
      ensures forall others ::
        Cluster(others) == Presence.Next(old(Cluster(others)), Presence.LogOut(presenceApi.localNodeId, id, deletes))
      ensures AppendsRound(old(redis.subTasks), redis.subTasks, groupMembers, redis.subGroupSet)
    {
      userConnMap := userConnMap - {id};
      presenceApi.SetUserOffline(id, deletes);
      EraseFromGroups(id);
    }

    /** `clientQuitEcption`: the end of the first entry found for the closed connection. */
    method ClientQuit(conn: ConnId, deletes: nat) returns (who: Option<UserId>)
      requires conn in open
      modifies this, presenceApi, redis`subTasks
      ensures Possible(old(Snapshot()), Close(conn, who)) && Snapshot() == After(old(Snapshot()), Close(conn, who))
      ensures who.Some? ==> forall others ::
        Cluster(others) ==
        Presence.Next(old(Cluster(others)), Presence.Close(presenceApi.localNodeId, who.value, deletes))
      ensures who.None? ==> presenceApi.presence == old(presenceApi.presence)
      ensures if who.Some? && who.value != NOBODY
        then AppendsRound(old(redis.subTasks), redis.subTasks, groupMembers, redis.subGroupSet)
        else redis.subTasks == old(redis.subTasks)
    {
      who := None;
      var todo := userConnMap.Keys;
      while todo != {} && who.None?
        invariant who.None? ==> todo <= userConnMap.Keys
        invariant who.None? ==>
          userConnMap == old(userConnMap) && IdsOn(userConnMap, conn) <= todo
        invariant who.Some? ==>
          who.value in IdsOn(old(userConnMap), conn) && userConnMap == old(userConnMap) - {who.value}
        invariant groupMembers == old(groupMembers) && redis.subTasks == old(redis.subTasks)
        invariant open == old(open) && everOpened == old(everOpened)
        invariant presenceApi.presence == old(presenceApi.presence)
        decreases todo
      {
        var id := Pick(todo);
        todo := todo - {id};
        if userConnMap[id] == conn {
          who := Some(id);
          userConnMap := userConnMap - {id};
        }
      }
      open := open - {conn};
      if who.Some? && who.value != NOBODY {
        presenceApi.SetUserOffline(who.value, deletes);
        EraseFromGroups(who.value);
      }
    }

    /**
     A logout and the next round of the subscriber thread, nothing failing and nothing pending
     before: of the groups subscribed exactly the empty ones are given up.
     */
    method LogOutAndDrain(id: UserId, deletes: nat)
      requires redis.subTasks == [] && redis.channels == redis.subGroupSet
      modifies this, presenceApi, redis
      ensures redis.subTasks == [] && redis.channels == redis.subGroupSet
      ensures forall g :: g in redis.subGroupSet <==>
        g in old(redis.subGroupSet) && !PresentButEmpty(groupMembers, g)
    {
      LoginOut(id, deletes);
      DrainRound();
    }

    /** The same for a connection that closes with a session on it. */
    method CloseAndDrain(conn: ConnId, deletes: nat) returns (who: Option<UserId>)
      requires redis.subTasks == [] && redis.channels == redis.subGroupSet && conn in open
      modifies this, presenceApi, redis
      ensures redis.subTasks == [] && redis.channels == redis.subGroupSet
      ensures forall g :: g in redis.subGroupSet <==>
        g in old(redis.subGroupSet) && !(who.Some? && who.value != NOBODY && PresentButEmpty(groupMembers, g))
    {
      who := ClientQuit(conn, deletes);
      if who.Some? && who.value != NOBODY {
        DrainRound();
      }
    }

    /** One round of the subscriber thread on the requests of one leaver. */
    method DrainRound()
      requires IsUnsubscribeRound(redis.subTasks, groupMembers, redis.subGroupSet)
      requires redis.channels == redis.subGroupSet
      modifies redis
      ensures redis.subTasks == [] && redis.channels == redis.subGroupSet
      ensures forall g :: g in redis.subGroupSet <==>
        g in old(redis.subGroupSet) && !PresentButEmpty(groupMembers, g)
    {
      var ok := seq(|redis.subTasks|, _ => true);
      DrainWithNothingFailing(redis.subGroupSet, redis.subTasks, ok);
      forall g ensures g in Drain(redis.subGroupSet, redis.subTasks) <==>
        g in redis.subGroupSet && !PresentButEmpty(groupMembers, g)
      {
        RoundDrains(redis.subTasks, groupMembers, redis.subGroupSet, g);
      }
      redis.ProcessTasks(ok);
    }

    /**
     The group branch of the inbox callback. The group lock is held throughout, the
     connection lock per member: `connsAt(u)` is `userConnMap_` when `u` is looked up.
     */
    method OnGroupMessage(g: GroupId, msg: string, connsAt: UserId -> Conns) returns (sends: seq<Send>)
      ensures multiset(sends) == multiset(FanOut(MembersOf(groupMembers, g), connsAt, msg))
    {
      sends := [];
      if g !in groupMembers { return; }
      var todo := groupMembers[g];
      while todo != {}
        invariant todo <= groupMembers[g]
        invariant multiset(sends) == multiset(FanOut(groupMembers[g] - todo, connsAt, msg))
        decreases todo
      {
        var u := Pick(todo);
        ghost var done := groupMembers[g] - todo;
        assert groupMembers[g] - (todo - {u}) == done + {u};
        if u in connsAt(u) {
          var m := Send(u, connsAt(u)[u], msg);
          sends := sends + [m];
          assert FanOut(done + {u}, connsAt, msg) == FanOut(done, connsAt, msg) + {m};
          assert m !in FanOut(done, connsAt, msg);
        } else {
          assert FanOut(done + {u}, connsAt, msg) == FanOut(done, connsAt, msg);
        }
        todo := todo - {u};
      }
      assert groupMembers[g] - {} == groupMembers[g];
    }
  }

  // ---------- Group fan-out across a node ----------

  /** What node `s` sends for one message published to `g`: Redis delivers once per channel held. */
  function NodeSends(s: NodeSystem.State, g: GroupId, connsAt: UserId -> Conns, msg: string): multiset<Send> {
    if g in s.channels then multiset(FanOut(MembersOf(s.members, g), connsAt, msg)) else multiset{}
  }

  /** Each member connected when looked up gets one copy, on its own connection; nobody else any. */
  lemma {:induction false} FanOutIsExactlyOnce(members: set<UserId>, connsAt: UserId -> Conns, msg: string, m: Send)
    ensures multiset(FanOut(members, connsAt, msg))[m]
         == if m.to in members && m.to in connsAt(m.to) && m.conn == connsAt(m.to)[m.to] && m.msg == msg
            then 1 else 0
  {
    assert m in FanOut(members, connsAt, msg) <==>
      m.to in members && m.to in connsAt(m.to) && m.conn == connsAt(m.to)[m.to] && m.msg == msg;
  }

  /**
   On a run without gaps before shutdown, once the queue is drained and the handlers have made
   their calls, a publish to `g` reaches every connected local member exactly once.
   */
  lemma {:induction false} DrainedNodeDeliversOnce(
      run: seq<NodeSystem.Action>, g: GroupId, u: UserId, connsAt: UserId -> Conns, msg: string)
    requires NodeSystem.Valid(NodeSystem.INIT, run) && NodeSystem.NoGap(NodeSystem.INIT, run, g)
    requires var s := NodeSystem.Exec(NodeSystem.INIT, run);
      !s.stopFlag && NodeSystem.Pending(s) == [] && !NodeSystem.Owed(s, g)
      && u in MembersOf(s.members, g) && u in connsAt(u)
    ensures NodeSends(NodeSystem.Exec(NodeSystem.INIT, run), g, connsAt, msg)[Send(u, connsAt(u)[u], msg)] == 1
  {
    NodeSystem.QuietNodeReceives(run, g);
    var s := NodeSystem.Exec(NodeSystem.INIT, run);
    FanOutIsExactlyOnce(MembersOf(s.members, g), connsAt, msg, Send(u, connsAt(u)[u], msg));
  }

  /** The node of the gap: a connected member of a group whose channel the node does not hold. */
  lemma {:induction false} GapLosesMessages(connsAt: UserId -> Conns, msg: string)
    requires 42 in connsAt(42)
    ensures exists run ::
      && NodeSystem.Valid(NodeSystem.INIT, run)
      && var s := NodeSystem.Exec(NodeSystem.INIT, run);
        && !s.stopFlag && NodeSystem.Pending(s) == [] && 42 in MembersOf(s.members, 7)
        && NodeSends(s, 7, connsAt, msg) == multiset{}
  {
    NodeSystem.RejoinBeforeDrainLosesSubscription();
  }

  // ---------- Sessions over whole runs ----------

  predicate Valid(s: Session, run: seq<Event>)
    decreases |run|
  {
    run == [] || (Possible(s, run[0]) && Valid(After(s, run[0]), run[1..]))
  }

  function Exec(s: Session, run: seq<Event>): Session
    requires Valid(s, run)
    decreases |run|
  {
    if run == [] then s else Exec(After(s, run[0]), run[1..])
  }

  // What an event does, point by point: to a membership, an entry, a connection.

  /** A join, a fallback that loads `u`, or a login of `u` with an entry for `g` that names it. */
  ghost predicate Adds(e: Event, g: GroupId, u: UserId) {
    || e == Join(u, g)
    || (e.Load? && e.g == g && u in e.ids)
    || (e.Login? && e.id == u && exists x :: x in e.groups && x.0 == g && u in x.1)
  }

  /** A logout of `u`, or a close whose scan finds `u`; a close that finds id -1 erases nothing. */
  predicate Removes(e: Event, u: UserId) {
    e == LogOut(u) || (e.Close? && e.victim == Some(u) && u != NOBODY)
  }

  predicate MakesEntry(e: Event, g: GroupId) {
    (e.Join? && e.g == g) || (e.Load? && e.g == g && e.ids != {}) || (e.Login? && g in Listed(e.groups))
  }

  /** Nobody joins or leaves a group but by an event of its own. */
  lemma {:induction false} MembershipStep(s: Session, e: Event, g: GroupId, u: UserId)
    requires Possible(s, e)
    ensures u in MembersOf(After(s, e).members, g) <==>
      Adds(e, g, u) || (u in MembersOf(s.members, g) && !Removes(e, u))
  {
    if e.Login? {
      LoginJoinsListedGroups(s.members, e.id, e.groups, g);
    }
  }

  /** Entries are made by joins, non-empty fallbacks and listed groups, and never removed. */
  lemma {:induction false} EntryStep(s: Session, e: Event, g: GroupId)
    requires Possible(s, e)
    ensures g in After(s, e).members <==> g in s.members || MakesEntry(e, g)
  {
    if e.Login? {
      LoginMakesEntries(s.members, e.id, e.groups);
    }
  }

  /** A connection is recorded by the first login of an id, kept by later ones, and ends with the id. */
  lemma {:induction false} ConnectionStep(s: Session, e: Event, u: UserId, c: ConnId)
    requires Possible(s, e)
    ensures u in After(s, e).conns && After(s, e).conns[u] == c <==>
      || (u in s.conns && s.conns[u] == c && e != LogOut(u) && !(e.Close? && e.victim == Some(u)))
      || (u !in s.conns && e.Login? && e.id == u && e.c == c)
  {
  }

  /** `id` has no entry and no membership left, and nobody else lost anything. */
  ghost predicate NoTrace(before: Session, after: Session, id: UserId) {
    && after.conns == before.conns - {id}
    && after.members.Keys == before.members.Keys
    && (forall g :: g in after.members ==> id !in after.members[g])
    && (forall g, u :: g in before.members && u != id ==> (u in after.members[g] <==> u in before.members[g]))
  }

  ghost predicate Absent(s: Session, id: UserId) {
    id !in s.conns && forall g :: g in s.members ==> id !in s.members[g]
  }

  ghost predicate AlwaysAbsent(s: Session, run: seq<Event>, id: UserId)
    requires Valid(s, run)
    decreases |run|
  {
    Absent(s, id) && (run != [] ==> AlwaysAbsent(After(s, run[0]), run[1..], id))
  }

  /** A login or a join of `id`, or a fallback that loads it. */
  predicate Names(e: Event, id: UserId) {
    || ((e.Login? || e.Join?) && e.id == id)
    || (e.Load? && id in e.ids)
  }

  lemma {:induction false} AbsentStep(s: Session, e: Event, id: UserId)
    requires Possible(s, e) && Absent(s, id)
    ensures Absent(After(s, e), id) <==> !Names(e, id)
  {
    var s' := After(s, e);
    if e.Login? && e.id != id {
      forall g | g in s'.members ensures id !in s'.members[g] {
        LoginJoinsListedGroups(s.members, e.id, e.groups, g);
      }
    } else if e.Join? && e.id == id {
      assert id in s'.members[e.g];
    } else if e.Load? && id in e.ids {
      assert id in s'.members[e.g];
    }
  }

  lemma {:induction false} AbsentRun(s: Session, run: seq<Event>, id: UserId)
    requires Valid(s, run) && Absent(s, id)
    ensures AlwaysAbsent(s, run, id) <==> forall e :: e in run ==> !Names(e, id)
    decreases |run|
  {
    if run == [] {
    } else {
      assert run == [run[0]] + run[1..];
      AbsentStep(s, run[0], id);
      if Absent(After(s, run[0]), id) {
        AbsentRun(After(s, run[0]), run[1..], id);
      }
    }
  }

  /** The session of `id` ends: by its logout, or with the connection, if that carries no other id. */
  predicate Ends(s: Session, e: Event, id: UserId) {
    || e == LogOut(id)
    || (e.Close? && id != NOBODY && id in IdsOn(s.conns, e.c) && |IdsOn(s.conns, e.c)| <= 1)
  }

  lemma {:induction false} OnlyIdOn(s: Session, c: ConnId, a: UserId, b: UserId)
    requires a in IdsOn(s.conns, c) && b in IdsOn(s.conns, c) && |IdsOn(s.conns, c)| <= 1
    ensures a == b
  {
    assert |IdsOn(s.conns, c) - {a}| == 0;
    assert b !in IdsOn(s.conns, c) - {a};
  }

  /**
   After any run, the end of a session takes the id, and nobody else, out of the map and of every
   group; and it stays out, in every later state, if and only if no later event names it.
   */
  lemma {:induction false} TeardownLeavesNoTrace(before: seq<Event>, e: Event, later: seq<Event>, id: UserId)
    requires Valid(FRESH, before) && Possible(Exec(FRESH, before), e) && Ends(Exec(FRESH, before), e, id)
    requires Valid(After(Exec(FRESH, before), e), later)
    ensures NoTrace(Exec(FRESH, before), After(Exec(FRESH, before), e), id)
    ensures AlwaysAbsent(After(Exec(FRESH, before), e), later, id) <==> forall x :: x in later ==> !Names(x, id)
  {
    var s := Exec(FRESH, before);
    if e.Close? {
      OnlyIdOn(s, e.c, id, e.victim.value);
    }
    AbsentRun(After(s, e), later, id);
  }

  /** A close removes one entry, so it clears the connection exactly when it carried at most one id. */
  lemma {:induction false} CloseClearsOnlyOneId(s: Session, c: ConnId, victim: Option<UserId>)
    requires Possible(s, Close(c, victim))
    ensures |IdsOn(After(s, Close(c, victim)).conns, c)| == if victim.Some? then |IdsOn(s.conns, c)| - 1 else 0
    ensures IdsOn(After(s, Close(c, victim)).conns, c) == {} <==> |IdsOn(s.conns, c)| <= 1
  {
    var left := IdsOn(After(s, Close(c, victim)).conns, c);
    if victim.Some? {
      assert left == IdsOn(s.conns, c) - {victim.value};
    } else {
      assert left == {};
    }
  }

  /** No entry refers to a connection that is not open. */
  ghost predicate NoStaleEntry(s: Session) {
    forall id :: id in s.conns ==> s.conns[id] in s.open
  }

  ghost predicate NeverStale(s: Session, run: seq<Event>)
    requires Valid(s, run)
    decreases |run|
  {
    NoStaleEntry(s) && (run != [] ==> NeverStale(After(s, run[0]), run[1..]))
  }

  /** Every connection carries at most one id when it closes. */
  ghost predicate ClosesSingle(s: Session, run: seq<Event>)
    requires Valid(s, run)
    decreases |run|
  {
    run != [] ==>
      && (run[0].Close? ==> |IdsOn(s.conns, run[0].c)| <= 1)
      && ClosesSingle(After(s, run[0]), run[1..])
  }

  lemma {:induction false} StaleStep(s: Session, e: Event)
    requires NoStaleEntry(s) && Possible(s, e)
    ensures NoStaleEntry(After(s, e)) <==> (e.Close? ==> |IdsOn(s.conns, e.c)| <= 1)
  {
    var s' := After(s, e);
    if e.Close? {
      CloseClearsOnlyOneId(s, e.c, e.victim);
      if |IdsOn(s.conns, e.c)| <= 1 {
        forall id | id in s'.conns ensures s'.conns[id] in s'.open {
          assert id !in IdsOn(s'.conns, e.c);
        }
      } else {
        var id := Member(IdsOn(s'.conns, e.c));
        assert s'.conns[id] !in s'.open;
      }
    }
  }

  lemma {:induction false} StaleRun(s: Session, run: seq<Event>)
    requires NoStaleEntry(s) && Valid(s, run)
    ensures NeverStale(s, run) <==> ClosesSingle(s, run)
    decreases |run|
  {
    if run == [] {
    } else {
      StaleStep(s, run[0]);
      if NoStaleEntry(After(s, run[0])) {
        StaleRun(After(s, run[0]), run[1..]);
      }
    }
  }

  /**
   Over every serial run of logins, logouts, joins and closes: no entry ever refers to a closed
   connection if and only if every connection carries at most one id when it closes.
   */
  lemma {:induction false} NoEntryOutlivesItsConnection(run: seq<Event>)
    requires Valid(FRESH, run)
    ensures NeverStale(FRESH, run) <==> ClosesSingle(FRESH, run)
  {
    StaleRun(FRESH, run);
  }

  /** It happens: two ids log in on one connection, and its close removes only the first found. */
  lemma {:induction false} SharedConnectionLeavesEntry()
    ensures var run := [Open(5), Event.Login(1, 5, []), Event.Login(2, 5, []), Close(5, Some(1))];
      Valid(FRESH, run) && 2 in Exec(FRESH, run).conns && Exec(FRESH, run).conns[2] !in Exec(FRESH, run).open
  {
    var e1, e2, e3, e4 := Open(5), Event.Login(1, 5, []), Event.Login(2, 5, []), Close(5, Some(1));
    assert [e1, e2, e3, e4][1..] == [e2, e3, e4] && [e2, e3, e4][1..] == [e3, e4];
    assert [e3, e4][1..] == [e4] && [e4][1..] == [];
    var s3 := After(After(After(FRESH, e1), e2), e3);
    assert s3 == Session(map[1 := 5, 2 := 5], map[], {5}, {5});
    assert 1 in IdsOn(s3.conns, 5);
    assert Valid(s3, [e4]) && Exec(s3, [e4]) == After(s3, e4);
  }
}
