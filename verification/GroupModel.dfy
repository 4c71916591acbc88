/**
 `GroupModel` over the GroupUser table, and what its two queries mean for a node: the
 fallback of `groupChat` and the group part of `login`.
 */
module GroupModel {

  import opened ChatTypes
  import opened ChatNode
  import Subscription

  type Table = set<(GroupId, UserId)>

  /** An answer of `queryGroups`: exactly the groups of the user, every one without members. */
  ghost predicate IsGroupsAnswer(table: Table, id: UserId, reply: Reply, groups: seq<(GroupId, seq<UserId>)>) {
    && (forall e :: e in groups ==> e.1 == [])
    && (forall g :: (g, []) in groups <==> reply.Done? && (g, id) in table)
  }

  class GroupTables {
    var groupUser: Table

    constructor ()
      ensures groupUser == {}
    {
      groupUser := {};
    }

    method JoinGroup(userid: UserId, groupid: GroupId, reply: Reply)
      modifies this
      ensures groupUser == if reply.Done? then old(groupUser) + {(groupid, userid)} else old(groupUser)
    {
      if reply.NoConn? || reply.Failed? { return; }
      groupUser := groupUser + {(groupid, userid)};
    }

    /** The members of a group, without the one who asks. */
    method QueryGroupUsers(userid: UserId, groupid: GroupId, reply: Reply) returns (v: seq<UserId>)
      ensures forall u :: u in v <==> reply.Done? && u != userid && (groupid, u) in groupUser
    {
      v := [];
      if reply.NoConn? || reply.Failed? { return; }
      var todo := groupUser;
      while todo != {}
        invariant todo <= groupUser
        invariant forall u :: u in v <==> u != userid && (groupid, u) in groupUser - todo
        decreases todo
      {
        var row := Pick(todo);
        todo := todo - {row};
        if row.0 == groupid && row.1 != userid {
          assert row == (groupid, row.1);
          v := v + [row.1];
        }
      }
    }

    /**
     The groups of a user. The second loop reads the members of each group into a copy of the
     entry, so the entries returned have no members.
     */
    method QueryGroups(userid: UserId, reply: Reply) returns (groups: seq<(GroupId, seq<UserId>)>)
      ensures IsGroupsAnswer(groupUser, userid, reply, groups)
    {
      groups := [];
      if reply.NoConn? || reply.Failed? { return; }
      var todo := groupUser;
      while todo != {}
        invariant todo <= groupUser
        invariant forall e :: e in groups ==> e.1 == []
        invariant forall g :: (g, []) in groups <==> (g, userid) in groupUser - todo
        decreases todo
      {
        var row := Pick(todo);
        todo := todo - {row};
        if row.1 == userid {
          assert row == (row.0, userid);
          groups := groups + [(row.0, [])];
        }
      }
      for i := 0 to |groups| {
        var copy := groups[i];
        var users := AllMembers(copy.0);
        copy := (copy.0, users);
      }
    }

    /** Every member of a group, whoever asks. */
    method AllMembers(groupid: GroupId) returns (v: seq<UserId>)
      ensures forall u :: u in v <==> (groupid, u) in groupUser
    {
      v := [];
      var todo := groupUser;
      while todo != {}
        invariant todo <= groupUser
        invariant forall u :: u in v <==> (groupid, u) in groupUser - todo
        decreases todo
      {
        var row := Pick(todo);
        todo := todo - {row};
        if row.0 == groupid {
          assert row == (groupid, row.1);
          v := v + [row.1];
        }
      }
    }
  }

  /** Entries without members make `login` record nobody, in any group. */
  lemma {:induction false} LoginRecordsNobody(
      members: Members, id: UserId, groups: seq<(GroupId, seq<UserId>)>, g: GroupId)
    requires forall e :: e in groups ==> e.1 == []
    ensures MembersOf(LoggedInGroups(members, id, groups), g) == MembersOf(members, g)
  {
    LoginJoinsListedGroups(members, id, groups, g);
  }

  /**
   A group message whose sender's node had no entry for the group: after the fallback has
   loaded the members, the copies go to the connected members other than the sender.
   */
  lemma {:induction false} FallbackSkipsTheSender(
      table: Table, members: Members, g: GroupId, sender: UserId, users: seq<UserId>,
      connsAt: UserId -> Conns, msg: string, m: Send)
    requires g !in members && users != []
    requires forall u :: u in users <==> u != sender && (g, u) in table
    ensures multiset(FanOut(MembersOf(WithMembers(members, g, Ids(users)), g), connsAt, msg))[m]
         == if m.to != sender && (g, m.to) in table && m.to in connsAt(m.to)
               && m.conn == connsAt(m.to)[m.to] && m.msg == msg then 1 else 0
  {
    FanOutIsExactlyOnce(MembersOf(WithMembers(members, g, Ids(users)), g), connsAt, msg, m);
  }

  // ---------- The table and the memberships of a node, over whole runs ----------

  datatype State = State(session: Session, table: Table)

  datatype Action =
    | DoJoin(id: UserId, g: GroupId, reply: Reply)
    /** A group message of `id`, as far as it touches the memberships. */
    | DoChat(id: UserId, g: GroupId, reply: Reply)
    /** A login that is not refused; `groups` is the answer it gets from `queryGroups`. */
    | DoLogin(id: UserId, c: ConnId, reply: Reply, groups: seq<(GroupId, seq<UserId>)>)
    /** Connections open and sessions end. */
    | Come(c: ConnId)
    | Go(e: Event)

  /** The answer of `queryGroupUsers`. */
  function Others(table: Table, g: GroupId, id: UserId, reply: Reply): set<UserId> {
    if reply.Done? then set row | row in table && row.0 == g && row.1 != id :: row.1 else {}
  }

  ghost predicate Enabled(s: State, a: Action) {
    match a
    case DoJoin(id, g, reply) => true
    case DoChat(id, g, reply) => true
    case DoLogin(id, c, reply, groups) =>
      IsGroupsAnswer(s.table, id, reply, groups) && Possible(s.session, Login(id, c, groups))
    case Come(c) => Possible(s.session, Open(c))
    case Go(e) => (e.LogOut? || e.Close?) && Possible(s.session, e)
  }

  function Next(s: State, a: Action): State
    requires Enabled(s, a)
  {
    match a
    case DoJoin(id, g, reply) =>
      State(After(s.session, Join(id, g)), if reply.Done? then s.table + {(g, id)} else s.table)
    case DoChat(id, g, reply) =>
      if g in s.session.members then s else s.(session := After(s.session, Load(g, Others(s.table, g, id, reply))))
    case DoLogin(id, c, reply, groups) => s.(session := After(s.session, Login(id, c, groups)))
    case Come(c) => s.(session := After(s.session, Open(c)))
    case Go(e) => s.(session := After(s.session, e))
  }

  ghost predicate Valid(s: State, run: seq<Action>)
    decreases |run|
  {
    run == [] || (Enabled(s, run[0]) && Valid(Next(s, run[0]), run[1..]))
  }

  ghost function Exec(s: State, run: seq<Action>): State
    requires Valid(s, run)
    decreases |run|
  {
    if run == [] then s else Exec(Next(s, run[0]), run[1..])
  }

  /** The handlers that use both the tables and the node; each call is one step. */
  class GroupDesk {
    const service: ChatService
    const tables: GroupTables

    constructor (service: ChatService, tables: GroupTables)
      ensures this.service == service && this.tables == tables
    {
      this.service, this.tables := service, tables;
    }

    ghost function View(): State
      reads this, service, tables
    {
      State(service.Snapshot(), tables.groupUser)
    }

    /** The local membership is recorded whether or not the row was stored. */
    method JoinGroup(id: UserId, g: GroupId, reply: Reply)
      modifies tables, service`groupMembers, service.redis`subTasks
      ensures View() == Next(old(View()), DoJoin(id, g, reply))
      ensures service.redis.subTasks ==
        Subscription.AfterSubscribe(service.redis.subGroupSet, old(service.redis.subTasks), g)
    {
      tables.JoinGroup(id, g, reply);
      service.JoinGroup(id, g);
    }

    method GroupChat(id: UserId, g: GroupId, reply: Reply)
      modifies service`groupMembers, service.redis`subTasks
      ensures View() == Next(old(View()), DoChat(id, g, reply))
      ensures service.redis.subTasks ==
        if g in old(service.groupMembers) then old(service.redis.subTasks)
        else Subscription.AfterSubscribe(service.redis.subGroupSet, old(service.redis.subTasks), g)
    {
      if g in service.groupMembers { return; }
      var users := tables.QueryGroupUsers(id, g, reply);
      assert Ids(users) == Others(tables.groupUser, g, id, reply) by {
        forall u ensures u in Ids(users) <==> u in Others(tables.groupUser, g, id, reply) {
          assert (g, u).0 == g;
        }
      }
      service.LoadMembers(g, users);
    }

    method Login(id: UserId, conn: ConnId, reply: Reply, readOk: bool, writes: nat)
        returns (accepted: bool, groups: seq<(GroupId, seq<UserId>)>)
      requires conn in service.open
      modifies service, service.presenceApi, service.redis`subTasks
      ensures accepted ==>
        Enabled(old(View()), DoLogin(id, conn, reply, groups)) &&
        View() == Next(old(View()), DoLogin(id, conn, reply, groups))
      ensures !accepted ==> View() == old(View())
      ensures service.redis.subTasks ==
        if accepted then LoginTasks(service.redis.subGroupSet, old(service.redis.subTasks), groups)
        else old(service.redis.subTasks)
    {
      groups := tables.QueryGroups(id, reply);
      accepted := service.Login(id, conn, groups, readOk, writes);
    }
  }

  /** Every member a node has recorded is a member in the table. */
  ghost predicate Backed(s: State) {
    forall g, u :: g in s.session.members && u in s.session.members[g] ==> (g, u) in s.table
  }

  /** A join leaves its row in the table. */
  predicate Stores(s: State, a: Action) {
    a.DoJoin? ==> a.reply.Done? || (a.g, a.id) in s.table
  }

  ghost predicate AlwaysBacked(s: State, run: seq<Action>)
    requires Valid(s, run)
    decreases |run|
  {
    Backed(s) && (run != [] ==> AlwaysBacked(Next(s, run[0]), run[1..]))
  }

  ghost predicate AlwaysStores(s: State, run: seq<Action>)
    requires Valid(s, run)
    decreases |run|
  {
    run != [] ==> Stores(s, run[0]) && AlwaysStores(Next(s, run[0]), run[1..])
  }

  lemma {:induction false} BackedStep(s: State, a: Action)
    requires Backed(s) && Enabled(s, a)
    ensures Backed(Next(s, a)) <==> Stores(s, a)
  {
    var s' := Next(s, a);
    if a.DoLogin? {
      forall g, u | g in s'.session.members && u in s'.session.members[g] ensures (g, u) in s'.table {
        LoginRecordsNobody(s.session.members, a.id, a.groups, g);
      }
    } else if a.DoJoin? {
      assert a.id in s'.session.members[a.g];
    }
  }

  /**
   Over every run of joins, group messages, logins and ends of sessions: what a node has recorded
   of its groups is in the table in every state, if and only if no join fails to leave its row.
   */
  lemma {:induction false} MembershipIsBacked(s: State, run: seq<Action>)
    requires Backed(s) && Valid(s, run)
    ensures AlwaysBacked(s, run) <==> AlwaysStores(s, run)
    decreases |run|
  {
    if run == [] {
    } else {
      BackedStep(s, run[0]);
      if Backed(Next(s, run[0])) {
        MembershipIsBacked(Next(s, run[0]), run[1..]);
      }
    }
  }

  /** It happens: a join without a database connection makes a member that no table knows. */
  lemma {:induction false} FailedJoinIsNotBacked()
    ensures var s := State(FRESH, {});
      Valid(s, [DoJoin(42, 7, NoConn)]) && !Backed(Next(s, DoJoin(42, 7, NoConn)))
  {
    var s := State(FRESH, {});
    assert [DoJoin(42, 7, NoConn)][1..] == [];
    BackedStep(s, DoJoin(42, 7, NoConn));
  }

  // ---------- Who is recorded, point by point and over runs ----------

  /** A join, or a group message of another member that finds no entry and reads the table. */
  predicate Records(s: State, a: Action, g: GroupId, u: UserId) {
    || (a.DoJoin? && a.g == g && a.id == u)
    || (a.DoChat? && a.g == g && g !in s.session.members && a.reply.Done? && a.id != u && (g, u) in s.table)
  }

  /** The session of `u` ends. */
  predicate Leaves(a: Action, u: UserId) {
    a.Go? && Removes(a.e, u)
  }

  predicate Recorded(s: State, g: GroupId, u: UserId) {
    u in MembersOf(s.session.members, g)
  }

  lemma {:induction false} RecordedStep(s: State, a: Action, g: GroupId, u: UserId)
    requires Enabled(s, a)
    ensures Recorded(Next(s, a), g, u) <==> Records(s, a, g, u) || (Recorded(s, g, u) && !Leaves(a, u))
  {
    match a
    case DoJoin(id, h, reply) =>
      MembershipStep(s.session, Join(id, h), g, u);
    case DoChat(id, h, reply) =>
      if h !in s.session.members {
        var users := Others(s.table, h, id, reply);
        MembershipStep(s.session, Load(h, users), g, u);
        assert u in users <==> reply.Done? && u != id && (h, u) in s.table by {
          assert (h, u).1 == u;
        }
      }
    case DoLogin(id, c, reply, groups) =>
      LoginRecordsNobody(s.session.members, id, groups, g);
    case Come(c) =>
    case Go(e) =>
      MembershipStep(s.session, e, g, u);
  }

  ghost predicate AlwaysRecorded(s: State, run: seq<Action>, g: GroupId, u: UserId)
    requires Valid(s, run)
    decreases |run|
  {
    Recorded(s, g, u) && (run != [] ==> AlwaysRecorded(Next(s, run[0]), run[1..], g, u))
  }

  /**
   A recorded member stays recorded, through every join, message, login and end of a session of
   others, if and only if no logout or close ends its own.
   */
  lemma {:induction false} RecordedUntilLeaving(s: State, run: seq<Action>, g: GroupId, u: UserId)
    requires Valid(s, run) && Recorded(s, g, u)
    ensures AlwaysRecorded(s, run, g, u) <==> forall a :: a in run ==> !Leaves(a, u)
    decreases |run|
  {
    if run == [] {
    } else {
      assert run == [run[0]] + run[1..];
      RecordedStep(s, run[0], g, u);
      if Recorded(Next(s, run[0]), g, u) {
        RecordedUntilLeaving(Next(s, run[0]), run[1..], g, u);
      }
    }
  }

  lemma {:induction false} EntryStays(s: State, run: seq<Action>, g: GroupId)
    requires Valid(s, run) && g in s.session.members
    ensures g in Exec(s, run).session.members
    decreases |run|
  {
    if run == [] {
    } else {
      var a := run[0];
      if a.DoLogin? {
        EntryStep(s.session, Login(a.id, a.c, a.groups), g);
      }
      EntryStays(Next(s, a), run[1..], g);
    }
  }

  /**
   From the first accepted login of a member on, the node has an entry for the group, and no group
   message of anybody ever loads its members: the fallback is over for that group.
   */
  lemma {:induction false} LoginEndsTheFallback(s: State, login: Action, run: seq<Action>, chat: Action)
    requires Enabled(s, login) && login.DoLogin? && login.reply.Done? && Valid(Next(s, login), run)
    requires chat.DoChat? && (chat.g, login.id) in s.table
    ensures var e := Exec(Next(s, login), run);
      chat.g in e.session.members && Next(e, chat) == e
  {
    var listed: (GroupId, seq<UserId>) := (chat.g, []);
    assert listed in login.groups && listed.0 in Listed(login.groups);
    EntryStep(s.session, Login(login.id, login.c, login.groups), chat.g);
    EntryStays(Next(s, login), run, chat.g);
  }

  // ---------- What the empty entries do to later logins ----------

  /** The node has an entry for `g`, and `u` is not in it. */
  predicate Unrecorded(s: State, g: GroupId, u: UserId) {
    g in s.session.members && u !in s.session.members[g]
  }

  predicate IsJoinOf(a: Action, g: GroupId, u: UserId) {
    a.DoJoin? && a.g == g && a.id == u
  }

  ghost predicate AlwaysUnrecorded(s: State, run: seq<Action>, g: GroupId, u: UserId)
    requires Valid(s, run)
    decreases |run|
  {
    Unrecorded(s, g, u) && (run != [] ==> AlwaysUnrecorded(Next(s, run[0]), run[1..], g, u))
  }

  lemma {:induction false} UnrecordedStep(s: State, a: Action, g: GroupId, u: UserId)
    requires Enabled(s, a) && Unrecorded(s, g, u)
    ensures Unrecorded(Next(s, a), g, u) <==> !IsJoinOf(a, g, u)
  {
    if a.DoLogin? {
      LoginMakesEntries(s.session.members, a.id, a.groups);
      LoginRecordsNobody(s.session.members, a.id, a.groups, g);
    }
  }

  /**
   Once a node has an entry for a group, a user that is not in it stays out, through every later
   login, group message and end of a session, if and only if the user does not join again: a
   login records nobody, and the entry keeps the fallback from being used.
   */
  lemma {:induction false} UnrecordedUntilJoin(s: State, run: seq<Action>, g: GroupId, u: UserId)
    requires Valid(s, run) && Unrecorded(s, g, u)
    ensures AlwaysUnrecorded(s, run, g, u) <==> forall a :: a in run ==> !IsJoinOf(a, g, u)
    decreases |run|
  {
    if run == [] {
    } else {
      assert run == [run[0]] + run[1..];
      UnrecordedStep(s, run[0], g, u);
      if Unrecorded(Next(s, run[0]), g, u) {
        UnrecordedUntilJoin(Next(s, run[0]), run[1..], g, u);
      }
    }
  }

  /** So a logout costs a user every group the node has an entry for, until it joins each again. */
  lemma {:induction false} LogOutForgetsGroups(s: State, g: GroupId, u: UserId, later: seq<Action>)
    requires g in s.session.members && Valid(Next(s, Go(LogOut(u))), later)
    ensures AlwaysUnrecorded(Next(s, Go(LogOut(u))), later, g, u) <==> forall a :: a in later ==> !IsJoinOf(a, g, u)
  {
    UnrecordedUntilJoin(Next(s, Go(LogOut(u))), later, g, u);
  }

  /** A member in the table has joined and logged out; connection 5 is open. */
  const LOGGED_OUT := State(Session(map[], map[7 := {}], {5}, {5}), {(7, 42)})

  lemma {:induction false} ThreeSteps(s: State, a: Action, b: Action, c: Action)
    requires Enabled(s, a) && Enabled(Next(s, a), b) && Enabled(Next(Next(s, a), b), c)
    ensures Valid(s, [a, b, c]) && Exec(s, [a, b, c]) == Next(Next(Next(s, a), b), c)
  {
    assert [a, b, c][1..] == [b, c] && [b, c][1..] == [c] && [c][1..] == [];
    var s1 := Next(s, a);
    var s2 := Next(s1, b);
    var s3 := Next(s2, c);
    assert Valid(s3, []) && Exec(s3, []) == s3;
    assert Valid(s2, [c]) && Exec(s2, [c]) == s3;
    assert Valid(s1, [b, c]) && Exec(s1, [b, c]) == s3;
  }

  lemma {:induction false} LoggedOutIsReached()
    ensures var run := [DoJoin(42, 7, Done), Go(LogOut(42)), Come(5)];
      Valid(State(FRESH, {}), run) && Exec(State(FRESH, {}), run) == LOGGED_OUT
  {
    var s1 := Next(State(FRESH, {}), DoJoin(42, 7, Done));
    assert {} + {42} == {42} && {} + {(7, 42)} == {(7, 42)};
    assert s1.session.members == map[7 := {42}] && s1.table == {(7, 42)};
    var s2 := Next(s1, Go(LogOut(42)));
    assert s2.session.members == map[7 := {}] && s2.session.conns == map[];
    var s3 := Next(s2, Come(5));
    assert s3.session.open == {5} && s3.session.everOpened == {5};
    assert s3 == LOGGED_OUT;
    ThreeSteps(State(FRESH, {}), DoJoin(42, 7, Done), Go(LogOut(42)), Come(5));
  }

  /** That member logs in again: it is connected, and out of every fan-out of its group. */
  lemma {:induction false} LoginAgainIsUnrecorded(groups: seq<(GroupId, seq<UserId>)>)
    requires groups == [(7, [])]
    ensures var login := DoLogin(42, 5, Done, groups);
      && Enabled(LOGGED_OUT, login)
      && var s := Next(LOGGED_OUT, login);
        (7, 42) in s.table && 42 in s.session.conns && Unrecorded(s, 7, 42)
  {
    assert groups[0] in groups;
    UnrecordedStep(LOGGED_OUT, DoLogin(42, 5, Done, groups), 7, 42);
  }
}
