/**
 The locks of a node and the order the handlers take them in. A handler is a program that
 takes locks in nested sections; any number of threads run any handlers, one lock operation
 at a time.
 */
module LockOrder {

  import opened ChatTypes

  datatype Lock = Callback | Group | UserConn | SubTasks | FailedQueue | MySqlMutex | RedisMutex

  function Rank(l: Lock): (r: nat)
    ensures r <= 3
  {
    match l
    case Callback => 0
    case Group => 1
    case UserConn => 2
    case _ => 3
  }

  // ---------- What the handlers lock ----------

  datatype Prog =
    | Skip
    | Section(l: Lock, shared: bool, inner: Prog)
    | Then(first: Prog, second: Prog)

  /** Every lock is taken while only locks of lower rank, all below `floor`, are held. */
  predicate Ranked(p: Prog, floor: int) {
    match p
    case Skip => true
    case Section(l, shared, inner) => Rank(l) > floor && Ranked(inner, Rank(l))
    case Then(a, b) => Ranked(a, floor) && Ranked(b, floor)
  }

  predicate AllLeaves(ls: seq<Lock>) {
    forall i :: 0 <= i < |ls| ==> Rank(ls[i]) == 3
  }

  /** Short critical sections one after the other: pool, task-queue and failure-queue accesses. */
  function Leaves(ls: seq<Lock>): Prog {
    if ls == [] then Skip else Then(Section(ls[0], false, Skip), Leaves(ls[1..]))
  }

  function Times(p: Prog, n: nat): Prog {
    if n == 0 then Skip else Then(p, Times(p, n - 1))
  }

  function GroupRound(perGroup: seq<Lock>): Prog {
    Then(Leaves(perGroup), Then(Section(Group, false, Skip), Leaves([SubTasks])))
  }

  /** `login`: pool accesses around recording the connection, then a round per group. */
  function Login(before: seq<Lock>, after: seq<Lock>, perGroup: seq<Lock>, groups: nat): Prog {
    Then(Leaves(before), Then(Section(UserConn, false, Skip), Then(Leaves(after),
      Times(GroupRound(perGroup), groups))))
  }

  /** `loginOut` and `clientQuitEcption`: unsubscribe calls are made under the group lock. */
  function Leave(offline: seq<Lock>, emptied: nat): Prog {
    Then(Section(UserConn, false, Skip), Then(Leaves(offline),
      Section(Group, false, Times(Leaves([SubTasks]), emptied))))
  }

  /** `oneChat`: `store` is what `OfflineMessage::insert` locks. */
  function OneChat(query: seq<Lock>, store: seq<Lock>): Prog {
    Then(Leaves(query), Then(Section(UserConn, false, Skip), Leaves(store)))
  }

  /** `createGroup` and `joinGroup`. */
  function JoinGroup(db: seq<Lock>, redis: seq<Lock>): Prog {
    Then(Leaves(db), Then(Section(Group, false, Skip), Then(Leaves(redis), Leaves([SubTasks]))))
  }

  /** `groupChat` through its fallback: the shared lock is dropped before the exclusive one. */
  function GroupChat(db: seq<Lock>, publish: seq<Lock>): Prog {
    Then(Section(Group, true, Skip), Then(Leaves(db),
      Then(Section(Group, false, Leaves([SubTasks])), Leaves(publish))))
  }

  /** `groupChat` when the node has an entry for the group. */
  function GroupChatFound(publish: seq<Lock>): Prog {
    Then(Section(Group, true, Skip), Leaves(publish))
  }

  /** `clientQuitEcption` when no entry has the closed connection, or that of nobody. */
  function CloseOfNobody(): Prog {
    Section(UserConn, false, Skip)
  }

  /** The inbox callback on a message for one user. */
  function InboxSingle(store: seq<Lock>): Prog {
    Section(Callback, false, Section(UserConn, true, Leaves(store)))
  }

  /** The inbox callback on a group message with `members` local members. */
  function InboxGroup(members: nat): Prog {
    Section(Callback, false, Section(Group, true, Times(Section(UserConn, true, Skip), members)))
  }

  /** The inbox callback on any other message, and its registration. */
  function InboxOther(): Prog {
    Section(Callback, false, Skip)
  }

  ghost predicate IsHandler(p: Prog) {
    || (exists a, b, c, n :: AllLeaves(a) && AllLeaves(b) && AllLeaves(c) && p == Login(a, b, c, n))
    || (exists a, n :: AllLeaves(a) && p == Leave(a, n))
    || (exists a, b :: AllLeaves(a) && AllLeaves(b)
          && (p == OneChat(a, b) || p == JoinGroup(a, b) || p == GroupChat(a, b)))
    || (exists a :: AllLeaves(a) && (p == InboxSingle(a) || p == GroupChatFound(a) || p == Leaves(a)))
    || (exists n :: p == InboxGroup(n))
    || p == CloseOfNobody() || p == InboxOther()
  }

  lemma {:induction false} LeavesRanked(ls: seq<Lock>, floor: int)
    requires AllLeaves(ls) && floor < 3
    ensures Ranked(Leaves(ls), floor)
  {
    if ls == [] {
    } else {
      LeavesRanked(ls[1..], floor);
    }
  }

  lemma {:induction false} TimesRanked(p: Prog, n: nat, floor: int)
    requires Ranked(p, floor)
    ensures Ranked(Times(p, n), floor)
  {
    if n == 0 {
    } else {
      TimesRanked(p, n - 1, floor);
    }
  }

  lemma {:induction false} LoginRanked(a: seq<Lock>, b: seq<Lock>, c: seq<Lock>, n: nat)
    requires AllLeaves(a) && AllLeaves(b) && AllLeaves(c)
    ensures Ranked(Login(a, b, c, n), -1)
  {
    LeavesRanked(a, -1);
    LeavesRanked(b, -1);
    LeavesRanked(c, -1);
    LeavesRanked([SubTasks], -1);
    TimesRanked(GroupRound(c), n, -1);
  }

  lemma {:induction false} LeaveRanked(a: seq<Lock>, n: nat)
    requires AllLeaves(a)
    ensures Ranked(Leave(a, n), -1)
  {
    LeavesRanked(a, -1);
    LeavesRanked([SubTasks], Rank(Group));
    TimesRanked(Leaves([SubTasks]), n, Rank(Group));
  }

  lemma {:induction false} ChatsRanked(a: seq<Lock>, b: seq<Lock>)
    requires AllLeaves(a) && AllLeaves(b)
    ensures Ranked(OneChat(a, b), -1) && Ranked(JoinGroup(a, b), -1)
    ensures Ranked(InboxSingle(a), -1) && Ranked(GroupChatFound(a), -1) && Ranked(Leaves(a), -1)
  {
    LeavesRanked(a, -1);
    LeavesRanked(b, -1);
    LeavesRanked(a, Rank(UserConn));
    LeavesRanked([SubTasks], -1);
  }

  lemma {:induction false} GroupChatRanked(a: seq<Lock>, b: seq<Lock>)
    requires AllLeaves(a) && AllLeaves(b)
    ensures Ranked(GroupChat(a, b), -1)
  {
    LeavesRanked(a, -1);
    LeavesRanked(b, -1);
    LeavesRanked([SubTasks], Rank(Group));
    assert Ranked(Section(Group, false, Leaves([SubTasks])), -1);
    assert Ranked(Then(Section(Group, false, Leaves([SubTasks])), Leaves(b)), -1);
    assert Ranked(Then(Leaves(a), Then(Section(Group, false, Leaves([SubTasks])), Leaves(b))), -1);
  }

  lemma {:induction false} InboxGroupRanked(n: nat)
    ensures Ranked(InboxGroup(n), -1)
  {
    TimesRanked(Section(UserConn, true, Skip), n, Rank(Group));
  }

  /** Every handler takes its locks in the order callback, group, user connections, a leaf. */
  lemma {:induction false} HandlersAreRanked(p: Prog)
    requires IsHandler(p)
    ensures Ranked(p, -1)
  {
    if a, b, c, n :| AllLeaves(a) && AllLeaves(b) && AllLeaves(c) && p == Login(a, b, c, n) {
      LoginRanked(a, b, c, n);
    } else if a, n :| AllLeaves(a) && p == Leave(a, n) {
      LeaveRanked(a, n);
    } else if a, b :| AllLeaves(a) && AllLeaves(b)
                      && (p == OneChat(a, b) || p == JoinGroup(a, b) || p == GroupChat(a, b)) {
      ChatsRanked(a, b);
      GroupChatRanked(a, b);
    } else if a :| AllLeaves(a) && (p == InboxSingle(a) || p == GroupChatFound(a) || p == Leaves(a)) {
      ChatsRanked(a, a);
    } else if n :| p == InboxGroup(n) {
      InboxGroupRanked(n);
    }
  }

  predicate Takes(p: Prog, l: Lock, shared: bool) {
    match p
    case Skip => false
    case Section(k, sh, inner) => (k == l && sh == shared) || Takes(inner, l, shared)
    case Then(a, b) => Takes(a, l, shared) || Takes(b, l, shared)
  }

  predicate TakesAny(p: Prog, l: Lock) {
    Takes(p, l, true) || Takes(p, l, false)
  }

  /** `inner` is taken somewhere while `outer` is held. */
  predicate Nests(p: Prog, outer: Lock, inner: Lock) {
    match p
    case Skip => false
    case Section(k, _, body) => (k == outer && TakesAny(body, inner)) || Nests(body, outer, inner)
    case Then(a, b) => Nests(a, outer, inner) || Nests(b, outer, inner)
  }

  lemma {:induction false} LeavesTake(ls: seq<Lock>, l: Lock, outer: Lock)
    ensures TakesAny(Leaves(ls), l) <==> l in ls
    ensures !Takes(Leaves(ls), l, true) && !Nests(Leaves(ls), outer, l)
  {
    if ls == [] {
    } else {
      var one := Section(ls[0], false, Skip);
      assert (Takes(one, l, false) <==> l == ls[0]) && !Takes(one, l, true) && !Nests(one, outer, l);
      LeavesTake(ls[1..], l, outer);
      assert ls == [ls[0]] + ls[1..];
    }
  }

  lemma {:induction false} TimesTakes(p: Prog, n: nat, l: Lock, shared: bool, outer: Lock)
    ensures Takes(Times(p, n), l, shared) <==> n > 0 && Takes(p, l, shared)
    ensures Nests(Times(p, n), outer, l) <==> n > 0 && Nests(p, outer, l)
  {
    if n == 0 {
    } else {
      TimesTakes(p, n - 1, l, shared, outer);
    }
  }

  /** The leavers and the fallback ask for (un)subscriptions under the group lock. */
  lemma {:induction false} RequestsUnderGroupLock(a: seq<Lock>, b: seq<Lock>, n: nat)
    ensures Takes(Leave(a, n), Group, false) && (Nests(Leave(a, n), Group, SubTasks) <==> n > 0)
    ensures Takes(GroupChat(a, b), Group, true) && Nests(GroupChat(a, b), Group, SubTasks)
  {
    LeavesTake(a, SubTasks, Group);
    LeavesTake([SubTasks], SubTasks, Group);
    TimesTakes(Leaves([SubTasks]), n, SubTasks, false, Group);
    TimesTakes(Leaves([SubTasks]), n, SubTasks, true, Group);
    var leaving := Section(Group, false, Times(Leaves([SubTasks]), n));
    assert Nests(leaving, Group, SubTasks) <==> n > 0;
    assert Nests(Then(Leaves(a), leaving), Group, SubTasks) <==> n > 0;
    var loading := Section(Group, false, Leaves([SubTasks]));
    assert Nests(Then(loading, Leaves(b)), Group, SubTasks);
    assert Nests(Then(Leaves(a), Then(loading, Leaves(b))), Group, SubTasks);
  }

  /** Login and join ask for subscriptions after the group lock is released. */
  lemma {:induction false} RequestsAfterGroupLock(a: seq<Lock>, b: seq<Lock>, c: seq<Lock>, n: nat)
    ensures Takes(JoinGroup(a, b), Group, false) && TakesAny(JoinGroup(a, b), SubTasks)
    ensures !Nests(JoinGroup(a, b), Group, SubTasks)
    ensures n > 0 ==> Takes(Login(a, b, c, n), Group, false) && TakesAny(Login(a, b, c, n), SubTasks)
    ensures !Nests(Login(a, b, c, n), Group, SubTasks)
  {
    LeavesTake(a, SubTasks, Group);
    LeavesTake(b, SubTasks, Group);
    LeavesTake(c, SubTasks, Group);
    LeavesTake([SubTasks], SubTasks, Group);
    var update, ask := Section(Group, false, Skip), Leaves([SubTasks]);
    assert Takes(ask, SubTasks, false) && !Nests(update, Group, SubTasks);
    var end := Then(Leaves(b), ask);
    assert Takes(end, SubTasks, false) && !Nests(end, Group, SubTasks);
    assert Takes(Then(update, end), SubTasks, false) && !Nests(Then(update, end), Group, SubTasks);
    var round := Then(update, ask);
    assert Takes(round, SubTasks, false) && Takes(round, Group, false) && !Nests(round, Group, SubTasks);
    TimesTakes(GroupRound(c), n, SubTasks, false, Group);
    TimesTakes(GroupRound(c), n, Group, false, Group);
    var rounds := Then(Leaves(b), Times(GroupRound(c), n));
    assert !Nests(GroupRound(c), Group, SubTasks) && !Nests(rounds, Group, SubTasks);
    assert !Nests(Then(Section(UserConn, false, Skip), rounds), Group, SubTasks) by {
      assert !Nests(Section(UserConn, false, Skip), Group, SubTasks);
    }
    assert n > 0 ==> Takes(rounds, SubTasks, false) && Takes(rounds, Group, false);
    assert n > 0 ==> Takes(Then(Section(UserConn, false, Skip), rounds), SubTasks, false);
    assert n > 0 ==> Takes(Then(Section(UserConn, false, Skip), rounds), Group, false);
  }

  /** Connections are looked up under the user lock, by the inbox under the callback and group locks. */
  lemma {:induction false} LookUpsUnderLocks(a: seq<Lock>, b: seq<Lock>, c: seq<Lock>, n: nat, l: Lock)
    ensures Takes(OneChat(a, b), UserConn, false) && !Nests(OneChat(a, b), UserConn, l)
    ensures Takes(Login(a, b, c, n), UserConn, false) && Takes(Leave(a, n), UserConn, false)
    ensures Takes(CloseOfNobody(), UserConn, false)
    ensures Takes(InboxSingle(a), UserConn, true) && Nests(InboxSingle(a), Callback, UserConn)
    ensures Nests(InboxSingle(a), UserConn, l) <==> l in a
    ensures Nests(InboxGroup(n), Callback, Group) && (Nests(InboxGroup(n), Group, UserConn) <==> n > 0)
    ensures Takes(InboxGroup(n), Group, true) && Takes(GroupChatFound(a), Group, true)
  {
    LeavesTake(a, l, UserConn);
    LeavesTake(b, l, UserConn);
    var lookUp := Section(UserConn, false, Skip);
    assert !Nests(lookUp, UserConn, l) && !Nests(Then(lookUp, Leaves(b)), UserConn, l);
    TimesTakes(Section(UserConn, true, Skip), n, UserConn, true, Group);
    TimesTakes(Section(UserConn, true, Skip), n, UserConn, false, Group);
  }

  // ---------- Threads ----------

  datatype Instr = Acquire(l: Lock, shared: bool) | Release(l: Lock)

  function Flatten(p: Prog): seq<Instr> {
    match p
    case Skip => []
    case Section(l, shared, inner) => [Acquire(l, shared)] + Flatten(inner) + [Release(l)]
    case Then(a, b) => Flatten(a) + Flatten(b)
  }

  /** The code takes exactly the locks of the program, each in its own mode. */
  lemma {:induction false} FlattenTakes(p: Prog, l: Lock, shared: bool)
    ensures Acquire(l, shared) in Flatten(p) <==> Takes(p, l, shared)
  {
    match p
    case Skip =>
    case Section(k, sh, inner) => FlattenTakes(inner, l, shared);
    case Then(a, b) =>
      FlattenTakes(a, l, shared);
      FlattenTakes(b, l, shared);
  }

  /** A thread with the locks it holds, exclusively or shared, and the code it has left. */
  datatype Thread = Thread(exclusive: set<Lock>, shared: set<Lock>, code: seq<Instr>)

  type State = map<ThreadId, Thread>

  function Held(th: Thread): set<Lock> {
    th.exclusive + th.shared
  }

  /** The rest of the code only takes locks above those held, and gives them all back. */
  ghost predicate Disciplined(held: set<Lock>, code: seq<Instr>)
    decreases |code|
  {
    if code == [] then held == {}
    else match code[0]
      case Acquire(l, _) => (forall h :: h in held ==> Rank(h) < Rank(l)) && Disciplined(held + {l}, code[1..])
      case Release(l) => l in held && Disciplined(held - {l}, code[1..])
  }

  lemma {:induction false} FlattenDisciplined(p: Prog, floor: int, held: set<Lock>, rest: seq<Instr>)
    requires Ranked(p, floor) && Disciplined(held, rest)
    requires forall h :: h in held ==> Rank(h) <= floor
    ensures Disciplined(held, Flatten(p) + rest)
    decreases p
  {
    match p
    case Skip => assert [] + rest == rest;
    case Section(l, shared, inner) =>
      var after := [Release(l)] + rest;
      assert l !in held;
      assert held + {l} - {l} == held;
      assert after[1..] == rest;
      FlattenDisciplined(inner, Rank(l), held + {l}, after);
      assert Flatten(p) + rest == [Acquire(l, shared)] + (Flatten(inner) + after);
      assert (Flatten(p) + rest)[1..] == Flatten(inner) + after;
    case Then(a, b) =>
      FlattenDisciplined(b, floor, held, rest);
      FlattenDisciplined(a, floor, held, Flatten(b) + rest);
      assert Flatten(p) + rest == Flatten(a) + (Flatten(b) + rest);
  }

  /** `u` holds `l` in a way that keeps a thread from taking it. */
  predicate Obstructs(s: State, u: ThreadId, l: Lock, shared: bool) {
    u in s && (l in s[u].exclusive || (!shared && l in s[u].shared))
  }

  /** `t` is about to take a lock. */
  predicate Wants(s: State, t: ThreadId) {
    t in s && s[t].code != [] && s[t].code[0].Acquire?
  }

  ghost predicate Obstructed(s: State, t: ThreadId) {
    Wants(s, t) && exists u :: Obstructs(s, u, s[t].code[0].l, s[t].code[0].shared)
  }

  /** A `shared_mutex` may let `t`, a reader, queue up behind `u`, a writer that waits itself. */
  predicate QueuesBehind(s: State, t: ThreadId, u: ThreadId) {
    Wants(s, t) && Wants(s, u) && s[t].code[0].shared && s[u].code[0] == Acquire(s[t].code[0].l, false)
  }

  predicate WaitsFor(s: State, t: ThreadId, u: ThreadId) {
    || (Wants(s, t) && Obstructs(s, u, s[t].code[0].l, s[t].code[0].shared))
    || QueuesBehind(s, t, u)
  }

  datatype Action = Start(t: ThreadId, program: Prog) | Step(t: ThreadId)

  /**
   A thread that has finished may start any program that keeps the lock order. A step needs only
   that no holder is in the way, so both kinds of `shared_mutex` are covered: those that make
   readers queue behind waiting writers and those that do not.
   */
  ghost predicate Enabled(s: State, a: Action) {
    match a
    case Start(t, p) => (t in s ==> s[t].code == []) && Ranked(p, -1)
    case Step(t) => t in s && s[t].code != [] && !Obstructed(s, t)
  }

  function Advance(th: Thread): Thread
    requires th.code != []
  {
    match th.code[0]
    case Acquire(l, shared) =>
      Thread(if shared then th.exclusive else th.exclusive + {l},
             if shared then th.shared + {l} else th.shared, th.code[1..])
    case Release(l) => Thread(th.exclusive - {l}, th.shared - {l}, th.code[1..])
  }

  function Next(s: State, a: Action): State
    requires Enabled(s, a)
  {
    match a
    case Start(t, p) => s[t := Thread({}, {}, Flatten(p))]
    case Step(t) => s[t := Advance(s[t])]
  }

  ghost predicate Valid(s: State, run: seq<Action>)
    decreases |run|
  {
    run == [] || (Enabled(s, run[0]) && Valid(Next(s, run[0]), run[1..]))
  }

  ghost function Exec(s: State, run: seq<Action>): State
    requires Valid(s, run)
    decreases |run|
  {
    if run == [] then s else Exec(Next(s, run[0]), run[1..])
  }

  ghost predicate Inv(s: State) {
    forall t :: t in s ==> Disciplined(Held(s[t]), s[t].code)
  }

  lemma {:induction false} InvStep(s: State, a: Action)
    requires Inv(s) && Enabled(s, a)
    ensures Inv(Next(s, a))
  {
    match a
    case Start(t, p) =>
      FlattenDisciplined(p, -1, {}, []);
      assert Flatten(p) + [] == Flatten(p);
      assert Held(Next(s, a)[t]) == {};
    case Step(t) =>
      var th := s[t];
      assert Held(Advance(th)) ==
        if th.code[0].Acquire? then Held(th) + {th.code[0].l} else Held(th) - {th.code[0].l};
  }

  lemma {:induction false} InvRun(s: State, run: seq<Action>)
    requires Inv(s) && Valid(s, run)
    ensures Inv(Exec(s, run))
    decreases |run|
  {
    if run == [] {
    } else {
      InvStep(s, run[0]);
      InvRun(Next(s, run[0]), run[1..]);
    }
  }

  /** Whoever holds a lock exclusively is its only holder. */
  ghost predicate Exclusion(s: State) {
    forall t, u, l :: t in s && u in s && t != u && l in s[t].exclusive ==> l !in Held(s[u])
  }

  lemma {:induction false} ExclusionStep(s: State, a: Action)
    requires Exclusion(s) && Enabled(s, a)
    ensures Exclusion(Next(s, a))
  {
    var s' := Next(s, a);
    if a.Step? && s[a.t].code[0].Acquire? {
      var l, shared := s[a.t].code[0].l, s[a.t].code[0].shared;
      assert forall u :: !Obstructs(s, u, l, shared);
      forall t, u, k | t in s' && u in s' && t != u && k in s'[t].exclusive ensures k !in Held(s'[u]) {
        assert k in s[t].exclusive ==> k !in Held(s[u]);
        if k == l && (a.t == t || a.t == u) {
          assert !Obstructs(s, u, l, shared) && !Obstructs(s, t, l, shared);
        }
      }
    }
  }

  /** In every reachable state the locks exclude: an exclusive holder is the only holder. */
  lemma {:induction false} LocksExclude(s: State, run: seq<Action>)
    requires Exclusion(s) && Valid(s, run)
    ensures Exclusion(Exec(s, run))
    decreases |run|
  {
    if run == [] {
    } else {
      ExclusionStep(s, run[0]);
      LocksExclude(Next(s, run[0]), run[1..]);
    }
  }

  /** Only a holder is in the way: a lock nobody holds, or a reader's lock held by readers, is free. */
  lemma {:induction false} ObstructedExactly(s: State, t: ThreadId)
    requires Wants(s, t)
    ensures var l, shared := s[t].code[0].l, s[t].code[0].shared;
      Obstructed(s, t) <==> exists u :: u in s && l in Held(s[u]) && (shared ==> l in s[u].exclusive)
  {
    var l, shared := s[t].code[0].l, s[t].code[0].shared;
    if u :| Obstructs(s, u, l, shared) {
      assert u in s && l in Held(s[u]);
    }
    if u :| u in s && l in Held(s[u]) && (shared ==> l in s[u].exclusive) {
      assert Obstructs(s, u, l, shared);
    }
  }

  ghost predicate WaitsWithin(s: State, d: set<ThreadId>, t: ThreadId) {
    exists u :: u in d && WaitsFor(s, t, u)
  }

  /** Threads that wait only for one another; every cycle of lock waits is such a set. */
  ghost predicate Deadlocked(s: State, d: set<ThreadId>) {
    d != {} && forall t {:trigger WaitsWithin(s, d, t)} :: t in d ==> WaitsWithin(s, d, t)
  }

  function WantedRank(s: State, t: ThreadId): (r: nat)
    ensures r <= 3
  {
    if Wants(s, t) then Rank(s[t].code[0].l) else 0
  }

  /** Along a chain of waits the locks climb, or a reader is followed by a writer of the same one. */
  lemma {:induction false} WaitsClimb(s: State, t: ThreadId, u: ThreadId)
    requires Inv(s) && WaitsFor(s, t, u) && Wants(s, u)
    ensures WantedRank(s, t) < WantedRank(s, u) ||
      (WantedRank(s, t) == WantedRank(s, u) && s[t].code[0].shared && !s[u].code[0].shared)
  {
    if !QueuesBehind(s, t, u) {
      assert s[t].code[0].l in Held(s[u]);
      assert Disciplined(Held(s[u]), s[u].code);
    }
  }

  lemma {:induction false} NoDeadlockFrom(s: State, d: set<ThreadId>, t: ThreadId)
    requires Inv(s) && t in d
    ensures !Deadlocked(s, d)
    decreases 3 - WantedRank(s, t), Wants(s, t) && s[t].code[0].shared
  {
    if Deadlocked(s, d) {
      assert WaitsWithin(s, d, t);
      var u :| u in d && WaitsFor(s, t, u);
      assert WaitsWithin(s, d, u);
      WaitsClimb(s, t, u);
      NoDeadlockFrom(s, d, u);
    }
  }

  /** No reachable state, for any number of threads, contains a deadlock. */
  lemma {:induction false} DeadlockFree(run: seq<Action>, d: set<ThreadId>)
    requires Valid(map[], run)
    ensures !Deadlocked(Exec(map[], run), d)
  {
    InvRun(map[], run);
    if d != {} {
      var t := Member(d);
      NoDeadlockFrom(Exec(map[], run), d, t);
    }
  }

  function Busy(s: State): set<ThreadId> {
    set t | t in s && s[t].code != []
  }

  /** Whoever a thread waits for still has code left: it must give the lock back, or take it first. */
  lemma {:induction false} WaitsForBusy(s: State, t: ThreadId, u: ThreadId)
    requires Inv(s) && WaitsFor(s, t, u)
    ensures u in Busy(s)
  {
    if !QueuesBehind(s, t, u) {
      assert Disciplined(Held(s[u]), s[u].code);
      assert s[t].code[0].l in Held(s[u]);
    }
  }

  /**
   As long as some thread has code left, some thread waits for nobody, neither a holder nor a
   queued writer, and can take a step.
   */
  lemma {:induction false} SomeThreadCanStep(run: seq<Action>, t: ThreadId)
    requires Valid(map[], run)
    requires t in Busy(Exec(map[], run))
    ensures exists u :: Enabled(Exec(map[], run), Step(u)) && forall v :: !WaitsFor(Exec(map[], run), u, v)
  {
    InvRun(map[], run);
    var s := Exec(map[], run);
    DeadlockFree(run, Busy(s));
    assert Busy(s) != {};
    var u :| u in Busy(s) && !WaitsWithin(s, Busy(s), u);
    forall v ensures !WaitsFor(s, u, v) {
      if WaitsFor(s, u, v) {
        WaitsForBusy(s, u, v);
      }
    }
    if Obstructed(s, u) {
      var v :| Obstructs(s, v, s[u].code[0].l, s[u].code[0].shared);
      assert WaitsFor(s, u, v);
    }
    assert Enabled(s, Step(u));
  }
}
