/**
 One server node as an interleaving system. Any number of handler threads update
 `groupMembers_` and call `subscribeGroupChannel`/`unsubscribeGroupChannel`; the subscriber
 thread swaps the task queue out and applies it. Every step is one critical section or one
 Redis call of one thread; the choices of the scheduler and of Redis are in the action.
 */
module NodeSystem {

  import opened ChatTypes
  import opened Subscription

  /** Where a handler thread stands. */
  datatype Pc =
    | Idle
    /** Members updated, lock released, `subscribeGroupChannel(g)` still to be called. */
    | OwesSubscribe(g: GroupId)
    /** `groupChat` found no entry for `g` and is reading the members from the database. */
    | Loading(g: GroupId)
    /** `groupChat` filled the entry and calls `subscribeGroupChannel(g)` under the group lock. */
    | OwesLocked(g: GroupId)
    /** `loginOut` or `clientQuitEcption` in its loop over the groups, under the group lock. */
    | Leaving(id: UserId, todo: set<GroupId>)
    /** As `Leaving`, having found `g` empty and about to call `unsubscribeGroupChannel(g)`. */
    | Dropping(id: UserId, g: GroupId, todo: set<GroupId>)

  datatype Phase = Running | CleaningUp | Finished

  datatype State = State(
    members: Members,
    groupLock: Option<ThreadId>,
    pcs: map<ThreadId, Pc>,
    subscribed: set<GroupId>,
    queue: seq<Task>,
    batch: seq<Task>,
    /** The task whose Redis call is done while `sub_group_set_` is not yet updated. */
    inHand: Option<Task>,
    channels: set<GroupId>,
    phase: Phase,
    stopFlag: bool
  )

  datatype Action =
    | AddMember(t: ThreadId, g: GroupId, u: UserId)
    | AddEntry(t: ThreadId, g: GroupId)
    | CheckEntry(t: ThreadId, g: GroupId)
    | Fill(t: ThreadId, ids: set<UserId>)
    | CallSubscribe(t: ThreadId)
    | BeginLeave(t: ThreadId, id: UserId)
    | Visit(t: ThreadId, g: GroupId)
    | CallUnsubscribe(t: ThreadId)
    | EndLeave(t: ThreadId)
    | Swap
    | RedisCall(ok: bool)
    | Record
    | TakeStop
    | RequestStop
    | LeaveLoop
    /** The clean-up got as far as unsubscribing `done` before a call threw, if any did. */
    | CleanUp(done: set<GroupId>)

  const INIT := State(map[], None, map[], {}, [], [], None, {}, Running, false)

  function PcOf(s: State, t: ThreadId): Pc {
    if t in s.pcs then s.pcs[t] else Idle
  }

  function Pending(s: State): seq<Task> {
    (if s.inHand.Some? then [s.inHand.value] else []) + s.batch + s.queue
  }

  predicate Owes(pc: Pc, g: GroupId) {
    pc == OwesSubscribe(g) || pc == OwesLocked(g)
  }

  predicate HoldsGroupLock(pc: Pc) {
    pc.OwesLocked? || pc.Leaving? || pc.Dropping?
  }

  predicate Enabled(s: State, a: Action) {
    match a
    case AddMember(t, g, u) => PcOf(s, t).Idle? && s.groupLock.None?
    case AddEntry(t, g) => PcOf(s, t).Idle? && s.groupLock.None?
    case CheckEntry(t, g) => PcOf(s, t).Idle? && s.groupLock.None?
    case Fill(t, ids) => PcOf(s, t).Loading? && s.groupLock.None?
    case CallSubscribe(t) => PcOf(s, t).OwesSubscribe? || PcOf(s, t).OwesLocked?
    case BeginLeave(t, id) => PcOf(s, t).Idle? && s.groupLock.None?
    case Visit(t, g) => PcOf(s, t).Leaving? && g in PcOf(s, t).todo && g in s.members
    case CallUnsubscribe(t) => PcOf(s, t).Dropping?
    case EndLeave(t) => PcOf(s, t).Leaving? && PcOf(s, t).todo == {}
    case Swap => s.phase.Running? && s.inHand.None? && s.batch == []
    case RedisCall(ok) => s.phase.Running? && s.inHand.None? && s.batch != [] && !s.batch[0].Stop?
    case Record => s.inHand.Some?
    case TakeStop => s.phase.Running? && s.inHand.None? && s.batch != [] && s.batch[0].Stop?
    case RequestStop => !s.stopFlag
    case LeaveLoop => s.phase.Running? && s.inHand.None? && s.batch == [] && s.stopFlag
    case CleanUp(done) => s.phase.CleaningUp? && done <= s.subscribed
  }

  function Next(s: State, a: Action): State
    requires Enabled(s, a)
  {
    match a
    case AddMember(t, g, u) =>
      s.(members := WithMembers(s.members, g, {u}), pcs := s.pcs[t := OwesSubscribe(g)])
    case AddEntry(t, g) =>
      s.(members := WithMembers(s.members, g, {}), pcs := s.pcs[t := OwesSubscribe(g)])
    case CheckEntry(t, g) =>
      if g in s.members then s else s.(pcs := s.pcs[t := Loading(g)])
    case Fill(t, ids) =>
      var g := PcOf(s, t).g;
      s.(members := if ids == {} then s.members else WithMembers(s.members, g, ids),
         groupLock := Some(t),
         pcs := s.pcs[t := OwesLocked(g)])
    case CallSubscribe(t) =>
      var g := PcOf(s, t).g;
      s.(queue := AfterSubscribe(s.subscribed, s.queue, g),
         groupLock := if PcOf(s, t).OwesLocked? then None else s.groupLock,
         pcs := s.pcs[t := Idle])
    case BeginLeave(t, id) =>
      s.(groupLock := Some(t), pcs := s.pcs[t := Leaving(id, s.members.Keys)])
    case Visit(t, g) =>
      var Leaving(id, todo) := PcOf(s, t);
      var left := s.members[g] - {id};
      s.(members := s.members[g := left],
         pcs := s.pcs[t := if left == {} then Dropping(id, g, todo - {g}) else Leaving(id, todo - {g})])
    case CallUnsubscribe(t) =>
      var Dropping(id, g, todo) := PcOf(s, t);
      s.(queue := AfterUnsubscribe(s.subscribed, s.queue, g),
         pcs := s.pcs[t := Leaving(id, todo)])
    case EndLeave(t) => s.(groupLock := None, pcs := s.pcs[t := Idle])
    case Swap => s.(batch := s.queue, queue := [])
    case RedisCall(ok) =>
      if ok then
        s.(channels := Settle(s.channels, s.batch[0]), inHand := Some(s.batch[0]), batch := s.batch[1..])
      else
        s.(batch := s.batch[1..])
    case Record => s.(subscribed := Settle(s.subscribed, s.inHand.value), inHand := None)
    case TakeStop => s.(batch := [], stopFlag := true, phase := CleaningUp)
    case RequestStop => s.(stopFlag := true, queue := s.queue + [Stop])
    case LeaveLoop => s.(phase := CleaningUp)
    case CleanUp(done) => s.(channels := s.channels - done, phase := Finished)
  }

  /** The actions can be taken one after the other from `s`. */
  predicate Valid(s: State, run: seq<Action>)
    decreases |run|
  {
    run == [] || (Enabled(s, run[0]) && Valid(Next(s, run[0]), run[1..]))
  }

  function Exec(s: State, run: seq<Action>): State
    requires Valid(s, run)
    decreases |run|
  {
    if run == [] then s else Exec(Next(s, run[0]), run[1..])
  }

  // ---------- What every step keeps ----------

  /** The holder of the group lock is the one thread inside a locked section. */
  ghost predicate LockHeld(s: State) {
    && (forall t :: t in s.pcs && HoldsGroupLock(s.pcs[t]) ==> s.groupLock == Some(t))
    && (s.groupLock.Some? ==> s.groupLock.value in s.pcs && HoldsGroupLock(s.pcs[s.groupLock.value]))
  }

  /** A leaver that is about to unsubscribe a group still finds it empty. */
  ghost predicate DropsOnlyEmpty(s: State) {
    forall t :: t in s.pcs && s.pcs[t].Dropping? ==> MembersOf(s.members, s.pcs[t].g) == {}
  }

  /** A leaver has erased its id from every group it has visited. */
  ghost predicate VisitedAreErased(s: State) {
    forall t, g :: t in s.pcs && (s.pcs[t].Leaving? || s.pcs[t].Dropping?) && g !in s.pcs[t].todo ==>
      s.pcs[t].id !in MembersOf(s.members, g)
  }

  /** Redis agrees with `sub_group_set_`, up to the task in hand. */
  ghost predicate ChannelsMatch(s: State) {
    && (s.inHand.Some? ==> !s.inHand.value.Stop? && s.phase.Running?)
    && (!s.phase.Finished? ==>
          s.channels == if s.inHand.Some? then Settle(s.subscribed, s.inHand.value) else s.subscribed)
  }

  ghost predicate NoEarlyStop(s: State) {
    !s.stopFlag ==> s.phase.Running? && NoStop(Pending(s))
  }

  ghost predicate Inv(s: State) {
    LockHeld(s) && DropsOnlyEmpty(s) && VisitedAreErased(s) && ChannelsMatch(s) && NoEarlyStop(s)
  }

  lemma {:induction false} LockStep(s: State, a: Action)
    requires LockHeld(s) && Enabled(s, a)
    ensures LockHeld(Next(s, a))
  {
  }

  lemma {:induction false} DropsStep(s: State, a: Action)
    requires LockHeld(s) && DropsOnlyEmpty(s) && Enabled(s, a)
    ensures DropsOnlyEmpty(Next(s, a))
  {
    var s' := Next(s, a);
    forall t | t in s'.pcs && s'.pcs[t].Dropping? ensures MembersOf(s'.members, s'.pcs[t].g) == {} {
      if !(a.Visit? && a.t == t) {
        assert t in s.pcs && s.pcs[t] == s'.pcs[t] && s.groupLock == Some(t);
      }
    }
  }

  lemma {:induction false} ErasedStep(s: State, a: Action)
    requires LockHeld(s) && VisitedAreErased(s) && Enabled(s, a)
    ensures VisitedAreErased(Next(s, a))
  {
    var s' := Next(s, a);
    forall t, g | t in s'.pcs && (s'.pcs[t].Leaving? || s'.pcs[t].Dropping?) && g !in s'.pcs[t].todo
      ensures s'.pcs[t].id !in MembersOf(s'.members, g)
    {
      if !(a.BeginLeave? && a.t == t) {
        assert t in s.pcs && (s.pcs[t].Leaving? || s.pcs[t].Dropping?) && s.pcs[t].id == s'.pcs[t].id;
        assert s.groupLock == Some(t);
        assert g !in s.pcs[t].todo ==> s.pcs[t].id !in MembersOf(s.members, g);
      }
    }
  }

  lemma {:induction false} NoEarlyStopStep(s: State, a: Action)
    requires NoEarlyStop(s) && Enabled(s, a)
    ensures NoEarlyStop(Next(s, a))
  {
    var s' := Next(s, a);
    if !s'.stopFlag {
      forall i | 0 <= i < |Pending(s')| ensures !Pending(s')[i].Stop? {
        var t := Pending(s')[i];
        assert t in Pending(s) || (a.CallSubscribe? && t.Subscribe?) || (a.CallUnsubscribe? && t.Unsubscribe?);
      }
    }
  }

  lemma {:induction false} InvStep(s: State, a: Action)
    requires Inv(s) && Enabled(s, a)
    ensures Inv(Next(s, a))
  {
    LockStep(s, a);
    DropsStep(s, a);
    ErasedStep(s, a);
    NoEarlyStopStep(s, a);
  }

  // ---------- What a step does to memberships, entries and owed calls ----------

  predicate Records(s: State, a: Action, g: GroupId, u: UserId) {
    || (a.AddMember? && a.g == g && a.u == u)
    || (a.Fill? && PcOf(s, a.t) == Loading(g) && u in a.ids)
  }

  /** The leaver `u` comes to group `g`. */
  predicate Erases(s: State, a: Action, g: GroupId, u: UserId) {
    a.Visit? && a.g == g && (PcOf(s, a.t).Leaving? && PcOf(s, a.t).id == u)
  }

  /** Nobody is recorded or erased but by an own step, whichever threads are at work. */
  lemma {:induction false} MembershipStep(s: State, a: Action, g: GroupId, u: UserId)
    requires Enabled(s, a)
    ensures u in MembersOf(Next(s, a).members, g) <==>
      Records(s, a, g, u) || (u in MembersOf(s.members, g) && !Erases(s, a, g, u))
  {
  }

  lemma {:induction false} EntryStep(s: State, a: Action, g: GroupId)
    requires Enabled(s, a)
    ensures g in Next(s, a).members <==>
      || g in s.members
      || ((a.AddMember? || a.AddEntry?) && a.g == g)
      || (a.Fill? && PcOf(s, a.t) == Loading(g) && a.ids != {})
  {
  }

  /** A thread owes a subscribe call from its update of the members until it makes the call. */
  lemma {:induction false} OwesStep(s: State, a: Action, t: ThreadId, g: GroupId)
    requires Enabled(s, a)
    ensures Owes(PcOf(Next(s, a), t), g) <==>
      || (Owes(PcOf(s, t), g) && a != CallSubscribe(t))
      || ((a.AddMember? || a.AddEntry?) && a.t == t && a.g == g)
      || (a.Fill? && a.t == t && PcOf(s, t) == Loading(g))
  {
  }

  /** The members are read from the database only when the node has no entry for the group. */
  lemma {:induction false} LoadingStep(s: State, a: Action, t: ThreadId, g: GroupId)
    requires Enabled(s, a)
    ensures PcOf(Next(s, a), t) == Loading(g) <==>
      || (PcOf(s, t) == Loading(g) && !(a.Fill? && a.t == t))
      || (a == CheckEntry(t, g) && g !in s.members)
  {
  }

  ghost predicate NeverErased(s: State, run: seq<Action>, g: GroupId, u: UserId)
    requires Valid(s, run)
    decreases |run|
  {
    run != [] ==> !Erases(s, run[0], g, u) && NeverErased(Next(s, run[0]), run[1..], g, u)
  }

  ghost predicate AlwaysMember(s: State, run: seq<Action>, g: GroupId, u: UserId)
    requires Valid(s, run)
    decreases |run|
  {
    u in MembersOf(s.members, g) && (run != [] ==> AlwaysMember(Next(s, run[0]), run[1..], g, u))
  }

  /**
   Under every interleaving a recorded member stays recorded, whoever joins, loads or leaves, if
   and only if no leaver with its own id visits the group.
   */
  lemma {:induction false} MemberUntilErased(s: State, run: seq<Action>, g: GroupId, u: UserId)
    requires Valid(s, run) && u in MembersOf(s.members, g)
    ensures AlwaysMember(s, run, g, u) <==> NeverErased(s, run, g, u)
    decreases |run|
  {
    if run == [] {
    } else {
      MembershipStep(s, run[0], g, u);
      if u in MembersOf(Next(s, run[0]).members, g) {
        MemberUntilErased(Next(s, run[0]), run[1..], g, u);
      }
    }
  }

  // ---------- Subscriptions track members ----------

  /** A node with a member of `g` is heading for a subscription, or a handler is about to ask. */
  ghost predicate Owed(s: State, g: GroupId) {
    exists t :: t in s.pcs && Owes(s.pcs[t], g)
  }

  ghost predicate Tracks(s: State, g: GroupId) {
    MembersOf(s.members, g) != {} ==> Target(s.subscribed, Pending(s), g) || Owed(s, g)
  }

  /** `subscribeGroupChannel(g)` returns early although the pending tasks will unsubscribe `g`. */
  predicate StaleSkip(s: State, a: Action, g: GroupId) {
    && a.CallSubscribe?
    && Owes(PcOf(s, a.t), g)
    && g in s.subscribed
    && LastTask(Pending(s), g) == Some(Unsubscribe(g))
  }

  predicate FailedSubscribe(s: State, a: Action, g: GroupId) {
    a == RedisCall(false) && s.batch != [] && s.batch[0] == Subscribe(g)
  }

  /**
   The two steps that leave a populated group behind: the last handler that owes a call makes
   it and is skipped although an unsubscribe is coming, or Redis fails the only task that
   would have subscribed the group.
   */
  ghost predicate LeavesGap(s: State, a: Action, g: GroupId) {
    && MembersOf(s.members, g) != {}
    && (|| (StaleSkip(s, a, g) && forall t :: t in s.pcs && t != a.t ==> !Owes(s.pcs[t], g))
        || (FailedSubscribe(s, a, g) && !Owed(s, g) && g !in s.subscribed && LastTask(Pending(s)[1..], g).None?))
  }

  ghost predicate NoGap(s: State, run: seq<Action>, g: GroupId)
    requires Valid(s, run)
    decreases |run|
  {
    run != [] ==> !LeavesGap(s, run[0], g) && NoGap(Next(s, run[0]), run[1..], g)
  }

  /** Membership of `g` is tracked in every state of the run. */
  ghost predicate AlwaysTracks(s: State, run: seq<Action>, g: GroupId)
    requires Valid(s, run)
    decreases |run|
  {
    Tracks(s, g) && (run != [] ==> AlwaysTracks(Next(s, run[0]), run[1..], g))
  }

  lemma {:induction false} TargetMonotone(small: set<GroupId>, large: set<GroupId>, tasks: seq<Task>, g: GroupId)
    requires g in small ==> g in large
    ensures Target(small, tasks, g) ==> Target(large, tasks, g)
  {
  }

  /** How the subscriber thread's steps move the pending tasks. */
  lemma {:induction false} SubscriberStepPending(s: State, a: Action)
    requires Enabled(s, a)
    requires a.Swap? || a.RedisCall? || a.Record?
    ensures var s' := Next(s, a);
      if a.Record? || a == RedisCall(false) then Pending(s) != [] && Pending(s') == Pending(s)[1..]
      else Pending(s') == Pending(s)
    ensures a == RedisCall(false) ==> Pending(s)[0] == s.batch[0]
    ensures a.Record? ==> Pending(s)[0] == s.inHand.value
  {
    var s' := Next(s, a);
    match a
    case Swap => assert Pending(s') == Pending(s);
    case RedisCall(ok) =>
      assert Pending(s) == s.batch + s.queue;
      assert s.batch + s.queue == [s.batch[0]] + s.batch[1..] + s.queue;
      if !ok { assert Pending(s') == Pending(s)[1..]; }
    case Record =>
      assert Pending(s) == [s.inHand.value] + s.batch + s.queue;
      assert Pending(s') == Pending(s)[1..];
  }

  lemma {:induction false} SubscriberStepKeepsTarget(s: State, a: Action, g: GroupId)
    requires Inv(s) && Enabled(s, a) && !s.stopFlag
    requires a.Swap? || a.RedisCall? || a.Record?
    requires !FailedSubscribe(s, a, g)
    requires Target(s.subscribed, Pending(s), g)
    ensures Target(Next(s, a).subscribed, Pending(Next(s, a)), g)
  {
    SubscriberStepPending(s, a);
    if a.Record? || a == RedisCall(false) {
      var head, rest := Pending(s)[0], Pending(s)[1..];
      TargetHead(s.subscribed, Pending(s), g);
      if a == RedisCall(false) {
        TargetMonotone(Settle(s.subscribed, head), s.subscribed, rest, g);
      }
    }
  }

  lemma {:induction false} PendingAfterEnqueue(s: State, s': State, t: Task)
    requires s'.inHand == s.inHand && s'.batch == s.batch && s'.queue == s.queue + [t]
    ensures Pending(s') == Pending(s) + [t]
  {
  }

  lemma {:induction false} OwedPersists(s: State, s': State, g: GroupId)
    requires Owed(s, g)
    requires forall t :: t in s.pcs && Owes(s.pcs[t], g) ==> t in s'.pcs && Owes(s'.pcs[t], g)
    ensures Owed(s', g)
  {
    var t :| t in s.pcs && Owes(s.pcs[t], g);
    assert t in s'.pcs && Owes(s'.pcs[t], g);
  }

  /** A call for another group. */
  lemma {:induction false} OtherCallTracks(s: State, a: Action, g: GroupId)
    requires Inv(s) && Enabled(s, a) && a.CallSubscribe? && PcOf(s, a.t).g != g
    requires Tracks(s, g)
    ensures Tracks(Next(s, a), g)
  {
    var s' := Next(s, a);
    var h := PcOf(s, a.t).g;
    if h !in s.subscribed {
      PendingAfterEnqueue(s, s', Subscribe(h));
      TargetSnoc(s.subscribed, Pending(s), Subscribe(h), g);
    } else {
      assert Pending(s') == Pending(s);
    }
    if Owed(s, g) {
      OwedPersists(s, s', g);
    }
  }

  lemma {:induction false} CallSubscribeTracks(s: State, a: Action, g: GroupId)
    requires Inv(s) && Enabled(s, a) && a.CallSubscribe?
    requires Tracks(s, g)
    ensures Tracks(Next(s, a), g) <==> !LeavesGap(s, a, g)
  {
    var s' := Next(s, a);
    if PcOf(s, a.t).g != g {
      OtherCallTracks(s, a, g);
    } else if g !in s.subscribed {
      PendingAfterEnqueue(s, s', Subscribe(g));
      TargetSnoc(s.subscribed, Pending(s), Subscribe(g), g);
    } else {
      assert Pending(s') == Pending(s);
      assert Owed(s', g) <==> exists t :: t in s.pcs && t != a.t && Owes(s.pcs[t], g) by {
        if t :| t in s.pcs && t != a.t && Owes(s.pcs[t], g) {
          assert t in s'.pcs && Owes(s'.pcs[t], g);
        }
      }
    }
  }

  lemma {:induction false} CallUnsubscribeTracks(s: State, a: Action, g: GroupId)
    requires Inv(s) && Enabled(s, a) && a.CallUnsubscribe?
    requires Tracks(s, g)
    ensures Tracks(Next(s, a), g)
  {
    var s' := Next(s, a);
    var h := PcOf(s, a.t).g;
    if MembersOf(s'.members, g) != {} {
      assert h != g;
      if h in s.subscribed {
        PendingAfterEnqueue(s, s', Unsubscribe(h));
        TargetSnoc(s.subscribed, Pending(s), Unsubscribe(h), g);
      } else {
        assert Pending(s') == Pending(s);
      }
      if Owed(s, g) {
        OwedPersists(s, s', g);
      }
    }
  }

  lemma {:induction false} FailedSubscribeTracks(s: State, a: Action, g: GroupId)
    requires Inv(s) && Enabled(s, a) && !s.stopFlag
    requires Tracks(s, g) && FailedSubscribe(s, a, g)
    ensures Tracks(Next(s, a), g) <==> !LeavesGap(s, a, g)
  {
    var s' := Next(s, a);
    SubscriberStepPending(s, a);
    TargetHead(s.subscribed, Pending(s), g);
    assert Owed(s', g) <==> Owed(s, g);
  }

  lemma {:induction false} MoveTracks(s: State, a: Action, g: GroupId)
    requires Inv(s) && Enabled(s, a) && !s.stopFlag
    requires a.Swap? || a.RedisCall? || a.Record?
    requires Tracks(s, g) && !FailedSubscribe(s, a, g)
    ensures Tracks(Next(s, a), g)
  {
    var s' := Next(s, a);
    if MembersOf(s'.members, g) != {} {
      if Owed(s, g) {
        OwedPersists(s, s', g);
      } else {
        SubscriberStepKeepsTarget(s, a, g);
      }
    }
  }

  lemma {:induction false} HandlerTracks(s: State, a: Action, g: GroupId)
    requires Inv(s) && Enabled(s, a) && !Next(s, a).stopFlag
    requires !(a.CallSubscribe? || a.CallUnsubscribe? || a.Swap? || a.RedisCall? || a.Record?)
    requires Tracks(s, g)
    ensures Tracks(Next(s, a), g)
  {
    var s' := Next(s, a);
    assert Pending(s') == Pending(s);
    if (a.AddMember? || a.AddEntry? || a.Fill?) && Owes(PcOf(s', a.t), g) {
      assert a.t in s'.pcs;
    } else if Owed(s, g) {
      OwedPersists(s, s', g);
    }
  }

  /** From a state that tracks `g`, a step before shutdown stops tracking it exactly if it is a gap. */
  lemma {:induction false} TracksStep(s: State, a: Action, g: GroupId)
    requires Inv(s) && Enabled(s, a) && !Next(s, a).stopFlag
    requires Tracks(s, g)
    ensures Tracks(Next(s, a), g) <==> !LeavesGap(s, a, g)
  {
    if a.CallSubscribe? {
      CallSubscribeTracks(s, a, g);
    } else if a.CallUnsubscribe? {
      CallUnsubscribeTracks(s, a, g);
    } else if FailedSubscribe(s, a, g) {
      FailedSubscribeTracks(s, a, g);
    } else if a.Swap? || a.RedisCall? || a.Record? {
      MoveTracks(s, a, g);
    } else {
      HandlerTracks(s, a, g);
    }
  }

  // ---------- Over whole runs ----------

  lemma {:induction false} InvRun(s: State, run: seq<Action>)
    requires Inv(s) && Valid(s, run)
    ensures Inv(Exec(s, run))
    ensures s.stopFlag ==> Exec(s, run).stopFlag
    decreases |run|
  {
    if run == [] {
    } else {
      InvStep(s, run[0]);
      InvRun(Next(s, run[0]), run[1..]);
    }
  }

  lemma {:induction false} TracksRun(s: State, run: seq<Action>, g: GroupId)
    requires Inv(s) && Valid(s, run) && !Exec(s, run).stopFlag
    requires Tracks(s, g)
    ensures AlwaysTracks(s, run, g) <==> NoGap(s, run, g)
    decreases |run|
  {
    if run == [] {
    } else {
      var s' := Next(s, run[0]);
      InvStep(s, run[0]);
      InvRun(s', run[1..]);
      TracksStep(s, run[0], g);
      if Tracks(s', g) {
        TracksRun(s', run[1..], g);
      }
    }
  }

  /**
   Subscription tracks membership: in a run before shutdown, with any threads, interleaving
   and Redis failures, every state with a member in `g` is heading for a subscription, or has
   a handler that still owes its call, if and only if no step of the run leaves a gap.
   */
  lemma {:induction false} SubscriptionTracksMembership(run: seq<Action>, g: GroupId)
    requires Valid(INIT, run) && !Exec(INIT, run).stopFlag
    ensures AlwaysTracks(INIT, run, g) <==> NoGap(INIT, run, g)
  {
    TracksRun(INIT, run, g);
  }

  lemma {:induction false} AlwaysTracksAtEnd(s: State, run: seq<Action>, g: GroupId)
    requires Valid(s, run) && AlwaysTracks(s, run, g)
    ensures Tracks(Exec(s, run), g)
    decreases |run|
  {
    if run == [] {
    } else {
      AlwaysTracksAtEnd(Next(s, run[0]), run[1..], g);
    }
  }

  const JOINED := State(map[7 := {42}], None, map[1 := Idle], {7}, [], [], None, {7}, Running, false)

  const LEFT := State(map[7 := {}], None, map[1 := Idle], {7}, [Unsubscribe(7)], [], None, {7}, Running, false)

  const DESERTED := State(map[7 := {42}], None, map[1 := Idle], {}, [], [], None, {}, Running, false)

  const ASKED := State(map[7 := {42}], None, map[1 := Idle], {}, [Subscribe(7)], [], None, {}, Running, false)

  const EXCESS := State(map[7 := {}], None, map[1 := Idle], {7}, [], [], None, {7}, Running, false)

  ghost predicate Reaches(s: State, end: State) {
    exists run :: Valid(s, run) && Exec(s, run) == end
  }

  lemma {:induction false} ReachesSelf(s: State)
    ensures Reaches(s, s)
  {
    assert Valid(s, []) && Exec(s, []) == s;
  }

  lemma {:induction false} StepFirst(s: State, a: Action, end: State)
    requires Enabled(s, a) && Reaches(Next(s, a), end)
    ensures Reaches(s, end)
  {
    var rest :| Valid(Next(s, a), rest) && Exec(Next(s, a), rest) == end;
    var run := [a] + rest;
    assert run[1..] == rest;
    assert Valid(s, run) && Exec(s, run) == end;
  }

  /** Draining a queue of one task, undisturbed. */
  lemma {:induction false} DrainOne(s: State, t: Task, end: State)
    requires s.phase.Running? && s.inHand.None? && s.batch == [] && s.queue == [t] && !t.Stop?
    requires Reaches(s.(queue := [], subscribed := Settle(s.subscribed, t), channels := Settle(s.channels, t)), end)
    ensures Reaches(s, end)
  {
    var s1 := Next(s, Swap);
    var s2 := Next(s1, RedisCall(true));
    assert s2.batch == [];
    StepFirst(s2, Record, end);
    StepFirst(s1, RedisCall(true), end);
    StepFirst(s, Swap, end);
  }

  /** Joining group 7, whether or not the call to subscribe is skipped. */
  lemma {:induction false} JoinSeven(s: State, end: State)
    requires PcOf(s, 1).Idle? && s.groupLock.None? && MembersOf(s.members, 7) == {}
    requires Reaches(
      s.(members := s.members[7 := {42}], pcs := s.pcs[1 := Idle], queue := AfterSubscribe(s.subscribed, s.queue, 7)),
      end)
    ensures Reaches(s, end)
  {
    var s1 := Next(s, AddMember(1, 7, 42));
    assert {} + {42} == {42};
    assert s1.pcs[1 := Idle] == s.pcs[1 := Idle];
    StepFirst(s1, CallSubscribe(1), end);
    StepFirst(s, AddMember(1, 7, 42), end);
  }

  lemma {:induction false} JoinAndAsk(end: State)
    requires Reaches(ASKED, end)
    ensures Reaches(INIT, end)
  {
    assert INIT.members[7 := {42}] == map[7 := {42}] && INIT.pcs[1 := Idle] == map[1 := Idle];
    assert AfterSubscribe({}, [], 7) == [Subscribe(7)];
    JoinSeven(INIT, end);
  }

  lemma {:induction false} JoinAndSubscribe(end: State)
    requires Reaches(JOINED, end)
    ensures Reaches(INIT, end)
  {
    assert Settle({}, Subscribe(7)) == {7};
    DrainOne(ASKED, Subscribe(7), end);
    JoinAndAsk(end);
  }

  /** The only member of the only group leaves. */
  lemma {:induction false} LeaveSeven(s: State, end: State)
    requires PcOf(s, 1).Idle? && s.groupLock.None? && s.members.Keys == {7} && s.members[7] == {42}
    requires Reaches(
      s.(members := s.members[7 := {}], pcs := s.pcs[1 := Idle], queue := AfterUnsubscribe(s.subscribed, s.queue, 7)),
      end)
    ensures Reaches(s, end)
  {
    var s1 := Next(s, BeginLeave(1, 42));
    assert s1.pcs[1] == Leaving(42, {7});
    var s2 := Next(s1, Visit(1, 7));
    assert {7} - {7} == {} && {42} - {42} == {};
    assert s2.pcs[1] == Dropping(42, 7, {});
    var s3 := Next(s2, CallUnsubscribe(1));
    assert s3.pcs[1 := Idle] == s.pcs[1 := Idle];
    StepFirst(s3, EndLeave(1), end);
    StepFirst(s2, CallUnsubscribe(1), end);
    StepFirst(s1, Visit(1, 7), end);
    StepFirst(s, BeginLeave(1, 42), end);
  }

  lemma {:induction false} LeaveBeforeDrain(end: State)
    requires Reaches(LEFT, end)
    ensures Reaches(JOINED, end)
  {
    assert JOINED.members[7 := {}] == map[7 := {}] && JOINED.pcs[1 := Idle] == map[1 := Idle];
    assert AfterUnsubscribe({7}, [], 7) == [Unsubscribe(7)];
    LeaveSeven(JOINED, end);
  }

  lemma {:induction false} RejoinTooEarly()
    ensures Reaches(LEFT, DESERTED)
  {
    ReachesSelf(DESERTED);
    assert Settle({7}, Unsubscribe(7)) == {};
    var skipped := LEFT.(members := map[7 := {42}]);
    DrainOne(skipped, Unsubscribe(7), DESERTED);
    assert LEFT.members[7 := {42}] == map[7 := {42}] && LEFT.pcs[1 := Idle] == map[1 := Idle];
    JoinSeven(LEFT, DESERTED);
  }

  /**
   The first kind of gap is reached: a member leaves, joins again before the queued
   unsubscribe is applied, and is left without a subscription once everything is drained.
   */
  lemma {:induction false} RejoinBeforeDrainLosesSubscription()
    ensures exists run ::
      && Valid(INIT, run)
      && var s := Exec(INIT, run);
        !s.stopFlag && MembersOf(s.members, 7) == {42} && Pending(s) == []
        && 7 !in s.channels && forall t :: t in s.pcs ==> s.pcs[t].Idle?
  {
    RejoinTooEarly();
    LeaveBeforeDrain(DESERTED);
    JoinAndSubscribe(DESERTED);
  }

  /** The second kind of gap is reached: Redis fails the only subscribe, and nobody tries again. */
  lemma {:induction false} FailedCallLosesSubscription()
    ensures exists run ::
      && Valid(INIT, run)
      && var s := Exec(INIT, run);
        !s.stopFlag && MembersOf(s.members, 7) == {42} && Pending(s) == []
        && 7 !in s.channels && forall t :: t in s.pcs ==> s.pcs[t].Idle?
  {
    var s1 := Next(ASKED, Swap);
    assert Next(s1, RedisCall(false)) == DESERTED;
    ReachesSelf(DESERTED);
    StepFirst(s1, RedisCall(false), DESERTED);
    StepFirst(ASKED, Swap, DESERTED);
    JoinAndAsk(DESERTED);
  }

  /**
   The opposite failure is reached too: the last member leaves while the subscribe is still
   queued, its request is dropped, and the empty group ends up subscribed with everything drained.
   */
  lemma {:induction false} LeaveBeforeSubscribedLeavesExcess()
    ensures exists run ::
      && Valid(INIT, run)
      && var s := Exec(INIT, run);
        !s.stopFlag && 7 in s.members && s.members[7] == {} && Pending(s) == []
        && 7 in s.channels && forall t :: t in s.pcs ==> s.pcs[t].Idle?
  {
    var left := ASKED.(members := map[7 := {}]);
    ReachesSelf(EXCESS);
    assert Settle({}, Subscribe(7)) == {7};
    DrainOne(left, Subscribe(7), EXCESS);
    assert ASKED.members[7 := {}] == map[7 := {}] && ASKED.pcs[1 := Idle] == map[1 := Idle];
    LeaveSeven(ASKED, EXCESS);
    JoinAndAsk(EXCESS);
  }

  /** Under every interleaving, a leaver that ends its loop is in no group of the node. */
  lemma {:induction false} LeaverIsInNoGroup(run: seq<Action>, t: ThreadId, g: GroupId)
    requires Valid(INIT, run) && Enabled(Exec(INIT, run), EndLeave(t))
    ensures PcOf(Exec(INIT, run), t).id !in MembersOf(Next(Exec(INIT, run), EndLeave(t)).members, g)
  {
    InvRun(INIT, run);
    var s := Exec(INIT, run);
    assert t in s.pcs && g !in s.pcs[t].todo;
    assert s.pcs[t].id !in MembersOf(s.members, g);
  }

  // ---------- The queue refines immediate application ----------

  /** The task an action adds to the queue, if any: the requests that were accepted. */
  function Accepted(s: State, a: Action): seq<Task>
    requires Enabled(s, a)
  {
    if a.CallSubscribe? && PcOf(s, a.t).g !in s.subscribed then [Subscribe(PcOf(s, a.t).g)]
    else if a.CallUnsubscribe? && PcOf(s, a.t).g in s.subscribed then [Unsubscribe(PcOf(s, a.t).g)]
    else []
  }

  function AcceptedLog(s: State, run: seq<Action>): seq<Task>
    requires Valid(s, run)
    decreases |run|
  {
    if run == [] then [] else Accepted(s, run[0]) + AcceptedLog(Next(s, run[0]), run[1..])
  }

  predicate NoRedisFailure(run: seq<Action>) {
    forall i :: 0 <= i < |run| ==> run[i] != RedisCall(false)
  }

  /** The set the node would have if every accepted request took effect at once. */
  function Abstract(s: State): set<GroupId> {
    Drain(s.subscribed, Pending(s))
  }

  lemma {:induction false} AbstractStep(s: State, a: Action)
    requires Inv(s) && Enabled(s, a) && !Next(s, a).stopFlag && a != RedisCall(false)
    ensures Abstract(Next(s, a)) == Drain(Abstract(s), Accepted(s, a))
  {
    var s' := Next(s, a);
    if a.Swap? || a.RedisCall? || a.Record? {
      SubscriberStepPending(s, a);
    } else if Accepted(s, a) == [] {
      assert Pending(s') == Pending(s);
    } else {
      PendingAfterEnqueue(s, s', Accepted(s, a)[0]);
      DrainConcat(s.subscribed, Pending(s), Accepted(s, a));
    }
  }

  lemma {:induction false} AbstractRun(s: State, run: seq<Action>)
    requires Inv(s) && Valid(s, run) && NoRedisFailure(run) && !Exec(s, run).stopFlag
    ensures NoStop(AcceptedLog(s, run))
    ensures Abstract(Exec(s, run)) == Drain(Abstract(s), AcceptedLog(s, run))
    decreases |run|
  {
    if run == [] {
    } else {
      var s' := Next(s, run[0]);
      InvStep(s, run[0]);
      InvRun(s', run[1..]);
      AbstractStep(s, run[0]);
      AbstractRun(s', run[1..]);
      DrainConcat(Abstract(s), Accepted(s, run[0]), AcceptedLog(s', run[1..]));
    }
  }

  /**
   Whatever the interleaving of enqueues, swaps and task applications, once the queue is
   empty a group is subscribed, at the node and at Redis, exactly when the last request
   accepted for it was a subscribe.
   */
  lemma {:induction false} DrainingRefinesLastTaskWins(run: seq<Action>, g: GroupId)
    requires Valid(INIT, run) && NoRedisFailure(run)
    requires var s := Exec(INIT, run); !s.stopFlag && Pending(s) == []
    ensures var s := Exec(INIT, run);
      (g in s.channels <==> LastTask(AcceptedLog(INIT, run), g) == Some(Subscribe(g)))
      && s.channels == s.subscribed
  {
    InvRun(INIT, run);
    AbstractRun(INIT, run);
    DrainIsLastTaskWins({}, AcceptedLog(INIT, run), g);
  }

  /** Redis and the node agree at every task boundary, whichever calls threw. */
  lemma {:induction false} ChannelsMatchSubscribed(run: seq<Action>)
    requires Valid(INIT, run)
    requires var s := Exec(INIT, run); s.inHand.None? && !s.phase.Finished?
    ensures Exec(INIT, run).channels == Exec(INIT, run).subscribed
  {
    InvRun(INIT, run);
  }

  /**
   After the clean-up, Redis holds no channel of this node if and only if no unsubscribe
   call of the clean-up threw; batches cut short by `Stop` make no difference.
   */
  lemma {:induction false} CleanUpEmptiesRedis(run: seq<Action>, done: set<GroupId>)
    requires Valid(INIT, run) && Enabled(Exec(INIT, run), CleanUp(done))
    ensures Next(Exec(INIT, run), CleanUp(done)).channels == {} <==> done == Exec(INIT, run).subscribed
  {
    InvRun(INIT, run);
    var s := Exec(INIT, run);
    assert s.inHand.None?;
    assert s.channels - done == s.subscribed - done;
    if s.subscribed - done == {} {
      forall g | g in s.subscribed ensures g in done {
        assert g !in s.subscribed - done;
      }
    }
  }

  /**
   On a run without gaps before shutdown, a node whose queue is drained and whose handlers have
   made their calls receives every publish to each group it has a member of.
   */
  lemma {:induction false} QuietNodeReceives(run: seq<Action>, g: GroupId)
    requires Valid(INIT, run) && NoGap(INIT, run, g)
    requires var s := Exec(INIT, run);
      !s.stopFlag && Pending(s) == [] && !Owed(s, g) && MembersOf(s.members, g) != {}
    ensures g in Exec(INIT, run).channels
  {
    SubscriptionTracksMembership(run, g);
    AlwaysTracksAtEnd(INIT, run, g);
    InvRun(INIT, run);
    assert LastTask([], g).None?;
  }

  // ---------- Leavers against the subscriber thread ----------

  predicate IsSubscriberStep(a: Action) {
    a.Swap? || a == RedisCall(true) || a.Record?
  }

  predicate IsLeaverStep(a: Action) {
    a.BeginLeave? || a.Visit? || a.CallUnsubscribe? || a.EndLeave?
  }

  /** Leavers, one after the other, and the subscriber thread in between, no Redis call failing. */
  predicate OnlyLeaving(run: seq<Action>) {
    forall i :: 0 <= i < |run| ==> IsLeaverStep(run[i]) || IsSubscriberStep(run[i])
  }

  /** Every request to unsubscribe `g` finds it not recorded, and is dropped. */
  ghost predicate AllDropped(s: State, run: seq<Action>, g: GroupId)
    requires Valid(s, run)
    decreases |run|
  {
    run != [] ==>
      && (run[0].CallUnsubscribe? && PcOf(s, run[0].t).g == g ==> g !in s.subscribed)
      && AllDropped(Next(s, run[0]), run[1..], g)
  }

  predicate Heading(s: State, g: GroupId) {
    Target(s.subscribed, Pending(s), g)
  }

  /** A successful step of the subscriber thread moves no target. */
  lemma {:induction false} SubscriberStepHeading(s: State, a: Action, g: GroupId)
    requires Inv(s) && Enabled(s, a) && !s.stopFlag && IsSubscriberStep(a)
    ensures Heading(Next(s, a), g) == Heading(s, g)
  {
    SubscriberStepPending(s, a);
    if a.Record? {
      TargetHead(s.subscribed, Pending(s), g);
    }
  }

  /** One step: a target is dropped only by a request that finds the group recorded. */
  lemma {:induction false} HeadingStep(s: State, a: Action, g: GroupId)
    requires Inv(s) && Enabled(s, a) && !s.stopFlag
    requires IsLeaverStep(a) || IsSubscriberStep(a)
    ensures Heading(Next(s, a), g) <==>
      Heading(s, g) && !(a.CallUnsubscribe? && PcOf(s, a.t).g == g && g in s.subscribed)
  {
    var s' := Next(s, a);
    if IsSubscriberStep(a) {
      SubscriberStepHeading(s, a, g);
    } else if a.CallUnsubscribe? && PcOf(s, a.t).g in s.subscribed {
      var h := PcOf(s, a.t).g;
      PendingAfterEnqueue(s, s', Unsubscribe(h));
      TargetSnoc(s.subscribed, Pending(s), Unsubscribe(h), g);
    } else {
      assert Pending(s') == Pending(s);
    }
  }

  lemma {:induction false} HeadingRun(s: State, run: seq<Action>, g: GroupId)
    requires Inv(s) && Valid(s, run) && !s.stopFlag && OnlyLeaving(run)
    ensures !Exec(s, run).stopFlag
    ensures Heading(Exec(s, run), g) <==> Heading(s, g) && AllDropped(s, run, g)
    decreases |run|
  {
    if run == [] {
    } else {
      InvStep(s, run[0]);
      HeadingStep(s, run[0], g);
      HeadingRun(Next(s, run[0]), run[1..], g);
    }
  }

  /**
   Leavers interleaved with the subscriber thread, from any state a node gets into: once drained,
   a group is subscribed if and only if it was heading for a subscription and every request of
   the leavers for it was dropped because the group was not recorded yet.
   */
  lemma {:induction false} LeaveCollectsExactly(before: seq<Action>, run: seq<Action>, g: GroupId)
    requires Valid(INIT, before) && !Exec(INIT, before).stopFlag
    requires Valid(Exec(INIT, before), run) && OnlyLeaving(run)
    requires Pending(Exec(Exec(INIT, before), run)) == []
    ensures var s := Exec(INIT, before);
      g in Exec(s, run).channels <==> Heading(s, g) && AllDropped(s, run, g)
  {
    var s := Exec(INIT, before);
    InvRun(INIT, before);
    HeadingRun(s, run, g);
    InvRun(s, run);
    assert LastTask([], g).None?;
  }

  /** The groups the leaver inside the lock has still to visit or to unsubscribe. */
  function ToVisit(s: State): set<GroupId> {
    if s.groupLock.None? then {}
    else
      match PcOf(s, s.groupLock.value)
      case Leaving(_, todo) => todo
      case Dropping(_, g, todo) => todo + {g}
      case _ => {}
  }

  ghost predicate OnlyUnsubscribes(tasks: seq<Task>) {
    forall t :: t in tasks ==> t.Unsubscribe?
  }

  /** Every empty group is on its way out, or the leaver has still to come to it. */
  ghost predicate Collecting(s: State) {
    && OnlyUnsubscribes(Pending(s))
    && forall g :: PresentButEmpty(s.members, g) && g !in ToVisit(s) ==> !Heading(s, g)
  }

  lemma {:induction false} CollectingQueue(s: State, a: Action)
    requires Inv(s) && Enabled(s, a) && OnlyUnsubscribes(Pending(s))
    requires IsLeaverStep(a) || IsSubscriberStep(a)
    ensures OnlyUnsubscribes(Pending(Next(s, a)))
  {
    var s' := Next(s, a);
    if IsSubscriberStep(a) {
      SubscriberStepPending(s, a);
    } else if a.CallUnsubscribe? && PcOf(s, a.t).g in s.subscribed {
      PendingAfterEnqueue(s, s', Unsubscribe(PcOf(s, a.t).g));
    } else {
      assert Pending(s') == Pending(s);
    }
  }

  lemma {:induction false} CollectingStep(s: State, a: Action)
    requires Inv(s) && Enabled(s, a) && !s.stopFlag && Collecting(s)
    requires IsLeaverStep(a) || IsSubscriberStep(a)
    ensures Collecting(Next(s, a))
  {
    var s' := Next(s, a);
    CollectingQueue(s, a);
    forall g | PresentButEmpty(s'.members, g) && g !in ToVisit(s') ensures !Heading(s', g) {
      HeadingStep(s, a, g);
      if IsLeaverStep(a) && !a.BeginLeave? {
        assert s.groupLock == Some(a.t);
      }
      if g in ToVisit(s) {
        assert a.CallUnsubscribe? && PcOf(s, a.t).g == g;
      }
    }
  }

  lemma {:induction false} CollectingRun(s: State, run: seq<Action>)
    requires Inv(s) && Valid(s, run) && !s.stopFlag && Collecting(s) && OnlyLeaving(run)
    ensures !Exec(s, run).stopFlag && Collecting(Exec(s, run))
    decreases |run|
  {
    if run == [] {
    } else {
      InvStep(s, run[0]);
      CollectingStep(s, run[0]);
      CollectingRun(Next(s, run[0]), run[1..]);
    }
  }

  /**
   From any drained state a node gets into, a leaver that starts, whatever the subscriber thread
   does meanwhile and whoever leaves after it, ends with no empty group subscribed once the lock
   is free and the queue drained again.
   */
  lemma {:induction false} LeaversCollectExcess(
      before: seq<Action>, t: ThreadId, id: UserId, run: seq<Action>, g: GroupId)
    requires Valid(INIT, before) && !Exec(INIT, before).stopFlag && Pending(Exec(INIT, before)) == []
    requires Enabled(Exec(INIT, before), BeginLeave(t, id))
    requires var s := Next(Exec(INIT, before), BeginLeave(t, id));
      && Valid(s, run) && OnlyLeaving(run)
      && Pending(Exec(s, run)) == [] && Exec(s, run).groupLock.None?
    requires var s := Next(Exec(INIT, before), BeginLeave(t, id));
      PresentButEmpty(Exec(s, run).members, g)
    ensures var s := Next(Exec(INIT, before), BeginLeave(t, id));
      g !in Exec(s, run).subscribed && g !in Exec(s, run).channels
  {
    var s0 := Exec(INIT, before);
    var s := Next(s0, BeginLeave(t, id));
    InvRun(INIT, before);
    InvStep(s0, BeginLeave(t, id));
    CollectingRun(s, run);
    InvRun(s, run);
    assert LastTask([], g).None?;
  }

  // ---------- The subscriber thread can always catch up ----------

  function StepsToDrain(s: State): nat {
    2 * (|s.batch| + |s.queue|) + One(s.inHand.Some?) + One(s.queue != [])
  }

  predicate OnlySubscriber(run: seq<Action>) {
    forall i :: 0 <= i < |run| ==> IsSubscriberStep(run[i])
  }

  predicate DrainedFrom(s: State, end: State) {
    Pending(end) == [] && end == s.(
      subscribed := Abstract(s), channels := Abstract(s), queue := [], batch := [], inHand := None)
  }

  lemma {:induction false} DrainFirst(s: State, a: Action)
    requires Inv(s) && !s.stopFlag && Enabled(s, a) && IsSubscriberStep(a)
    requires a.Swap? ==> s.queue != []
    ensures StepsToDrain(Next(s, a)) == StepsToDrain(s) - 1
    ensures Inv(Next(s, a)) && !Next(s, a).stopFlag && Abstract(Next(s, a)) == Abstract(s)
  {
    InvStep(s, a);
    AbstractStep(s, a);
  }

  lemma {:induction false} DrainFrom(s: State) returns (run: seq<Action>)
    requires Inv(s) && !s.stopFlag
    ensures Valid(s, run) && |run| == StepsToDrain(s) && OnlySubscriber(run)
    ensures DrainedFrom(s, Exec(s, run))
    decreases StepsToDrain(s)
  {
    if Pending(s) == [] {
      run := [];
    } else {
      var a := if s.inHand.Some? then Record else if s.batch != [] then RedisCall(true) else Swap;
      if s.batch != [] {
        assert s.batch[0] in Pending(s);
      }
      DrainFirst(s, a);
      var rest := DrainFrom(Next(s, a));
      run := [a] + rest;
      assert run[1..] == rest;
    }
  }

  /**
   Whatever has happened before shutdown, the subscriber thread left to itself drains the node in
   a known number of steps: Redis and the recorded set then hold exactly what the accepted
   requests amount to, and nothing else has changed.
   */
  lemma {:induction false} SubscriberCatchesUp(before: seq<Action>) returns (run: seq<Action>)
    requires Valid(INIT, before) && !Exec(INIT, before).stopFlag
    ensures var s := Exec(INIT, before);
      && Valid(s, run) && |run| == StepsToDrain(s) && OnlySubscriber(run)
      && DrainedFrom(s, Exec(s, run))
  {
    InvRun(INIT, before);
    run := DrainFrom(Exec(INIT, before));
  }

  // ---------- Shutdown ----------

  /** The subscriber thread has left its loop: what is recorded stays, Redis moves by the clean-up only. */
  lemma {:induction false} NothingAppliedAfterLoop(s: State, run: seq<Action>)
    requires Valid(s, run) && !s.phase.Running? && s.inHand.None?
    ensures var e := Exec(s, run);
      && !e.phase.Running? && e.inHand.None? && e.subscribed == s.subscribed
      && (e.phase.CleaningUp? ==> e.channels == s.channels)
      && (s.phase.Finished? ==> e.phase.Finished? && e.channels == s.channels)
    decreases |run|
  {
    if run == [] {
    } else {
      NothingAppliedAfterLoop(Next(s, run[0]), run[1..]);
    }
  }

  /** Whichever way the loop ends, the subscriber thread does not finish without the clean-up. */
  lemma {:induction false} FinishedByCleanUp(s: State, run: seq<Action>)
    requires Valid(s, run) && !s.phase.Finished? && Exec(s, run).phase.Finished?
    ensures exists a :: a in run && a.CleanUp?
    decreases |run|
  {
    if run[0].CleanUp? {
      assert run[0] in run;
    } else {
      FinishedByCleanUp(Next(s, run[0]), run[1..]);
      var a :| a in run[1..] && a.CleanUp?;
      assert a in run;
    }
  }

  /** After a `Stop` nothing that is queued matters. */
  lemma {:induction false} DrainPastStop(subscribed: set<GroupId>, tasks: seq<Task>, more: seq<Task>)
    requires Stop in tasks
    ensures Drain(subscribed, tasks + more) == Drain(subscribed, tasks)
    decreases |tasks|
  {
    assert (tasks + more)[0] == tasks[0];
    if tasks[0].Stop? {
    } else {
      assert (tasks + more)[1..] == tasks[1..] + more;
      DrainPastStop(Settle(subscribed, tasks[0]), tasks[1..], more);
    }
  }

  ghost predicate Stopping(s: State) {
    s.stopFlag && s.phase.Running? && Stop in Pending(s)
  }

  lemma {:induction false} StoppingApplies(s: State, a: Action)
    requires Inv(s) && Stopping(s) && Enabled(s, a) && IsSubscriberStep(a)
    ensures Stop in Pending(Next(s, a)) && Abstract(Next(s, a)) == Abstract(s)
  {
    SubscriberStepPending(s, a);
    if a.Record? {
      assert Pending(s) == [Pending(s)[0]] + Pending(s)[1..];
    }
  }

  lemma {:induction false} StoppingAccepts(s: State, a: Action)
    requires Stopping(s) && Enabled(s, a) && (a.CallSubscribe? || a.CallUnsubscribe?)
    ensures Stop in Pending(Next(s, a)) && Abstract(Next(s, a)) == Abstract(s)
  {
    var s' := Next(s, a);
    if Accepted(s, a) == [] {
      assert Pending(s') == Pending(s);
    } else {
      PendingAfterEnqueue(s, s', Accepted(s, a)[0]);
      DrainPastStop(s.subscribed, Pending(s), Accepted(s, a));
    }
  }

  lemma {:induction false} StoppingStep(s: State, a: Action)
    requires Inv(s) && Stopping(s) && Enabled(s, a) && a != RedisCall(false)
    requires !a.TakeStop? && !a.LeaveLoop?
    ensures Stopping(Next(s, a)) && Abstract(Next(s, a)) == Abstract(s)
  {
    if IsSubscriberStep(a) {
      StoppingApplies(s, a);
    } else if a.CallSubscribe? || a.CallUnsubscribe? {
      StoppingAccepts(s, a);
    } else {
      assert Pending(Next(s, a)) == Pending(s);
    }
  }

  predicate StaysInLoop(run: seq<Action>) {
    forall i :: 0 <= i < |run| ==> !run[i].TakeStop? && !run[i].LeaveLoop?
  }

  lemma {:induction false} StoppingRun(s: State, run: seq<Action>)
    requires Inv(s) && Stopping(s) && Valid(s, run) && NoRedisFailure(run) && StaysInLoop(run)
    ensures Stopping(Exec(s, run)) && Abstract(Exec(s, run)) == Abstract(s)
    decreases |run|
  {
    if run == [] {
    } else {
      InvStep(s, run[0]);
      StoppingStep(s, run[0]);
      StoppingRun(Next(s, run[0]), run[1..]);
    }
  }

  lemma {:induction false} StopRequested(s: State)
    requires Inv(s) && Enabled(s, RequestStop)
    ensures Stopping(Next(s, RequestStop)) && Abstract(Next(s, RequestStop)) == Abstract(s)
  {
    var s' := Next(s, RequestStop);
    assert Pending(s') == Pending(s) + [Stop];
    assert Pending(s')[|Pending(s)|] == Stop;
    DrainConcat(s.subscribed, Pending(s), [Stop]);
  }

  lemma {:induction false} StopTaken(s: State, later: seq<Action>)
    requires Inv(s) && Enabled(s, TakeStop) && Valid(Next(s, TakeStop), later)
    ensures Exec(Next(s, TakeStop), later).subscribed == Abstract(s)
  {
    assert Pending(s)[0] == Stop;
    NothingAppliedAfterLoop(Next(s, TakeStop), later);
  }

  /**
   Shutdown by the `Stop` task, with no Redis call failing: when the subscriber thread takes it, it
   has applied exactly the requests accepted before the shutdown was requested; none that handlers
   made since, and nothing later, has any effect on what is recorded.
   */
  lemma {:induction false} StopAppliesWhatWasAccepted(before: seq<Action>, run: seq<Action>, later: seq<Action>)
    requires Valid(INIT, before) && Enabled(Exec(INIT, before), RequestStop)
    requires var s := Next(Exec(INIT, before), RequestStop);
      && Valid(s, run) && NoRedisFailure(run) && StaysInLoop(run) && Enabled(Exec(s, run), TakeStop)
      && Valid(Next(Exec(s, run), TakeStop), later)
    ensures var s := Next(Exec(INIT, before), RequestStop);
      Exec(Next(Exec(s, run), TakeStop), later).subscribed == Abstract(Exec(INIT, before))
  {
    var s0 := Exec(INIT, before);
    var s := Next(s0, RequestStop);
    InvRun(INIT, before);
    InvStep(s0, RequestStop);
    StopRequested(s0);
    StoppingRun(s, run);
    InvRun(s, run);
    StopTaken(Exec(s, run), later);
  }
}
