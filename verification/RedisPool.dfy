/**
 `RedisConnectionPool` as a monitor used by any number of threads, each running the
 operations of `RedisClient`. A step is one critical section, one wake-up, or one Redis call.
 */
module RedisPool {

  import opened ChatTypes
  import opened Scripts

  type Conn = nat

  datatype Answer = Wait | Refused | Lent(conn: Conn)

  /** `acquire` up to its first wait. */
  function Enter(idle: seq<Conn>, stopped: bool): Answer {
    if stopped then Refused else if idle == [] then Wait else Lent(idle[0])
  }

  /** `acquire` when a waiting thread has the mutex again and re-evaluates its predicate. */
  function Recheck(idle: seq<Conn>, stopped: bool, timedOut: bool): Answer {
    if stopped then Refused
    else if idle != [] then Lent(idle[0])
    else if timedOut then Refused
    else Wait
  }

  /** The connections of the attempts that succeeded, in order. */
  function Opened(attempts: seq<Conn>, up: seq<bool>): seq<Conn>
    requires |up| == |attempts|
  {
    if attempts == [] then [] else (if up[0] then [attempts[0]] else []) + Opened(attempts[1..], up[1..])
  }

  /** The last attempt adds its connection at the end, exactly if it succeeds. */
  lemma {:induction false} OpenedSnoc(attempts: seq<Conn>, up: seq<bool>, c: Conn, ok: bool)
    requires |up| == |attempts|
    ensures Opened(attempts + [c], up + [ok]) == Opened(attempts, up) + if ok then [c] else []
  {
    if attempts == [] {
      assert attempts + [c] == [c] && up + [ok] == [ok];
    } else {
      assert (attempts + [c])[1..] == attempts[1..] + [c] && (up + [ok])[1..] == up[1..] + [ok];
      OpenedSnoc(attempts[1..], up[1..], c, ok);
    }
  }

  lemma {:induction false} OpenedDistinct(attempts: seq<Conn>, up: seq<bool>)
    requires |up| == |attempts| && Distinct(attempts)
    ensures Distinct(Opened(attempts, up))
    ensures forall c :: c in Opened(attempts, up) ==> c in attempts
  {
    if attempts == [] {
    } else {
      OpenedDistinct(attempts[1..], up[1..]);
      assert attempts[0] !in attempts[1..];
    }
  }

  // ---------- The monitor ----------

  datatype Pc =
    /** Blocked in the condition variable's wait. */
    | Asleep(op: Op)
    /** Out of the wait, by a notify, a spurious wake-up or its deadline; not yet rechecked. */
    | Woken(op: Op, timedOut: bool)
    | Using(conn: Conn, held: bool, code: Op)

  datatype State = State(
    idle: seq<Conn>,
    stopped: bool,
    /** `stop` has released the mutex and not yet called `notify_all`. */
    notifyDue: bool,
    threads: map<ThreadId, Pc>,
    created: set<Conn>
  )

  datatype Action =
    | Begin(t: ThreadId, op: Op)
    | WakeUp(t: ThreadId, timedOut: bool)
    | TryAgain(t: ThreadId)
    | DoCall(t: ThreadId)
    | CallThrows(t: ThreadId)
    /** `release`, whose `notify_one` wakes the sleeper `wake`, if there is one. */
    | DoRelease(t: ThreadId, wake: Option<ThreadId>)
    | End(t: ThreadId)
    | StopPool
    | NotifyAll

  /** The operations of `RedisClient`, and its subscriber thread. */
  ghost predicate IsRedisOp(op: Op) {
    exists k: nat :: op == ReturnAfter(k) || op == ReturnInBoth(k)
  }

  lemma {:induction false} RedisOpsGiveBackOnce(op: Op)
    requires IsRedisOp(op)
    ensures GivesBack(op, 1)
  {
    var k: nat :| op == ReturnAfter(k) || op == ReturnInBoth(k);
    ReturnAfterOnce(k);
    ReturnInBothOnce(k);
  }

  function Sleepers(s: State): set<ThreadId> {
    set t | t in s.threads && s.threads[t].Asleep?
  }

  function WokenOnes(s: State): set<ThreadId> {
    set t | t in s.threads && s.threads[t].Woken?
  }

  predicate Holds(s: State, t: ThreadId, c: Conn) {
    t in s.threads && s.threads[t].Using? && s.threads[t].held && s.threads[t].conn == c
  }

  predicate Runs(s: State, t: ThreadId) {
    t in s.threads && s.threads[t].Using?
  }

  ghost predicate Enabled(s: State, a: Action) {
    match a
    case Begin(t, op) => t !in s.threads && IsRedisOp(op)
    case WakeUp(t, timedOut) => t in Sleepers(s)
    case TryAgain(t) => t in WokenOnes(s)
    case DoCall(t) => Runs(s, t) && !Finished(s.threads[t].code) && Head(s.threads[t].code).Call?
    case CallThrows(t) => Runs(s, t) && CanThrow(s.threads[t].code)
    case DoRelease(t, wake) =>
      && Runs(s, t) && !Finished(s.threads[t].code) && Head(s.threads[t].code).GiveBack?
      && (if wake.Some? then wake.value in Sleepers(s) else Sleepers(s) == {})
    case End(t) => Runs(s, t) && Finished(s.threads[t].code)
    case StopPool => !s.stopped
    case NotifyAll => s.notifyDue
  }

  function Answered(s: State, t: ThreadId, op: Op, answer: Answer): State
    requires answer.Lent? ==> s.idle != []
  {
    match answer
    case Wait => s.(threads := s.threads[t := Asleep(op)])
    case Refused => s.(threads := s.threads - {t})
    case Lent(c) => s.(idle := s.idle[1..], threads := s.threads[t := Using(c, true, op)])
  }

  function Next(s: State, a: Action): State
    requires Enabled(s, a)
  {
    match a
    case Begin(t, op) => Answered(s, t, op, Enter(s.idle, s.stopped))
    case WakeUp(t, timedOut) => s.(threads := s.threads[t := Woken(s.threads[t].op, timedOut)])
    case TryAgain(t) =>
      Answered(s, t, s.threads[t].op, Recheck(s.idle, s.stopped, s.threads[t].timedOut))
    case DoCall(t) => s.(threads := s.threads[t := s.threads[t].(code := Rest(s.threads[t].code))])
    case CallThrows(t) => s.(threads := s.threads[t := s.threads[t].(code := Thrown(s.threads[t].code))])
    case DoRelease(t, wake) =>
      var pc := s.threads[t];
      var threads := s.threads[t := pc.(held := false, code := Rest(pc.code))];
      s.(idle := s.idle + [pc.conn],
         threads := if wake.Some? then threads[wake.value := Woken(threads[wake.value].op, false)] else threads)
    case End(t) => s.(threads := s.threads - {t})
    case StopPool => s.(stopped := true, idle := [], notifyDue := true)
    case NotifyAll =>
      s.(notifyDue := false,
         threads := map t | t in s.threads ::
           if s.threads[t].Asleep? then Woken(s.threads[t].op, false) else s.threads[t])
  }

  ghost predicate Valid(s: State, run: seq<Action>)
    decreases |run|
  {
    run == [] || (Enabled(s, run[0]) && Valid(Next(s, run[0]), run[1..]))
  }

  ghost function Exec(s: State, run: seq<Action>): State
    requires Valid(s, run)
    decreases |run|
  {
    if run == [] then s else Exec(Next(s, run[0]), run[1..])
  }

  // ---------- Lending ----------

  ghost predicate OnTrack(pc: Pc) {
    match pc
    case Using(c, held, code) => GivesBack(code, if held then 1 else 0)
    case Asleep(op) => GivesBack(op, 1)
    case Woken(op, _) => GivesBack(op, 1)
  }

  /** What is left of each operation gives its connection back exactly as often as it holds it. */
  ghost predicate CodeInv(s: State) {
    forall t :: t in s.threads ==> OnTrack(s.threads[t])
  }

  ghost predicate LentOnce(s: State) {
    && (forall i, j :: 0 <= i < j < |s.idle| ==> s.idle[i] != s.idle[j])
    && (forall t, c :: Holds(s, t, c) ==> c !in s.idle && c in s.created)
    && (forall t, u, c :: Holds(s, t, c) && Holds(s, u, c) ==> t == u)
    && (forall c :: c in s.idle ==> c in s.created)
  }

  ghost predicate NoneLost(s: State) {
    !s.stopped ==> forall c :: c in s.created ==> c in s.idle || exists t :: Holds(s, t, c)
  }

  /** No lost wake-up: a sleeper is never left with more idle connections than woken threads. */
  ghost predicate NoLostWakeUp(s: State) {
    !s.stopped && Sleepers(s) != {} ==> |s.idle| <= |WokenOnes(s)|
  }

  ghost predicate NobodySleepsAfterStop(s: State) {
    s.stopped && !s.notifyDue ==> Sleepers(s) == {}
  }

  lemma {:induction false} OnTrackStep(pc: Pc)
    requires OnTrack(pc) && pc.Using? && !Finished(pc.code)
    ensures Head(pc.code).GiveBack? ==> pc.held && OnTrack(pc.(held := false, code := Rest(pc.code)))
    ensures Head(pc.code).Call? ==> OnTrack(pc.(code := Rest(pc.code)))
    ensures CanThrow(pc.code) ==> OnTrack(pc.(code := Thrown(pc.code)))
  {
  }

  lemma {:induction false} CodeStep(s: State, a: Action)
    requires CodeInv(s) && Enabled(s, a)
    ensures CodeInv(Next(s, a))
  {
    if a.Begin? {
      RedisOpsGiveBackOnce(a.op);
    } else if a.DoCall? || a.CallThrows? || a.DoRelease? {
      OnTrackStep(s.threads[a.t]);
    }
  }

  lemma {:induction false} ReleaserHolds(s: State, a: Action)
    requires CodeInv(s) && Enabled(s, a) && (a.DoRelease? || a.End?)
    ensures s.threads[a.t].held == a.DoRelease?
  {
  }

  /** Who holds what after a step. */
  lemma {:induction false} HoldersStep(s: State, a: Action, t: ThreadId, c: Conn)
    requires CodeInv(s) && Enabled(s, a)
    ensures var s' := Next(s, a);
      Holds(s', t, c) <==>
        (Holds(s, t, c) && !(a.DoRelease? && a.t == t))
        || ((a.Begin? || a.TryAgain?) && a.t == t && s'.idle != s.idle && c == s.idle[0])
  {
    if a.DoRelease? || a.End? {
      ReleaserHolds(s, a);
    }
  }

  lemma {:induction false} LentOnceStep(s: State, a: Action)
    requires CodeInv(s) && LentOnce(s) && Enabled(s, a)
    ensures LentOnce(Next(s, a))
  {
    var s' := Next(s, a);
    forall t, c | Holds(s', t, c) ensures c !in s'.idle && c in s'.created {
      HoldersStep(s, a, t, c);
      if a.DoRelease? {
        ReleaserHolds(s, a);
        assert Holds(s, a.t, s.threads[a.t].conn);
      }
    }
    forall t, u, c | Holds(s', t, c) && Holds(s', u, c) ensures t == u {
      HoldersStep(s, a, t, c);
      HoldersStep(s, a, u, c);
    }
    if a.DoRelease? {
      ReleaserHolds(s, a);
      assert Holds(s, a.t, s.threads[a.t].conn);
    }
  }

  lemma {:induction false} NoneLostStep(s: State, a: Action)
    requires CodeInv(s) && NoneLost(s) && Enabled(s, a)
    ensures NoneLost(Next(s, a))
  {
    var s' := Next(s, a);
    if !s'.stopped {
      forall c | c in s'.created && c !in s'.idle ensures exists t :: Holds(s', t, c) {
        if c in s.idle {
          assert c == s.idle[0];
          HoldersStep(s, a, a.t, c);
          assert Holds(s', a.t, c);
        } else {
          var t :| Holds(s, t, c);
          HoldersStep(s, a, t, c);
          assert Holds(s', t, c);
        }
      }
    }
  }

  lemma {:induction false} BeginWakeUp(s: State, a: Action)
    requires NoLostWakeUp(s) && Enabled(s, a) && a.Begin?
    ensures NoLostWakeUp(Next(s, a))
  {
    var s' := Next(s, a);
    assert WokenOnes(s') == WokenOnes(s);
    if Enter(s.idle, s.stopped).Wait? {
      assert s'.idle == [];
    } else {
      assert Sleepers(s') == Sleepers(s);
    }
  }

  /** A recheck takes one woken thread away, and an idle connection if there is one. */
  lemma {:induction false} RecheckWakeUp(s: State, a: Action)
    requires NoLostWakeUp(s) && Enabled(s, a) && a.TryAgain?
    ensures NoLostWakeUp(Next(s, a))
  {
    var s' := Next(s, a);
    assert WokenOnes(s') == WokenOnes(s) - {a.t};
    if Recheck(s.idle, s.stopped, s.threads[a.t].timedOut).Wait? {
      assert s'.idle == [];
    } else {
      assert Sleepers(s') == Sleepers(s);
    }
  }

  lemma {:induction false} ReleaseWakeUp(s: State, a: Action)
    requires NoLostWakeUp(s) && Enabled(s, a) && a.DoRelease?
    ensures NoLostWakeUp(Next(s, a))
  {
    var s' := Next(s, a);
    if a.wake.Some? {
      assert WokenOnes(s') == WokenOnes(s) + {a.wake.value};
      assert a.wake.value in Sleepers(s);
    } else {
      assert Sleepers(s') == {};
    }
  }

  lemma {:induction false} WakeUpStep(s: State, a: Action)
    requires NoLostWakeUp(s) && Enabled(s, a)
    ensures NoLostWakeUp(Next(s, a))
  {
    var s' := Next(s, a);
    if a.Begin? {
      BeginWakeUp(s, a);
    } else if a.TryAgain? {
      RecheckWakeUp(s, a);
    } else if a.DoRelease? {
      ReleaseWakeUp(s, a);
    } else if a.WakeUp? {
      assert WokenOnes(s') == WokenOnes(s) + {a.t};
      assert a.t in Sleepers(s);
    } else if a.DoCall? || a.CallThrows? || a.End? {
      assert WokenOnes(s') == WokenOnes(s) && Sleepers(s') == Sleepers(s);
    } else if a.NotifyAll? {
      assert Sleepers(s') == {};
    }
  }

  lemma {:induction false} SleepStep(s: State, a: Action)
    requires NobodySleepsAfterStop(s) && Enabled(s, a)
    ensures NobodySleepsAfterStop(Next(s, a))
  {
    var s' := Next(s, a);
    if s'.stopped && !s'.notifyDue {
      forall t ensures t !in Sleepers(s') {
        assert t in Sleepers(s) ==> a.NotifyAll?;
      }
    }
  }

  ghost predicate Inv(s: State) {
    CodeInv(s) && LentOnce(s) && NoneLost(s) && NoLostWakeUp(s) && NobodySleepsAfterStop(s)
  }

  lemma {:induction false} InvStep(s: State, a: Action)
    requires Inv(s) && Enabled(s, a)
    ensures Inv(Next(s, a))
  {
    CodeStep(s, a);
    LentOnceStep(s, a);
    NoneLostStep(s, a);
    WakeUpStep(s, a);
    SleepStep(s, a);
  }

  lemma {:induction false} InvRun(s: State, run: seq<Action>)
    requires Inv(s) && Valid(s, run)
    ensures Inv(Exec(s, run))
    ensures Exec(s, run).created == s.created
    decreases |run|
  {
    if run == [] {
    } else {
      InvStep(s, run[0]);
      InvRun(Next(s, run[0]), run[1..]);
    }
  }

  /** The pool right after `init` opened the connections `conns`. */
  function Start(conns: seq<Conn>): State {
    State(conns, false, false, map[], set c | c in conns)
  }

  /**
   Over every interleaving of operations, exceptions, waits and wake-ups: a connection is
   never in two hands, nor in a hand and in the queue, and until `stop` each one opened is
   either idle or with exactly one thread.
   */
  lemma {:induction false} NoConnectionLentTwiceOrLost(conns: seq<Conn>, run: seq<Action>)
    requires Distinct(conns) && Valid(Start(conns), run)
    ensures LentOnce(Exec(Start(conns), run))
    ensures !Exec(Start(conns), run).stopped ==>
      forall c :: c in conns <==> c in Exec(Start(conns), run).idle || exists t :: Holds(Exec(Start(conns), run), t, c)
  {
    InvRun(Start(conns), run);
    var s := Exec(Start(conns), run);
    assert forall c :: c in conns <==> c in s.created;
  }

  /**
   Before `stop`, whenever some thread sleeps in `acquire`, the idle connections are no more
   than the woken threads that have yet to recheck; so with no such thread the queue is empty.
   */
  lemma {:induction false} NoWakeUpIsLost(conns: seq<Conn>, run: seq<Action>)
    requires Distinct(conns) && Valid(Start(conns), run)
    requires var s := Exec(Start(conns), run); !s.stopped && Sleepers(s) != {}
    ensures var s := Exec(Start(conns), run); |s.idle| <= |WokenOnes(s)|
  {
    InvRun(Start(conns), run);
  }

  /** So an idle connection never waits for nothing: with a sleeper there, a woken thread takes it. */
  lemma {:induction false} IdleConnectionIsClaimed(conns: seq<Conn>, run: seq<Action>)
    requires Distinct(conns) && Valid(Start(conns), run)
    requires var s := Exec(Start(conns), run); !s.stopped && Sleepers(s) != {} && s.idle != []
    ensures var s := Exec(Start(conns), run);
      exists t :: Enabled(s, TryAgain(t)) && Holds(Next(s, TryAgain(t)), t, s.idle[0])
  {
    NoWakeUpIsLost(conns, run);
    var s := Exec(Start(conns), run);
    assert WokenOnes(s) != {};
    var t := Member(WokenOnes(s));
    assert Enabled(s, TryAgain(t)) && Holds(Next(s, TryAgain(t)), t, s.idle[0]);
  }

  lemma {:induction false} StaysStopped(s: State, run: seq<Action>)
    requires Valid(s, run) && s.stopped
    ensures Exec(s, run).stopped
    ensures !s.notifyDue ==> !Exec(s, run).notifyDue
    ensures forall t, c :: Holds(Exec(s, run), t, c) ==> Holds(s, t, c)
    decreases |run|
  {
    if run == [] {
    } else {
      var s' := Next(s, run[0]);
      assert forall t, c :: Holds(s', t, c) ==> Holds(s, t, c);
      StaysStopped(s', run[1..]);
    }
  }

  /** Once `stop` has notified, nobody sleeps, in this state or any later one. */
  lemma {:induction false} StopWakesEverybody(conns: seq<Conn>, run: seq<Action>, later: seq<Action>)
    requires Distinct(conns) && Valid(Start(conns), run)
    requires var s := Exec(Start(conns), run); s.stopped && !s.notifyDue && Valid(s, later)
    ensures Sleepers(Exec(Exec(Start(conns), run), later)) == {}
  {
    InvRun(Start(conns), run);
    InvRun(Exec(Start(conns), run), later);
    StaysStopped(Exec(Start(conns), run), later);
  }

  /** From the moment `stop` sets the flag, no `acquire` lends anything to anybody. */
  lemma {:induction false} NothingLentAfterStop(conns: seq<Conn>, run: seq<Action>, later: seq<Action>)
    requires Valid(Start(conns), run)
    requires Exec(Start(conns), run).stopped && Valid(Exec(Start(conns), run), later)
    ensures forall t, c :: Holds(Exec(Exec(Start(conns), run), later), t, c) ==> Holds(Exec(Start(conns), run), t, c)
  {
    StaysStopped(Exec(Start(conns), run), later);
  }

  // ---------- In which order connections are lent ----------

  /** The connection a step puts into a thread's hands. */
  ghost function LentBy(s: State, a: Action): seq<Conn>
    requires Enabled(s, a)
  {
    if (a.Begin? || a.TryAgain?) && Runs(Next(s, a), a.t) then [Next(s, a).threads[a.t].conn] else []
  }

  ghost function ReturnedBy(s: State, a: Action): seq<Conn>
    requires Enabled(s, a)
  {
    if a.DoRelease? then [s.threads[a.t].conn] else []
  }

  ghost function LentLog(s: State, run: seq<Action>): seq<Conn>
    requires Valid(s, run)
    decreases |run|
  {
    if run == [] then [] else LentBy(s, run[0]) + LentLog(Next(s, run[0]), run[1..])
  }

  ghost function ReturnedLog(s: State, run: seq<Action>): seq<Conn>
    requires Valid(s, run)
    decreases |run|
  {
    if run == [] then [] else ReturnedBy(s, run[0]) + ReturnedLog(Next(s, run[0]), run[1..])
  }

  lemma {:induction false} LentInOrderStep(s: State, a: Action)
    requires Enabled(s, a) && !a.StopPool?
    ensures s.idle + ReturnedBy(s, a) == LentBy(s, a) + Next(s, a).idle
  {
  }

  /**
   Until `stop`, the pool is a queue: the connections lent so far, followed by the idle ones, are
   those there at the start followed by those given back, in that order.
   */
  lemma {:induction false} LentInOrder(s: State, run: seq<Action>)
    requires Valid(s, run) && !Exec(s, run).stopped
    ensures s.idle + ReturnedLog(s, run) == LentLog(s, run) + Exec(s, run).idle
    decreases |run|
  {
    if run == [] {
    } else {
      var s', rest := Next(s, run[0]), run[1..];
      if s'.stopped {
        StaysStopped(s', rest);
      }
      LentInOrderStep(s, run[0]);
      LentInOrder(s', rest);
      ThenAppend(s.idle, ReturnedBy(s, run[0]), ReturnedLog(s', rest));
      ThenAppend(LentBy(s, run[0]), s'.idle, ReturnedLog(s', rest));
      ThenAppend(LentBy(s, run[0]), LentLog(s', rest), Exec(s, run).idle);
    }
  }

  // ---------- A wait that is rewarded ----------

  /**
   Whatever else is going on, a thread that comes to an empty pool sleeps, and when the connection
   given back next wakes it, it holds that connection.
   */
  lemma {:induction false} WaiterGetsWhatIsReleased(s: State, t: ThreadId, u: ThreadId, op: Op)
    requires !s.stopped && s.idle == [] && t != u && Enabled(s, Begin(u, op))
    requires Runs(s, t) && !Finished(s.threads[t].code) && Head(s.threads[t].code).GiveBack?
    ensures var s1 := Next(s, Begin(u, op));
      && u in Sleepers(s1)
      && Enabled(s1, DoRelease(t, Some(u)))
      && var s2 := Next(s1, DoRelease(t, Some(u)));
        && Enabled(s2, TryAgain(u))
        && Holds(Next(s2, TryAgain(u)), u, s.threads[t].conn)
  {
  }

  lemma {:induction false} TwoSteps(s: State, a: Action, b: Action)
    requires Enabled(s, a) && Enabled(Next(s, a), b)
    ensures Valid(s, [a, b]) && Exec(s, [a, b]) == Next(Next(s, a), b)
  {
    var s1 := Next(s, a);
    var s2 := Next(s1, b);
    assert [a, b][1..] == [b] && [b][1..] == [];
    assert Valid(s2, []) && Exec(s2, []) == s2;
    assert Valid(s1, [b]) && Exec(s1, [b]) == s2;
  }

  /**
   It is reached: with one connection, the second of two threads sleeps, and after a release that
   wakes it, it holds the connection.
   */
  lemma {:induction false} SecondThreadIsServed(c: Conn)
    ensures var run := [Begin(1, ReturnAfter(0)), Begin(2, ReturnAfter(0))];
      var later := [DoRelease(1, Some(2)), TryAgain(2)];
      && Valid(Start([c]), run) && 2 in Sleepers(Exec(Start([c]), run))
      && Valid(Exec(Start([c]), run), later) && Holds(Exec(Exec(Start([c]), run), later), 2, c)
  {
    var op := ReturnAfter(0);
    assert IsRedisOp(op);
    var s1 := Next(Start([c]), Begin(1, op));
    assert s1.idle == [] && Head(s1.threads[1].code).GiveBack?;
    WaiterGetsWhatIsReleased(s1, 1, 2, op);
    TwoSteps(Start([c]), Begin(1, op), Begin(2, op));
    TwoSteps(Next(s1, Begin(2, op)), DoRelease(1, Some(2)), TryAgain(2));
  }

  // ---------- The pool object ----------

  /** What an answer of `acquire` means for the thread that gets it. */
  ghost predicate Means(s: State, t: ThreadId, answer: Answer) {
    match answer
    case Wait => t in Sleepers(s)
    case Refused => t !in s.threads
    case Lent(c) => Holds(s, t, c)
  }

  /**
   The pool's fields with the monitor they are part of. Every method is one step of the monitor
   above, taken by the thread named in its ghost parameter, whatever the other threads are doing.
   */
  class RedisConnectionPool {
    var connections: seq<Conn>
    var stopped: bool
    ghost var monitor: State

    ghost predicate Agrees()
      reads this
    {
      Inv(monitor) && monitor.idle == connections && monitor.stopped == stopped
    }

    constructor ()
      ensures Agrees() && monitor == Start([])
    {
      connections, stopped, monitor := [], false, Start([]);
    }

    /** Try to open `|attempts|` connections; `up[i]` says whether the i-th attempt succeeds. */
    method Init(attempts: seq<Conn>, up: seq<bool>)
      requires |up| == |attempts| && Distinct(attempts)
      requires connections == [] && !stopped
      modifies this
      ensures Agrees() && monitor == Start(Opened(attempts, up))
    {
      var i := 0;
      while i < |attempts|
        invariant 0 <= i <= |attempts|
        invariant connections + Opened(attempts[i..], up[i..]) == Opened(attempts, up)
        invariant !stopped
      {
        assert attempts[i..][1..] == attempts[i + 1..] && up[i..][1..] == up[i + 1..];
        if up[i] {
          connections := connections + [attempts[i]];
        }
        i := i + 1;
      }
      assert connections == Opened(attempts, up);
      OpenedDistinct(attempts, up);
      monitor := Start(connections);
    }

    /** `acquire` up to its first wait. */
    method EnterAcquire(ghost t: ThreadId, ghost op: Op) returns (answer: Answer)
      requires Agrees() && Enabled(monitor, Begin(t, op))
      modifies this
      ensures Agrees() && monitor == Next(old(monitor), Begin(t, op))
      ensures Means(monitor, t, answer) && stopped == old(stopped)
      ensures answer.Refused? <==> old(stopped)
      ensures answer.Wait? <==> !old(stopped) && old(connections) == []
      ensures old(connections) == (if answer.Lent? then [answer.conn] else []) + connections
    {
      InvStep(monitor, Begin(t, op));
      monitor := Next(monitor, Begin(t, op));
      if stopped { return Refused; }
      if connections == [] { return Wait; }
      answer := Lent(connections[0]);
      connections := connections[1..];
    }

    /** The rest of `acquire` once the thread has the mutex again. */
    method WakeInAcquire(timedOut: bool, ghost t: ThreadId) returns (answer: Answer)
      requires Agrees() && t in WokenOnes(monitor) && monitor.threads[t].timedOut == timedOut
      modifies this
      ensures Agrees() && monitor == Next(old(monitor), TryAgain(t))
      ensures Means(monitor, t, answer) && stopped == old(stopped)
      ensures answer.Refused? <==> old(stopped) || (old(connections) == [] && timedOut)
      ensures answer.Wait? <==> !old(stopped) && old(connections) == [] && !timedOut
      ensures old(connections) == (if answer.Lent? then [answer.conn] else []) + connections
    {
      InvStep(monitor, TryAgain(t));
      monitor := Next(monitor, TryAgain(t));
      if connections == [] && !stopped {
        return if timedOut then Refused else Wait;
      }
      if stopped { return Refused; }
      answer := Lent(connections[0]);
      connections := connections[1..];
    }

    /** `wake` is the sleeper that `notify_one` picks. */
    method Release(conn: Option<Conn>, ghost t: ThreadId, ghost wake: Option<ThreadId>)
      requires Agrees()
      requires conn.Some? ==> Enabled(monitor, DoRelease(t, wake)) && monitor.threads[t].conn == conn.value
      modifies this
      ensures Agrees()
      ensures monitor == if conn.Some? then Next(old(monitor), DoRelease(t, wake)) else old(monitor)
      ensures connections == old(connections) + (if conn.Some? then [conn.value] else []) && stopped == old(stopped)
    {
      if conn.None? { return; }
      InvStep(monitor, DoRelease(t, wake));
      monitor := Next(monitor, DoRelease(t, wake));
      connections := connections + [conn.value];
    }

    /** The locked part of `stop`; `first` tells whether this call goes on to notify everybody. */
    method Stop() returns (first: bool)
      requires Agrees()
      modifies this
      ensures Agrees() && first == !old(stopped) && stopped
      ensures connections == if first then [] else old(connections)
      ensures monitor == if first then Next(old(monitor), StopPool) else old(monitor)
    {
      if stopped { return false; }
      stopped := true;
      while connections != []
        invariant stopped && monitor == old(monitor)
        decreases |connections|
      {
        connections := connections[1..];
      }
      InvStep(monitor, StopPool);
      monitor := Next(monitor, StopPool);
      return true;
    }

    /** The steps that do not touch the fields: wake-ups, Redis calls, ends and `notify_all`. */
    ghost method Elsewhere(a: Action)
      requires Agrees() && Enabled(monitor, a)
      requires a.WakeUp? || a.DoCall? || a.CallThrows? || a.End? || a.NotifyAll?
      modifies this`monitor
      ensures Agrees() && monitor == Next(old(monitor), a)
    {
      InvStep(monitor, a);
      monitor := Next(monitor, a);
    }
  }
}
