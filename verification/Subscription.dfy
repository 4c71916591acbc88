/**
 The subscription bookkeeping of `RedisClient`: handlers enqueue tasks, the subscriber
 thread swaps the queue out and applies it, a Redis call at a time. The meaning of a task
 sequence is given twice: by running it (`Drain`) and by looking at the last task for a
 group (`Target`).
 */
module Subscription {

  import opened ChatTypes

  datatype Task = Subscribe(gid: GroupId) | Unsubscribe(gid: GroupId) | Stop

  predicate Concerns(t: Task, g: GroupId) {
    !t.Stop? && t.gid == g
  }

  predicate NoStop(tasks: seq<Task>) {
    forall i :: 0 <= i < |tasks| ==> !tasks[i].Stop?
  }

  /** The most recent task for `g`. */
  function LastTask(tasks: seq<Task>, g: GroupId): (r: Option<Task>)
    ensures r.Some? ==> r.value in tasks && Concerns(r.value, g)
    ensures r.None? ==> forall t :: t in tasks ==> !Concerns(t, g)
  {
    if tasks == [] then None
    else
      var last := tasks[|tasks| - 1];
      if Concerns(last, g) then Some(last) else LastTask(tasks[..|tasks| - 1], g)
  }

  /** Whether `g` ends up subscribed, read off the last task: the reference definition. */
  predicate Target(subscribed: set<GroupId>, tasks: seq<Task>, g: GroupId) {
    match LastTask(tasks, g)
    case None => g in subscribed
    case Some(t) => t.Subscribe?
  }

  /** The queue after `subscribeGroupChannel(g)`: skipped when the set already has `g`. */
  function AfterSubscribe(subscribed: set<GroupId>, queue: seq<Task>, g: GroupId): seq<Task> {
    if g in subscribed then queue else queue + [Subscribe(g)]
  }

  /** The queue after `unsubscribeGroupChannel(g)`: skipped when the set does not have `g`. */
  function AfterUnsubscribe(subscribed: set<GroupId>, queue: seq<Task>, g: GroupId): seq<Task> {
    if g in subscribed then queue + [Unsubscribe(g)] else queue
  }

  function Settle(subscribed: set<GroupId>, t: Task): set<GroupId> {
    match t
    case Subscribe(g) => subscribed + {g}
    case Unsubscribe(g) => subscribed - {g}
    case Stop => subscribed
  }

  /** One pass of the task loop when every Redis call succeeds; `Stop` drops the rest. */
  function Drain(subscribed: set<GroupId>, tasks: seq<Task>): set<GroupId>
    decreases |tasks|
  {
    if tasks == [] || tasks[0].Stop? then subscribed
    else Drain(Settle(subscribed, tasks[0]), tasks[1..])
  }

  /** One pass of the task loop; `ok[i]` says whether the Redis call of task `i` succeeds. */
  function DrainWith(subscribed: set<GroupId>, tasks: seq<Task>, ok: seq<bool>): set<GroupId>
    requires |ok| == |tasks|
    decreases |tasks|
  {
    if tasks == [] || tasks[0].Stop? then subscribed
    else DrainWith(if ok[0] then Settle(subscribed, tasks[0]) else subscribed, tasks[1..], ok[1..])
  }

  /** The tasks that reach Redis: those before the first `Stop` whose call succeeds. */
  function Succeeding(tasks: seq<Task>, ok: seq<bool>): (r: seq<Task>)
    requires |ok| == |tasks|
    ensures NoStop(r)
  {
    if tasks == [] || tasks[0].Stop? then []
    else (if ok[0] then [tasks[0]] else []) + Succeeding(tasks[1..], ok[1..])
  }

  lemma {:induction false} LastTaskConcat(a: seq<Task>, b: seq<Task>, g: GroupId)
    ensures LastTask(a + b, g) == if LastTask(b, g).Some? then LastTask(b, g) else LastTask(a, g)
  {
    if b == [] {
      assert a + b == a;
    } else {
      assert (a + b)[..|a + b| - 1] == a + b[..|b| - 1];
      LastTaskConcat(a, b[..|b| - 1], g);
    }
  }

  /** Applying the oldest task leaves every group's target where it was. */
  lemma {:induction false} TargetHead(subscribed: set<GroupId>, tasks: seq<Task>, g: GroupId)
    requires tasks != [] && !tasks[0].Stop?
    ensures Target(subscribed, tasks, g) == Target(Settle(subscribed, tasks[0]), tasks[1..], g)
  {
    assert tasks == [tasks[0]] + tasks[1..];
    LastTaskConcat([tasks[0]], tasks[1..], g);
    assert LastTask([tasks[0]], g) == if Concerns(tasks[0], g) then Some(tasks[0]) else None;
  }

  lemma {:induction false} TargetSnoc(subscribed: set<GroupId>, tasks: seq<Task>, t: Task, g: GroupId)
    ensures Target(subscribed, tasks + [t], g)
         == if Concerns(t, g) then t.Subscribe? else Target(subscribed, tasks, g)
  {
    assert (tasks + [t])[..|tasks|] == tasks;
  }

  /** Draining is last-task-wins, for every group and every queue. */
  lemma {:induction false} DrainIsLastTaskWins(subscribed: set<GroupId>, tasks: seq<Task>, g: GroupId)
    requires NoStop(tasks)
    ensures g in Drain(subscribed, tasks) <==> Target(subscribed, tasks, g)
    decreases |tasks|
  {
    if tasks == [] {
    } else {
      TargetHead(subscribed, tasks, g);
      DrainIsLastTaskWins(Settle(subscribed, tasks[0]), tasks[1..], g);
    }
  }

  /** What reaches Redis, told from the end: a call that fails, or comes after a `Stop`, does not. */
  lemma {:induction false} SucceedingSnoc(tasks: seq<Task>, ok: seq<bool>, t: Task, succeeds: bool)
    requires |ok| == |tasks|
    ensures Succeeding(tasks + [t], ok + [succeeds])
         == Succeeding(tasks, ok) + if succeeds && NoStop(tasks) && !t.Stop? then [t] else []
  {
    if tasks == [] {
      assert tasks + [t] == [t] && ok + [succeeds] == [succeeds];
      assert [t][1..] == [] && [succeeds][1..] == [];
    } else {
      assert (tasks + [t])[1..] == tasks[1..] + [t] && (ok + [succeeds])[1..] == ok[1..] + [succeeds];
      SucceedingSnoc(tasks[1..], ok[1..], t, succeeds);
      assert NoStop(tasks) <==> !tasks[0].Stop? && NoStop(tasks[1..]);
    }
  }

  /** With failing calls and a `Stop`, the last task that reached Redis wins. */
  lemma {:induction false} DrainWithIsLastSuccessWins(
      subscribed: set<GroupId>, tasks: seq<Task>, ok: seq<bool>, g: GroupId)
    requires |ok| == |tasks|
    ensures g in DrainWith(subscribed, tasks, ok) <==> Target(subscribed, Succeeding(tasks, ok), g)
    decreases |tasks|
  {
    if tasks == [] || tasks[0].Stop? {
    } else {
      var rest := Succeeding(tasks[1..], ok[1..]);
      if ok[0] {
        assert ([tasks[0]] + rest)[1..] == rest;
        TargetHead(subscribed, [tasks[0]] + rest, g);
        DrainWithIsLastSuccessWins(Settle(subscribed, tasks[0]), tasks[1..], ok[1..], g);
      } else {
        assert [] + rest == rest;
        DrainWithIsLastSuccessWins(subscribed, tasks[1..], ok[1..], g);
      }
    }
  }

  /** When every call succeeds the two loops are one. */
  lemma {:induction false} DrainWithNothingFailing(subscribed: set<GroupId>, tasks: seq<Task>, ok: seq<bool>)
    requires |ok| == |tasks| && forall i :: 0 <= i < |ok| ==> ok[i]
    ensures DrainWith(subscribed, tasks, ok) == Drain(subscribed, tasks)
    decreases |tasks|
  {
    if tasks == [] || tasks[0].Stop? {
    } else {
      DrainWithNothingFailing(Settle(subscribed, tasks[0]), tasks[1..], ok[1..]);
    }
  }

  lemma {:induction false} DrainConcat(subscribed: set<GroupId>, a: seq<Task>, b: seq<Task>)
    requires NoStop(a)
    ensures Drain(subscribed, a + b) == Drain(Drain(subscribed, a), b)
    decreases |a|
  {
    if a == [] {
      assert a + b == b;
    } else {
      assert (a + b)[1..] == a[1..] + b;
      DrainConcat(Settle(subscribed, a[0]), a[1..], b);
    }
  }

  /** The part of `RedisClient` that the handlers and the subscriber thread share. */
  class RedisClient {
    var subTasks: seq<Task>
    var subGroupSet: set<GroupId>
    var stopped: bool
    /** The group channels Redis delivers to this client: state of the Redis server. */
    var channels: set<GroupId>

    constructor ()
      ensures subTasks == [] && subGroupSet == {} && channels == {} && !stopped
    {
      subTasks, subGroupSet, channels, stopped := [], {}, {}, false;
    }

    method SubscribeGroupChannel(g: GroupId)
      modifies this`subTasks
      ensures subTasks == AfterSubscribe(subGroupSet, old(subTasks), g)
      ensures subTasks == old(subTasks) + if g in subGroupSet then [] else [Subscribe(g)]
    {
      if g in subGroupSet { return; }
      subTasks := subTasks + [Subscribe(g)];
    }

    method UnsubscribeGroupChannel(g: GroupId)
      modifies this`subTasks
      ensures subTasks == AfterUnsubscribe(subGroupSet, old(subTasks), g)
      ensures subTasks == old(subTasks) + if g in subGroupSet then [Unsubscribe(g)] else []
    {
      if g !in subGroupSet { return; }
      subTasks := subTasks + [Unsubscribe(g)];
    }

    /** One round of the subscriber loop after `consume`: swap the queue out and apply it. */
    method ProcessTasks(ok: seq<bool>)
      requires channels == subGroupSet
      requires |ok| == |subTasks|
      modifies this
      ensures subTasks == []
      ensures channels == subGroupSet == DrainWith(old(subGroupSet), old(subTasks), ok)
      ensures stopped == (old(stopped) || Stop in old(subTasks))
    {
      var tasks := subTasks;
      subTasks := [];
      var i := 0;
      while i < |tasks|
        invariant 0 <= i <= |tasks|
        invariant subTasks == []
        invariant channels == subGroupSet
        invariant DrainWith(subGroupSet, tasks[i..], ok[i..]) == DrainWith(old(subGroupSet), tasks, ok)
        invariant stopped == old(stopped)
        invariant NoStop(tasks[..i])
      {
        assert tasks[i..][1..] == tasks[i + 1..] && ok[i..][1..] == ok[i + 1..];
        match tasks[i] {
          case Subscribe(g) =>
            if ok[i] {
              channels := channels + {g};
              subGroupSet := subGroupSet + {g};
            }
          case Unsubscribe(g) =>
            if ok[i] {
              channels := channels - {g};
              subGroupSet := subGroupSet - {g};
            }
          case Stop =>
            stopped := true;
            assert Stop in tasks;
            return;
        }
        i := i + 1;
      }
      assert tasks[..i] == tasks;
    }

    /**
     The end of the subscriber thread: unsubscribe the recorded groups one by one. `calls` of the
     unsubscribe calls succeed, the next one throws, and the exception ends the loop silently.
     */
    method CleanUp(calls: nat) returns (ghost done: set<GroupId>)
      modifies this`channels
      ensures done <= subGroupSet && channels == old(channels) - done
      ensures |done| == if calls < |subGroupSet| then calls else |subGroupSet|
      ensures done == subGroupSet <==> calls >= |subGroupSet|
    {
      var todo, left := subGroupSet, calls;
      done := {};
      while todo != {} && left > 0
        invariant todo <= subGroupSet && done == subGroupSet - todo
        invariant |done| + |todo| == |subGroupSet| && |done| + left == calls
        invariant channels == old(channels) - done
        decreases todo
      {
        var g := Pick(todo);
        channels := channels - {g};
        todo, left, done := todo - {g}, left - 1, done + {g};
      }
      if todo == {} {
        assert done == subGroupSet;
      }
    }
  }
}
