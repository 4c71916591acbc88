/**
 The Redis list of offline messages: pushed at the head, read whole and deleted at login.
 `popOfflineMessages` is two Redis calls, between which any other calls may land: pushes, and
 the calls of another pop for the same user, from any thread of any node.
 */
module OfflineList {

  import opened ChatTypes

  function Reverse(l: seq<string>): (r: seq<string>)
    ensures |r| == |l| && forall i :: 0 <= i < |l| ==> r[i] == l[|l| - 1 - i]
  {
    if l == [] then [] else Reverse(l[1..]) + [l[0]]
  }

  lemma {:induction false} ReverseInjective(a: seq<string>, b: seq<string>)
    requires Reverse(a) == Reverse(b)
    ensures a == b
  {
    if a == [] {
    } else {
      var ra, rb := Reverse(a[1..]), Reverse(b[1..]);
      assert (ra + [a[0]])[..|ra|] == ra && (rb + [b[0]])[..|rb|] == rb;
      assert (ra + [a[0]])[|ra|] == a[0] && (rb + [b[0]])[|rb|] == b[0];
      ReverseInjective(a[1..], b[1..]);
      assert a == [a[0]] + a[1..] && b == [b[0]] + b[1..];
    }
  }

  // ---------- Single Redis calls ----------

  /** One user's list, the answers of each `lrange` not yet followed by its `del`, and the history. */
  datatype Box = Box(list: seq<string>, inFlight: map<ThreadId, seq<string>>, pushed: seq<string>, handed: seq<string>)

  type State = map<UserId, Box>

  datatype Action =
    | Push(u: UserId, m: string)
    | Range(u: UserId, t: ThreadId)
    /** The `del`, or its failure, after which the messages read are handed over either way. */
    | Del(u: UserId, t: ThreadId, ok: bool)

  function BoxOf(s: State, u: UserId): Box {
    if u in s then s[u] else Box([], map[], [], [])
  }

  predicate Enabled(s: State, a: Action) {
    match a
    case Push(u, m) => true
    case Range(u, t) => t !in BoxOf(s, u).inFlight
    case Del(u, t, ok) => t in BoxOf(s, u).inFlight
  }

  function Next(s: State, a: Action): State
    requires Enabled(s, a)
  {
    var b := BoxOf(s, a.u);
    match a
    case Push(u, m) => s[u := b.(list := [m] + b.list, pushed := b.pushed + [m])]
    case Range(u, t) => s[u := b.(inFlight := b.inFlight[t := b.list])]
    case Del(u, t, ok) =>
      s[u := b.(list := if ok then [] else b.list,
                inFlight := b.inFlight - {t},
                handed := b.handed + Reverse(b.inFlight[t]))]
  }

  predicate Valid(s: State, run: seq<Action>)
    decreases |run|
  {
    run == [] || (Enabled(s, run[0]) && Valid(Next(s, run[0]), run[1..]))
  }

  function Exec(s: State, run: seq<Action>): State
    requires Valid(s, run)
    decreases |run|
  {
    if run == [] then s else Exec(Next(s, run[0]), run[1..])
  }

  /** The offline calls of `RedisClient`, on the lists of the Redis server. */
  class OfflineLists {
    /** An absent key is an empty list. */
    var lists: map<UserId, seq<string>>
    ghost var boxes: State

    ghost predicate Agrees()
      reads this
    {
      forall u :: Of(u) == BoxOf(boxes, u).list
    }

    constructor ()
      ensures Agrees() && lists == map[] && boxes == map[]
    {
      lists, boxes := map[], map[];
    }

    function Of(u: UserId): seq<string>
      reads this
    {
      if u in lists then lists[u] else []
    }

    /** `ok` is false when there is no connection or the call throws. */
    method PushOfflineMessage(u: UserId, m: string, ok: bool)
      requires Agrees()
      modifies this
      ensures Agrees()
      ensures boxes == if ok then Next(old(boxes), Push(u, m)) else old(boxes)
      ensures lists == if ok then old(lists)[u := [m] + old(Of(u))] else old(lists)
    {
      if !ok { return; }
      lists := lists[u := [m] + Of(u)];
      boxes := Next(boxes, Push(u, m));
      assert forall v :: v != u ==> BoxOf(boxes, v) == BoxOf(old(boxes), v) && Of(v) == old(Of(v));
    }

    /** Undisturbed, by thread `t`; the exception of either call is caught and ends the pop. */
    method PopOfflineMessages(u: UserId, ghost t: ThreadId, readOk: bool, delOk: bool) returns (messages: seq<string>)
      requires Agrees() && t !in BoxOf(boxes, u).inFlight
      modifies this
      ensures Agrees()
      ensures boxes == if readOk then Next(Next(old(boxes), Range(u, t)), Del(u, t, delOk)) else old(boxes)
      ensures messages == if readOk then old(Of(u)) else []
      ensures lists == if readOk && delOk then old(lists) - {u} else old(lists)
      ensures BoxOf(boxes, u).handed == BoxOf(old(boxes), u).handed + Reverse(messages)
    {
      messages := [];
      if !readOk { return; }
      messages := Of(u);
      boxes := Next(boxes, Range(u, t));
      if delOk {
        lists := lists - {u};
      }
      boxes := Next(boxes, Del(u, t, delOk));
      assert forall v :: v != u ==> BoxOf(boxes, v) == BoxOf(old(boxes), v) && Of(v) == old(Of(v));
    }
  }

  // ---------- Over whole runs ----------

  /** Handed over so far, then what the list still holds, oldest first: the push history. */
  predicate HandedOnce(b: Box) {
    b.pushed == b.handed + Reverse(b.list)
  }

  /** A successful `del` finds the list as it was read; a failed one had read nothing. */
  predicate CleanDel(s: State, a: Action, u: UserId)
    requires Enabled(s, a)
  {
    var b := BoxOf(s, u);
    a.Del? && a.u == u ==> if a.ok then b.list == b.inFlight[a.t] else b.inFlight[a.t] == []
  }

  ghost predicate AlwaysClean(s: State, run: seq<Action>, u: UserId)
    requires Valid(s, run)
    decreases |run|
  {
    run != [] ==> CleanDel(s, run[0], u) && AlwaysClean(Next(s, run[0]), run[1..], u)
  }

  ghost predicate AlwaysHandedOnce(s: State, run: seq<Action>, u: UserId)
    requires Valid(s, run)
    decreases |run|
  {
    HandedOnce(BoxOf(s, u)) && (run != [] ==> AlwaysHandedOnce(Next(s, run[0]), run[1..], u))
  }

  lemma {:induction false} DelStep(s: State, a: Action)
    requires Enabled(s, a) && a.Del? && HandedOnce(BoxOf(s, a.u))
    ensures HandedOnce(BoxOf(Next(s, a), a.u)) <==> CleanDel(s, a, a.u)
  {
    var b, b' := BoxOf(s, a.u), BoxOf(Next(s, a), a.u);
    var read := b.inFlight[a.t];
    if a.ok {
      assert b'.handed + Reverse(b'.list) == b.handed + Reverse(read);
      if HandedOnce(b') {
        assert Reverse(read) == (b.handed + Reverse(read))[|b.handed|..] == (b.handed + Reverse(b.list))[|b.handed|..];
        ReverseInjective(read, b.list);
      }
    } else {
      assert |b'.handed + Reverse(b'.list)| == |b.pushed| + |read|;
    }
  }

  /** Only a `del` can break the history, exactly if it is not clean. */
  lemma {:induction false} HandOverStep(s: State, a: Action, u: UserId)
    requires Enabled(s, a) && HandedOnce(BoxOf(s, u))
    ensures HandedOnce(BoxOf(Next(s, a), u)) <==> CleanDel(s, a, u)
  {
    if a.u == u && a.Del? {
      DelStep(s, a);
    } else if a.u == u && a.Push? {
      assert ([a.m] + BoxOf(s, u).list)[1..] == BoxOf(s, u).list;
    }
  }

  lemma {:induction false} HandOverRun(s: State, run: seq<Action>, u: UserId)
    requires Valid(s, run) && HandedOnce(BoxOf(s, u))
    ensures AlwaysHandedOnce(s, run, u) <==> AlwaysClean(s, run, u)
    decreases |run|
  {
    if run == [] {
    } else {
      HandOverStep(s, run[0], u);
      if HandedOnce(BoxOf(Next(s, run[0]), u)) {
        HandOverRun(Next(s, run[0]), run[1..], u);
      }
    }
  }

  /**
   For every user and every run of pushes and pops, call by call and with any number of pops of
   one user in flight: what was handed over followed by what the list holds is the push history,
   in every state, if and only if every successful `del` finds the list as its own `lrange` read
   it and every failed one had read nothing.
   */
  lemma {:induction false} ListHandsOverOnce(run: seq<Action>, u: UserId)
    requires Valid(map[], run)
    ensures AlwaysHandedOnce(map[], run, u) <==> AlwaysClean(map[], run, u)
  {
    HandOverRun(map[], run, u);
  }

  /** A pop with nothing in between its two calls hands over the whole list, oldest first. */
  lemma {:induction false} AtomicPopKeepsHistory(s: State, u: UserId, t: ThreadId)
    requires t !in BoxOf(s, u).inFlight && HandedOnce(BoxOf(s, u))
    ensures var b := BoxOf(Next(Next(s, Range(u, t)), Del(u, t, true)), u);
      HandedOnce(b) && b.list == [] && b.handed == b.pushed
  {
    var s1 := Next(s, Range(u, t));
    HandOverStep(s1, Del(u, t, true), u);
  }

  // ---------- The three ways to break the history ----------

  /** A push between the two calls is lost: neither handed over nor left in the list. */
  lemma {:induction false} PushInBetweenIsLost(s: State, u: UserId, t: ThreadId, m: string)
    requires t !in BoxOf(s, u).inFlight && HandedOnce(BoxOf(s, u))
    ensures var b := BoxOf(Next(Next(Next(s, Range(u, t)), Push(u, m)), Del(u, t, true)), u);
      b.list == [] && b.pushed == b.handed + [m]
  {
    assert BoxOf(s, u).pushed == BoxOf(s, u).handed + Reverse(BoxOf(s, u).list);
  }

  /** Two overlapping logins of one user, nothing failing: the whole list is handed over twice. */
  lemma {:induction false} OverlappingPopsHandOverTwice(s: State, u: UserId, t1: ThreadId, t2: ThreadId)
    requires t1 != t2 && t1 !in BoxOf(s, u).inFlight && t2 !in BoxOf(s, u).inFlight && HandedOnce(BoxOf(s, u))
    ensures var read := Next(Next(s, Range(u, t1)), Range(u, t2));
      var b := BoxOf(Next(Next(read, Del(u, t1, true)), Del(u, t2, true)), u);
      b.list == [] && b.handed == b.pushed + Reverse(BoxOf(s, u).list)
  {
  }

  /** A `del` that fails leaves the list to be handed over again at the next login. */
  lemma {:induction false} FailedDeleteHandsOverTwice(s: State, u: UserId, t: ThreadId)
    requires t !in BoxOf(s, u).inFlight && HandedOnce(BoxOf(s, u))
    ensures var failed := Next(Next(s, Range(u, t)), Del(u, t, false));
      var b := BoxOf(Next(Next(failed, Range(u, t)), Del(u, t, true)), u);
      b.list == [] && b.handed == b.pushed + Reverse(BoxOf(s, u).list)
  {
    var b := BoxOf(s, u);
    var b1 := BoxOf(Next(Next(s, Range(u, t)), Del(u, t, false)), u);
    assert b1.handed == b.pushed && b1.list == b.list && t !in b1.inFlight;
  }
}
