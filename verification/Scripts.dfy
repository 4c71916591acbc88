/**
 The shape that every pooled database or Redis operation has in this server: calls inside a
 `try`, a `catch`, and code after it, with the connection given back somewhere on the way.
 */
module Scripts {

  datatype Instr = Call | GiveBack

  /** `try { body } catch { handler } tail`, also used for what is left of it while it runs. */
  datatype Op = Op(body: seq<Instr>, handler: seq<Instr>, tail: seq<Instr>)

  predicate Finished(f: Op) {
    f.body == [] && f.tail == []
  }

  function Head(f: Op): Instr
    requires !Finished(f)
  {
    if f.body != [] then f.body[0] else f.tail[0]
  }

  function Rest(f: Op): Op
    requires !Finished(f)
  {
    if f.body != [] then f.(body := f.body[1..]) else f.(tail := f.tail[1..])
  }

  predicate CanThrow(f: Op) {
    f.body != [] && f.body[0].Call?
  }

  function Thrown(f: Op): Op {
    Op([], [], f.handler + f.tail)
  }

  /** On every path, whichever call throws, the connection is given back exactly `n` times. */
  ghost predicate GivesBack(f: Op, n: nat)
    decreases |f.body|, |f.tail|
  {
    if Finished(f) then n == 0
    else if Head(f).GiveBack? then n >= 1 && GivesBack(Rest(f), n - 1)
    else GivesBack(Rest(f), n) && (CanThrow(f) ==> GivesBack(Thrown(f), n))
  }

  function Calls(k: nat): (r: seq<Instr>)
    ensures |r| == k && forall i :: 0 <= i < k ==> r[i] == Call
  {
    seq(k, _ => Call)
  }

  /** Calls under `try`, the connection given back after it: `setUserOnline` and the like. */
  function ReturnAfter(k: nat): Op {
    Op(Calls(k), [], [GiveBack])
  }

  /** The connection given back after the call and again in the `catch`: `isUserOnline` and the like. */
  function ReturnInBoth(k: nat): Op {
    Op(Calls(k) + [GiveBack], [GiveBack], [])
  }

  /** The connection given back at the end of the `try` only: most MySQL model methods. */
  function ReturnInTry(k: nat): Op {
    Op(Calls(k) + [GiveBack], [], [])
  }

  /** The connection never given back: `FriendModel::query`. */
  function NoReturn(k: nat): Op {
    Op(Calls(k), [], [])
  }

  lemma {:induction false} ReturnAfterOnce(k: nat)
    ensures GivesBack(ReturnAfter(k), 1)
  {
    var f := ReturnAfter(k);
    assert GivesBack(Op([], [], []), 0);
    assert GivesBack(Op([], [], [GiveBack]), 1) by {
      assert Rest(Op([], [], [GiveBack])) == Op([], [], []);
    }
    if k == 0 {
    } else {
      assert Rest(f) == ReturnAfter(k - 1);
      assert Thrown(f) == Op([], [], [GiveBack]);
      ReturnAfterOnce(k - 1);
    }
  }

  lemma {:induction false} ReturnInBothOnce(k: nat)
    ensures GivesBack(ReturnInBoth(k), 1)
  {
    var f := ReturnInBoth(k);
    assert GivesBack(Op([], [], [GiveBack]), 1) by {
      assert Rest(Op([], [], [GiveBack])) == Op([], [], []);
    }
    if k > 0 {
      assert Rest(f) == ReturnInBoth(k - 1);
      assert Thrown(f) == Op([], [], [GiveBack]);
      ReturnInBothOnce(k - 1);
    } else {
      assert Rest(f) == Op([], [GiveBack], []);
    }
  }

  lemma {:induction false} NoReturnNever(k: nat)
    ensures GivesBack(NoReturn(k), 0)
  {
    if k == 0 {
    } else {
      assert Rest(NoReturn(k)) == NoReturn(k - 1);
      NoReturnNever(k - 1);
    }
  }

  /** Giving back at the end of the `try` only is exactly once just when there is nothing to throw. */
  lemma {:induction false} ReturnInTryLeaks(k: nat)
    ensures GivesBack(ReturnInTry(k), 1) <==> k == 0
  {
    var f := ReturnInTry(k);
    if k > 0 {
      assert Thrown(f) == Op([], [], []);
    } else {
      assert Rest(f) == Op([], [], []);
    }
  }
}
