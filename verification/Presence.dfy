/**
 Presence across a cluster: every node has its own connection map, all share the Redis hash
 of each user, which login writes field by field, logout and disconnect delete, and a TTL
 can remove at any time. Handlers are atomic; node ids are distinct.
 */
module Presence {

  import opened ChatTypes

  type NodeId = nat

  /** The fields of the hash `user:<id>`. */
  datatype Entry = Entry(online: bool, node: Option<NodeId>, conn: Option<ConnId>)

  const ABSENT := Entry(false, None, None)

  datatype State = State(conns: map<NodeId, Conns>, presence: map<UserId, Entry>)

  const EMPTY := State(map[], map[])

  datatype Action =
    /** `readOk`: the presence lookup worked; `writes` of the three fields were written. */
    | Login(n: NodeId, id: UserId, c: ConnId, readOk: bool, writes: nat)
    /** `deletes` of the three fields were deleted. */
    | LogOut(n: NodeId, id: UserId, deletes: nat)
    /** A connection carrying `id` closes. */
    | Close(n: NodeId, id: UserId, deletes: nat)
    | Expire(id: UserId)

  function ConnsOf(s: State, n: NodeId): Conns {
    if n in s.conns then s.conns[n] else map[]
  }

  function EntryIn(presence: map<UserId, Entry>, id: UserId): Entry {
    if id in presence then presence[id] else ABSENT
  }

  function EntryOf(s: State, id: UserId): Entry {
    EntryIn(s.presence, id)
  }

  /** `setUserOnline` after its first `writes` calls: online, then node, then conn. */
  function Written(e: Entry, n: NodeId, c: ConnId, writes: nat): Entry {
    Entry(e.online || writes >= 1,
          if writes >= 2 then Some(n) else e.node,
          if writes >= 3 then Some(c) else e.conn)
  }

  /** `setUserOffline` after its first `deletes` calls: online, then conn, then node. */
  function Deleted(e: Entry, deletes: nat): Entry {
    Entry(e.online && deletes == 0,
          if deletes >= 3 then None else e.node,
          if deletes >= 2 then None else e.conn)
  }

  /** The hashes after `setUserOnline` at node `n`; no connection and a first call that throws write nothing. */
  function SetOnline(presence: map<UserId, Entry>, n: NodeId, id: UserId, c: ConnId, writes: nat): map<UserId, Entry> {
    if writes == 0 then presence else presence[id := Written(EntryIn(presence, id), n, c, writes)]
  }

  /** The hashes after `setUserOffline`. */
  function SetOffline(presence: map<UserId, Entry>, id: UserId, deletes: nat): map<UserId, Entry> {
    if id in presence then presence[id := Deleted(presence[id], deletes)] else presence
  }

  /** The presence calls of `RedisClient`; a call that throws ends the sequence where it stands. */
  class PresenceApi {
    var presence: map<UserId, Entry>
    const localNodeId: NodeId

    constructor (localNodeId: NodeId)
      ensures presence == map[] && this.localNodeId == localNodeId
    {
      this.localNodeId := localNodeId;
      presence := map[];
    }

    method IsUserOnline(id: UserId, readOk: bool) returns (online: bool)
      ensures online <==> readOk && EntryIn(presence, id).online
    {
      if !readOk { return false; }
      return id in presence && presence[id].online;
    }

    method SetUserOnline(id: UserId, c: ConnId, writes: nat)
      modifies this`presence
      ensures presence == SetOnline(old(presence), localNodeId, id, c, writes)
      ensures var before, after := EntryIn(old(presence), id), EntryIn(presence, id);
        && after.online == (before.online || writes >= 1)
        && after.node == (if writes >= 2 then Some(localNodeId) else before.node)
        && after.conn == (if writes >= 3 then Some(c) else before.conn)
      ensures forall u :: u != id ==> EntryIn(presence, u) == EntryIn(old(presence), u)
    {
      if writes == 0 { return; }
      var e := EntryIn(presence, id);
      e := e.(online := true);
      if writes >= 2 { e := e.(node := Some(localNodeId)); }
      if writes >= 3 { e := e.(conn := Some(c)); }
      presence := presence[id := e];
    }

    method SetUserOffline(id: UserId, deletes: nat)
      modifies this`presence
      ensures presence == SetOffline(old(presence), id, deletes)
      ensures var before, after := EntryIn(old(presence), id), EntryIn(presence, id);
        && after.online == (before.online && deletes < 1)
        && after.conn == (if deletes >= 2 then None else before.conn)
        && after.node == (if deletes >= 3 then None else before.node)
      ensures forall u :: u != id ==> EntryIn(presence, u) == EntryIn(old(presence), u)
    {
      if id !in presence || deletes == 0 { return; }
      var e := presence[id].(online := false);
      if deletes >= 2 { e := e.(conn := None); }
      if deletes >= 3 { e := e.(node := None); }
      presence := presence[id := e];
    }
  }

  predicate Refused(s: State, a: Action) {
    a.Login? && a.readOk && EntryOf(s, a.id).online
  }

  predicate Enabled(s: State, a: Action) {
    a.Close? ==> a.id in ConnsOf(s, a.n)
  }

  function Next(s: State, a: Action): State {
    match a
    case Login(n, id, c, readOk, writes) =>
      if Refused(s, a) then s
      else
        var m := ConnsOf(s, n);
        State(s.conns[n := if id in m then m else m[id := c]], SetOnline(s.presence, n, id, c, writes))
    case LogOut(n, id, deletes) =>
      State(s.conns[n := ConnsOf(s, n) - {id}], SetOffline(s.presence, id, deletes))
    case Close(n, id, deletes) =>
      State(s.conns[n := ConnsOf(s, n) - {id}],
            if id == NOBODY then s.presence else SetOffline(s.presence, id, deletes))
    case Expire(id) => s.(presence := s.presence - {id})
  }

  predicate Valid(s: State, run: seq<Action>)
    decreases |run|
  {
    run == [] || (Enabled(s, run[0]) && Valid(Next(s, run[0]), run[1..]))
  }

  function Exec(s: State, run: seq<Action>): State
    decreases |run|
  {
    if run == [] then s else Exec(Next(s, run[0]), run[1..])
  }

  // ---------- Soundness ----------

  ghost predicate SoundFor(s: State, id: UserId) {
    forall n :: EntryOf(s, id).node == Some(n) ==> id in ConnsOf(s, n)
  }

  ghost predicate Sound(s: State) {
    forall id :: id != NOBODY ==> SoundFor(s, id)
  }

  /** An offline write for a user recorded at this very node stops short of the node field. */
  predicate CutShort(s: State, a: Action) {
    (a.LogOut? || a.Close?) && a.id != NOBODY && EntryOf(s, a.id).node == Some(a.n) && a.deletes < 3
  }

  ghost predicate NeverCutShort(s: State, run: seq<Action>)
    decreases |run|
  {
    run != [] ==> !CutShort(s, run[0]) && NeverCutShort(Next(s, run[0]), run[1..])
  }

  ghost predicate AlwaysSound(s: State, run: seq<Action>)
    decreases |run|
  {
    Sound(s) && (run != [] ==> AlwaysSound(Next(s, run[0]), run[1..]))
  }

  lemma {:induction false} SoundStep(s: State, a: Action)
    requires Sound(s)
    ensures Sound(Next(s, a)) <==> !CutShort(s, a)
  {
    var s' := Next(s, a);
    if CutShort(s, a) {
      assert a.id !in ConnsOf(s', a.n);
      assert !SoundFor(s', a.id);
    } else {
      forall id, n | id != NOBODY && EntryOf(s', id).node == Some(n) ensures id in ConnsOf(s', n) {
        assert SoundFor(s, id);
      }
    }
  }

  lemma {:induction false} SoundRun(s: State, run: seq<Action>)
    requires Sound(s)
    ensures AlwaysSound(s, run) <==> NeverCutShort(s, run)
    decreases |run|
  {
    if run == [] {
    } else {
      SoundStep(s, run[0]);
      if Sound(Next(s, run[0])) {
        SoundRun(Next(s, run[0]), run[1..]);
      }
    }
  }

  /**
   Whatever expires, whichever lookups fail and however far online writes get: a user recorded
   at a node is in that node's connection map, in every state of a run, if and only if no
   offline write for a user recorded at the handling node is cut short.
   */
  lemma {:induction false} PresenceIsSound(run: seq<Action>)
    ensures AlwaysSound(EMPTY, run) <==> NeverCutShort(EMPTY, run)
  {
    SoundRun(EMPTY, run);
  }

  /** An offline write that deletes two of the three fields leaves a user recorded where it is not. */
  lemma {:induction false} CutShortLosesSoundness()
    ensures var run := [Login(1, 42, 10, true, 3), LogOut(1, 42, 2)];
      Valid(EMPTY, run) && !Sound(Exec(EMPTY, run))
  {
    var login, logOut := Login(1, 42, 10, true, 3), LogOut(1, 42, 2);
    assert [login, logOut][1..] == [logOut] && [logOut][1..] == [];
    var s1 := Next(EMPTY, login);
    var s2 := Next(s1, logOut);
    assert Exec(s1, [logOut]) == Exec(s2, []) == s2;
    assert Valid(s1, [logOut]);
    assert EntryOf(s2, 42).node == Some(1) && 42 !in ConnsOf(s2, 1);
    assert !SoundFor(s2, 42);
  }

  // ---------- Exactness ----------

  /** The hash of `id` names the one node whose map has it, and the connection there. */
  ghost predicate ExactFor(s: State, id: UserId) {
    var e := EntryOf(s, id);
    && (forall n: NodeId :: id in ConnsOf(s, n) <==> e.node == Some(n))
    && (if e.node.Some?
        then e.online && id in ConnsOf(s, e.node.value) && e.conn == Some(ConnsOf(s, e.node.value)[id])
        else e == ABSENT)
  }

  ghost predicate Exact(s: State) {
    (forall id :: ExactFor(s, id)) && forall n: NodeId :: NOBODY !in ConnsOf(s, n)
  }

  /** The steps that keep the hash and the maps in exact agreement, told from the hash alone. */
  predicate KeepsAgreement(s: State, a: Action) {
    var at := EntryOf(s, a.id).node;
    match a
    case Login(n, id, c, readOk, writes) =>
      Refused(s, a) ||
      (id != NOBODY &&
       if at.None? then writes >= 3
       else at == Some(n) && (writes < 3 || EntryOf(s, id).conn == Some(c)))
    case LogOut(n, id, deletes) =>
      at.None? || (if at == Some(n) then deletes >= 3 else deletes == 0)
    case Close(n, id, deletes) => deletes >= 3
    case Expire(id) => at.None?
  }

  ghost predicate AlwaysAgrees(s: State, run: seq<Action>)
    decreases |run|
  {
    run != [] ==> KeepsAgreement(s, run[0]) && AlwaysAgrees(Next(s, run[0]), run[1..])
  }

  ghost predicate AlwaysExact(s: State, run: seq<Action>)
    decreases |run|
  {
    Exact(s) && (run != [] ==> AlwaysExact(Next(s, run[0]), run[1..]))
  }

  lemma {:induction false} AgreementKept(s: State, a: Action)
    requires Exact(s) && Enabled(s, a) && KeepsAgreement(s, a)
    ensures Exact(Next(s, a))
  {
    var s' := Next(s, a);
    forall id ensures ExactFor(s', id) {
      assert ExactFor(s, id);
    }
    forall n: NodeId ensures NOBODY !in ConnsOf(s', n) {
      assert NOBODY !in ConnsOf(s, n);
    }
  }

  lemma {:induction false} AgreementLost(s: State, a: Action)
    requires Exact(s) && Enabled(s, a) && !KeepsAgreement(s, a)
    ensures !Exact(Next(s, a))
  {
    var s' := Next(s, a);
    assert ExactFor(s, a.id);
    var at := EntryOf(s, a.id).node;
    if a.Login? {
      assert a.id in ConnsOf(s', a.n);
      if at.Some? {
        assert a.id in ConnsOf(s', at.value);
      }
    } else if a.LogOut? || a.Close? {
      assert a.id !in ConnsOf(s', a.n);
      if at.Some? && at.value != a.n {
        assert a.id in ConnsOf(s', at.value);
      }
    } else {
      assert a.id in ConnsOf(s', at.value);
    }
    assert ExactFor(s', a.id) ==> a.Login? && a.id == NOBODY;
  }

  lemma {:induction false} ExactRun(s: State, run: seq<Action>)
    requires Exact(s) && Valid(s, run)
    ensures AlwaysExact(s, run) <==> AlwaysAgrees(s, run)
    ensures AlwaysAgrees(s, run) ==> Exact(Exec(s, run))
    decreases |run|
  {
    if run == [] {
    } else {
      if KeepsAgreement(s, run[0]) {
        AgreementKept(s, run[0]);
        ExactRun(Next(s, run[0]), run[1..]);
      } else {
        AgreementLost(s, run[0]);
      }
    }
  }

  /**
   The hash and the maps agree exactly, on node and connection, in every state of a run if and
   only if every step is one of: a refused login, a login of a user recorded nowhere that writes
   all its fields, one of a user recorded here that does not write another connection, a
   complete offline write at the recorded node, a logout that finds nobody recorded or deletes
   nothing, an expiry of nothing.
   */
  lemma {:induction false} PresenceIsExact(run: seq<Action>)
    requires Valid(EMPTY, run)
    ensures AlwaysExact(EMPTY, run) <==> AlwaysAgrees(EMPTY, run)
  {
    ExactRun(EMPTY, run);
  }

  /** In such runs a user is in at most one node's map, and is there exactly when recorded online. */
  lemma {:induction false} OnAtMostOneNode(run: seq<Action>, id: UserId, n: NodeId, m: NodeId)
    requires Valid(EMPTY, run) && AlwaysAgrees(EMPTY, run)
    ensures var s := Exec(EMPTY, run);
      && (id in ConnsOf(s, n) <==> EntryOf(s, id).online && EntryOf(s, id).node == Some(n))
      && (id in ConnsOf(s, n) ==> EntryOf(s, id).conn == Some(ConnsOf(s, n)[id]))
      && (id in ConnsOf(s, n) && id in ConnsOf(s, m) ==> n == m)
  {
    ExactRun(EMPTY, run);
    assert ExactFor(Exec(EMPTY, run), id);
  }

  /** In such runs a login whose lookup works and that is not refused takes effect. */
  lemma {:induction false} LoginTakesEffect(run: seq<Action>, a: Action)
    requires Valid(EMPTY, run) && AlwaysAgrees(EMPTY, run)
    requires a.Login? && a.readOk && !Refused(Exec(EMPTY, run), a)
    ensures forall n: NodeId :: a.id !in ConnsOf(Exec(EMPTY, run), n)
    ensures ConnsOf(Next(Exec(EMPTY, run), a), a.n) == ConnsOf(Exec(EMPTY, run), a.n)[a.id := a.c]
  {
    ExactRun(EMPTY, run);
    assert ExactFor(Exec(EMPTY, run), a.id);
  }

  /** One expiry is enough to lose exactness: the same user on two nodes. */
  lemma {:induction false} ExpiryAllowsTwoNodes()
    ensures var run := [Login(1, 42, 10, true, 3), Expire(42), Login(2, 42, 20, true, 3)];
      var s := Exec(EMPTY, run);
      42 in ConnsOf(s, 1) && 42 in ConnsOf(s, 2)
  {
    var a1, a2, a3 := Login(1, 42, 10, true, 3), Expire(42), Login(2, 42, 20, true, 3);
    var run := [a1, a2, a3];
    var s1 := Next(EMPTY, a1);
    var s2 := Next(s1, a2);
    var s3 := Next(s2, a3);
    assert run[1..] == [a2, a3] && [a2, a3][1..] == [a3] && [a3][1..] == [];
    calc {
      Exec(EMPTY, run);
      Exec(s1, [a2, a3]);
      Exec(s2, [a3]);
      Exec(s3, []);
      s3;
    }
    assert 42 in ConnsOf(s1, 1);
  }
}
