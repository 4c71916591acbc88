/** Names shared by the models of the chat server. */
module ChatTypes {

  type UserId = int
  type GroupId = int
  /** Identity of a TCP connection object. */
  type ConnId = nat
  type ThreadId = nat

  datatype Option<+T> = None | Some(value: T)

  /** `userConnMap_`: the connection of each user logged in at a node. */
  type Conns = map<UserId, ConnId>

  /** `groupMembers_`: the members a node knows of each group. */
  type Members = map<GroupId, set<UserId>>

  /** The default id of a `User`, which `clientQuitEcption` reads as "nobody found". */
  const NOBODY: UserId := -1

  function MembersOf(members: Members, g: GroupId): set<UserId> {
    if g in members then members[g] else {}
  }

  predicate PresentButEmpty(members: Members, g: GroupId) {
    g in members && members[g] == {}
  }

  function WithMembers(members: Members, g: GroupId, ids: set<UserId>): Members {
    members[g := MembersOf(members, g) + ids]
  }

  function One(b: bool): nat {
    if b then 1 else 0
  }

  /** What the database does for one statement of a model class. */
  datatype Reply = NoConn | Failed | Done

  /** Any element of a set: the order of an unordered container is not specified. */
  method Pick<T(==)>(s: set<T>) returns (x: T)
    requires s != {}
    ensures x in s
  {
    x :| x in s;
  }

  lemma {:induction false} Member<T>(s: set<T>) returns (x: T)
    requires s != {}
    ensures x in s
  {
    x :| x in s;
  }

  predicate Distinct<T(==)>(s: seq<T>) {
    forall i, j :: 0 <= i < j < |s| ==> s[i] != s[j]
  }

  /** What a run adds to a log: its first step, then the rest. */
  lemma {:induction false} ThenAppend<T>(log: seq<T>, first: seq<T>, rest: seq<T>)
    ensures log + (first + rest) == (log + first) + rest
  {
  }
}
