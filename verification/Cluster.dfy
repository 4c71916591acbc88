/**
 The whole cluster for one group message: nodes that have each come out of a run of their own,
 and the connection maps that a run of the presence system left them with.
 */
module Cluster {

  import opened ChatTypes
  import opened ChatNode
  import NodeSystem
  import Presence

  /** A run of one node without gaps for `g`, ending drained with no call owed, before shutdown. */
  ghost predicate Settled(run: seq<NodeSystem.Action>, g: GroupId) {
    && NodeSystem.Valid(NodeSystem.INIT, run)
    && NodeSystem.NoGap(NodeSystem.INIT, run, g)
    && var s := NodeSystem.Exec(NodeSystem.INIT, run);
      !s.stopFlag && NodeSystem.Pending(s) == [] && !NodeSystem.Owed(s, g)
  }

  ghost predicate AllSettled(runs: map<Presence.NodeId, seq<NodeSystem.Action>>, g: GroupId) {
    forall n :: n in runs ==> Settled(runs[n], g)
  }

  /** What node `n` sends for one message published to `g`. */
  ghost function Sends(
      runs: map<Presence.NodeId, seq<NodeSystem.Action>>, p: Presence.State,
      n: Presence.NodeId, g: GroupId, msg: string): multiset<Send>
    requires n in runs && AllSettled(runs, g)
  {
    NodeSends(NodeSystem.Exec(NodeSystem.INIT, runs[n]), g, _ => Presence.ConnsOf(p, n), msg)
  }

  /**
   Once every node is settled, a group message reaches a user connected at a node that counts
   it as a member exactly once in the whole cluster: one copy from that node, on the user's
   connection, and none from any other node.
   */
  lemma {:induction false} ClusterDeliversOnce(
      runs: map<Presence.NodeId, seq<NodeSystem.Action>>, prun: seq<Presence.Action>,
      n: Presence.NodeId, g: GroupId, u: UserId, msg: string)
    requires AllSettled(runs, g) && n in runs
    requires Presence.Valid(Presence.EMPTY, prun) && Presence.AlwaysAgrees(Presence.EMPTY, prun)
    requires u in MembersOf(NodeSystem.Exec(NodeSystem.INIT, runs[n]).members, g)
    requires u in Presence.ConnsOf(Presence.Exec(Presence.EMPTY, prun), n)
    ensures var p := Presence.Exec(Presence.EMPTY, prun);
      && Sends(runs, p, n, g, msg)[Send(u, Presence.ConnsOf(p, n)[u], msg)] == 1
      && (forall m, s :: m in runs && s in Sends(runs, p, m, g, msg) && s.to == u ==>
            m == n && s == Send(u, Presence.ConnsOf(p, n)[u], msg))
  {
    var p := Presence.Exec(Presence.EMPTY, prun);
    assert Settled(runs[n], g);
    DrainedNodeDeliversOnce(runs[n], g, u, _ => Presence.ConnsOf(p, n), msg);
    forall m, s | m in runs && s in Sends(runs, p, m, g, msg) && s.to == u
      ensures m == n && s == Send(u, Presence.ConnsOf(p, n)[u], msg)
    {
      var members := MembersOf(NodeSystem.Exec(NodeSystem.INIT, runs[m]).members, g);
      FanOutIsExactlyOnce(members, _ => Presence.ConnsOf(p, m), msg, s);
      Presence.OnAtMostOneNode(prun, u, n, m);
    }
  }
}
