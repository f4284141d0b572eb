/** The datagram links between the client and one server. Every link is a queue; a
    message carries the epoch in which the client sent it and the number of the phase it
    had begun last (a reply carries those of its request). Both are history: no handler
    reads them. */
module Network {
  import opened Messages

  datatype Tagged = Tagged(msg: Message, epoch: nat, phase: nat)

  type Queue = seq<Tagged>

  /** Every earlier message of the queue is related to every later one. */
  ghost predicate Pairwise(q: Queue, rel: (Tagged, Tagged) -> bool) {
    forall i, j | 0 <= i < j < |q| :: rel(q[i], q[j])
  }

  predicate EpochLe(a: Tagged, b: Tagged) {
    a.epoch <= b.epoch
  }

  /** Vote answers do not decrease. */
  predicate VotesLe(a: Tagged, b: Tagged) {
    a.msg.VoteAck? && b.msg.VoteAck? ==> a.msg.updateId <= b.msg.updateId
  }

  /** Messages of one epoch that the network may exchange: a transaction's writes and
      votes on the way out, vote answers on the way back. */
  predicate MayOvertake(a: Tagged, b: Tagged) {
    && a.epoch == b.epoch
    && (a.msg.WriteBlock? || a.msg.Vote? || a.msg.VoteAck?)
    && (b.msg.WriteBlock? || b.msg.Vote? || b.msg.VoteAck?)
  }

  function Without(q: Queue, i: nat): Queue
    requires i < |q|
  {
    q[..i] + q[i + 1..]
  }

  function Doubled(q: Queue, i: nat): Queue
    requires i < |q|
  {
    q[..i + 1] + q[i..]
  }

  function Exchanged(q: Queue, i: nat): Queue
    requires i + 1 < |q|
  {
    q[i := q[i + 1]][i + 1 := q[i]]
  }

  function Tag(ms: seq<Message>, epoch: nat, phase: nat): (q: Queue)
    ensures |q| == |ms| && forall i | 0 <= i < |q| :: q[i] == Tagged(ms[i], epoch, phase)
  {
    seq(|ms|, i requires 0 <= i < |ms| => Tagged(ms[i], epoch, phase))
  }

  lemma TagMembers(ms: seq<Message>, epoch: nat, phase: nat)
    ensures forall t :: t in Tag(ms, epoch, phase) <==> t.epoch == epoch && t.phase == phase && t.msg in ms
  {
    forall t: Tagged | t.epoch == epoch && t.phase == phase && t.msg in ms
      ensures t in Tag(ms, epoch, phase)
    {
      var i :| 0 <= i < |ms| && ms[i] == t.msg;
      assert Tag(ms, epoch, phase)[i] == t;
    }
  }

  /** Loss, duplication and exchange keep an order that tolerates them. */
  lemma QueueOrders(q: Queue, i: nat, rel: (Tagged, Tagged) -> bool)
    requires i < |q| && Pairwise(q, rel)
    ensures Pairwise(Without(q, i), rel)
    ensures rel(q[i], q[i]) ==> Pairwise(Doubled(q, i), rel)
    ensures i + 1 < |q| && rel(q[i + 1], q[i]) ==> Pairwise(Exchanged(q, i), rel)
  {
    var w, d := Without(q, i), Doubled(q, i);
    forall a, b | 0 <= a < b < |w|
      ensures rel(w[a], w[b])
    {
      assert w[a] == q[if a < i then a else a + 1] && w[b] == q[if b < i then b else b + 1];
    }
    if rel(q[i], q[i]) {
      forall a, b | 0 <= a < b < |d|
        ensures rel(d[a], d[b])
      {
        assert d[a] == q[if a <= i then a else a - 1] && d[b] == q[if b <= i then b else b - 1];
      }
    }
  }

  lemma QueueMembers(q: Queue, i: nat)
    requires i < |q|
    ensures forall t | t in Without(q, i) :: t in q
    ensures forall t | t in Doubled(q, i) :: t in q
    ensures i + 1 < |q| ==> forall t | t in Exchanged(q, i) :: t in q
  {
  }

  lemma AppendOrders(q: Queue, r: Queue, rel: (Tagged, Tagged) -> bool)
    requires Pairwise(q, rel) && Pairwise(r, rel)
    requires forall a, b | a in q && b in r :: rel(a, b)
    ensures Pairwise(q + r, rel)
  {
  }
}
