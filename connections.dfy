/** The registry of connected clients and the choice of who receives a broadcast.
    The registry is a JavaScript `Set`, which iterates in insertion order; it is
    modelled as a sequence without repetitions. */
module Connections {

  /** The `readyState` values a client socket can be in. */
  datatype ReadyState = Connecting | Open | Closing | Closed

  /** A client connection. Its state is changed by the transport, never by the server. */
  class Socket {
    var readyState: ReadyState

    constructor (state: ReadyState)
      ensures readyState == state
    {
      readyState := state;
    }
  }

  /** One `send` of `msg` to the client `to`. */
  datatype Delivery<M> = Delivery(to: Socket, msg: M)

  predicate NoDuplicates(cs: seq<Socket>) {
    forall i, j :: 0 <= i < j < |cs| ==> cs[i] != cs[j]
  }

  /** `Set.prototype.add`: a client not yet present goes to the end; the others keep their places. */
  function Added(cs: seq<Socket>, ws: Socket): (r: seq<Socket>)
    ensures cs <= r
    ensures ws in r
    ensures forall c :: c in r ==> c in cs || c == ws
    ensures NoDuplicates(cs) ==> NoDuplicates(r)
  {
    if ws in cs then cs else cs + [ws]
  }

  /** `Set.prototype.delete`: the client is no longer present; nobody else is affected. */
  function Removed(cs: seq<Socket>, ws: Socket): (r: seq<Socket>)
    ensures ws !in r
    ensures forall c :: c in cs && c != ws ==> c in r
    ensures forall c :: c in r ==> c in cs
    ensures NoDuplicates(cs) ==> NoDuplicates(r)
    ensures |r| <= |cs|
  {
    if cs == [] then []
    else
      var rest := Removed(cs[1..], ws);
      if cs[0] == ws then rest
      else
        assert NoDuplicates(cs) ==> cs[0] !in rest;
        [cs[0]] + rest
  }

  /** Deleting keeps the order of the other clients: an absent client leaves the
      registry as it is, and a present one is cut out of its place. */
  lemma {:induction false} RemovedKeepsOrder(cs: seq<Socket>, ws: Socket)
    requires NoDuplicates(cs)
    ensures ws !in cs ==> Removed(cs, ws) == cs
    ensures forall k :: 0 <= k < |cs| && cs[k] == ws ==> Removed(cs, ws) == cs[..k] + cs[k + 1..]
  {
    if cs != [] {
      var tail := cs[1..];
      RemovedKeepsOrder(tail, ws);
      assert cs == [cs[0]] + tail;
      forall k | 0 <= k < |cs| && cs[k] == ws
        ensures Removed(cs, ws) == cs[..k] + cs[k + 1..]
      {
        if k == 0 {
          assert ws !in tail;
        } else {
          assert tail[k - 1] == ws;
          SpliceAfterHead(cs, k, Removed(tail, ws));
        }
      }
    }
  }

  lemma SpliceAfterHead(cs: seq<Socket>, k: int, r: seq<Socket>)
    requires 0 < k < |cs|
    requires r == cs[1..][..k - 1] + cs[1..][k..]
    ensures [cs[0]] + r == cs[..k] + cs[k + 1..]
  {
    assert cs[..k] == [cs[0]] + cs[1..][..k - 1];
    assert cs[k + 1..] == cs[1..][k..];
  }

  /** The sends of one broadcast: `msg` to each registered client whose state is
      `Open` at that moment, in registry order. */
  function Sends<M(==)>(cs: seq<Socket>, msg: M): (r: seq<Delivery<M>>)
    reads set c | c in cs
    ensures |r| <= |cs|
  {
    if cs == [] then []
    else
      var last := cs[|cs| - 1];
      Sends(cs[..|cs| - 1], msg) + (if last.readyState == Open then [Delivery(last, msg)] else [])
  }

  /** A broadcast reaches exactly the registered clients that are open, and carries
      only its own message. */
  lemma {:induction false} SendsExactlyOpen<M>(cs: seq<Socket>, msg: M)
    ensures forall c :: c in cs && c.readyState == Open ==> Delivery(c, msg) in Sends(cs, msg)
    ensures forall d :: d in Sends(cs, msg) ==> d.msg == msg && d.to in cs && d.to.readyState == Open
  {
    if cs != [] {
      var init := cs[..|cs| - 1];
      assert cs == init + [cs[|cs| - 1]];
      SendsExactlyOpen(init, msg);
    }
  }

  /** The messages that client `c` receives from the sends `ds`, in order. */
  function Received<M>(ds: seq<Delivery<M>>, c: Socket): seq<M> {
    if ds == [] then []
    else
      var last := ds[|ds| - 1];
      Received(ds[..|ds| - 1], c) + (if last.to == c then [last.msg] else [])
  }

  lemma {:induction false} ReceivedAppend<M>(a: seq<Delivery<M>>, b: seq<Delivery<M>>, c: Socket)
    ensures Received(a + b, c) == Received(a, c) + Received(b, c)
  {
    if b != [] {
      assert (a + b)[..|a + b| - 1] == a + b[..|b| - 1];
      ReceivedAppend(a, b[..|b| - 1], c);
    } else {
      assert a + b == a;
    }
  }

  /** Through one broadcast, a registered open client receives the message exactly
      once; every other client receives nothing. */
  lemma {:induction false} ReceivedFromSends<M>(cs: seq<Socket>, msg: M, c: Socket)
    requires NoDuplicates(cs)
    ensures Received(Sends(cs, msg), c) == if c in cs && c.readyState == Open then [msg] else []
  {
    if cs != [] {
      var init := cs[..|cs| - 1];
      var last := cs[|cs| - 1];
      assert cs == init + [last];
      ReceivedFromSends(init, msg, c);
      var tail := if last.readyState == Open then [Delivery(last, msg)] else [];
      ReceivedAppend(Sends(init, msg), tail, c);
      assert tail != [] ==> tail[..0] == [];
    }
  }

  /** Through two broadcasts in a row, a registered open client receives both
      messages in the order they were broadcast. */
  lemma ReceivedFromTwoBroadcasts<M>(cs: seq<Socket>, first: M, second: M, c: Socket)
    requires NoDuplicates(cs)
    ensures Received(Sends(cs, first) + Sends(cs, second), c) ==
            if c in cs && c.readyState == Open then [first, second] else []
  {
    ReceivedAppend(Sends(cs, first), Sends(cs, second), c);
    ReceivedFromSends(cs, first, c);
    ReceivedFromSends(cs, second, c);
  }

  /** Once deleted from the registry, a client receives nothing from a broadcast. */
  lemma RemovedReceivesNothing<M>(cs: seq<Socket>, ws: Socket, msg: M)
    requires NoDuplicates(cs)
    ensures Received(Sends(Removed(cs, ws), msg), ws) == []
  {
    ReceivedFromSends(Removed(cs, ws), msg, ws);
  }
}
