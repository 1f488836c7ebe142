// The inbound half of a bridge: what it receives on one remote connection,
// injects into local routing, and acknowledges.

module BridgeLink {
  import opened Types
  import Broker

  datatype Remote =
    | Inbound(p: Broker.InPublish)
    | Receipt(id: nat)   // PUBREC
    | Release(id: nat)   // PUBREL
    | Other

  /** The identifiers pending, the messages injected and the packets written. */
  datatype Link = Link(pending: set<nat>, injected: seq<Broker.InPublish>, written: seq<Packet>)

  const OPENED := Link({}, [], [])

  // A received PUBLISH is injected unless it repeats a pending QoS 2 identifier.
  predicate Injects(pending: set<nat>, r: Remote) {
    r.Inbound? && !(r.p.qos == ExactlyOnce && Broker.PacketId(r.p) in pending)
  }

  function Acknowledgement(r: Remote): seq<Packet> {
    match r
    case Inbound(p) =>
      if p.qos == AtMostOnce then []
      else if p.qos == AtLeastOnce then [Packet.Puback(Broker.PacketId(p), Success)]
      else [Packet.Pubrec(Broker.PacketId(p), Success)]
    case Receipt(id) => [Packet.Pubrel(id, Success)]
    case Release(id) => [Packet.Pubcomp(id, Success)]
    case Other => []
  }

  function Received(l: Link, r: Remote): Link {
    Link(match r
         case Inbound(p) => if p.qos == ExactlyOnce then l.pending + {Broker.PacketId(p)} else l.pending
         case Release(id) => l.pending - {id}
         case _ => l.pending,
         if Injects(l.pending, r) then l.injected + [r.p] else l.injected,
         l.written + Acknowledgement(r))
  }

  function After(l: Link, rs: seq<Remote>): Link {
    if rs == [] then l else Received(After(l, rs[..|rs| - 1]), rs[|rs| - 1])
  }

  class RemoteLink {
    var pending: set<nat>
    var injected: seq<Broker.InPublish>
    var written: seq<Packet>

    ghost function View(): Link
      reads this
    {
      Link(pending, injected, written)
    }

    constructor ()
      ensures View() == OPENED
    {
      pending, injected, written := {}, [], [];
    }

    method HandleInbound(p: Broker.InPublish)
      modifies this
      ensures View() == Received(old(View()), Inbound(p))
    {
      var id := Broker.PacketId(p);
      var duplicate := p.qos == ExactlyOnce && id in pending;
      if !duplicate {
        if p.qos == ExactlyOnce { pending := pending + {id}; }
        injected := injected + [p];
      }
      match p.qos
      case AtMostOnce =>
      case AtLeastOnce => written := written + [Packet.Puback(id, Success)];
      case ExactlyOnce => written := written + [Packet.Pubrec(id, Success)];
    }

    // The remote half of the bridge's loop, over everything received.
    method Serve(rs: seq<Remote>)
      modifies this
      ensures View() == After(old(View()), rs)
    {
      for i := 0 to |rs|
        invariant View() == After(old(View()), rs[..i])
      {
        assert rs[..i + 1][..i] == rs[..i];
        match rs[i]
        case Inbound(p) => HandleInbound(p);
        case Receipt(id) => written := written + [Packet.Pubrel(id, Success)];
        case Release(id) =>
          pending := pending - {id};
          written := written + [Packet.Pubcomp(id, Success)];
        case Other =>
      }
      assert rs[..|rs|] == rs;
    }
  }

  predicate Carries(r: Remote, id: nat) {
    r.Inbound? && r.p.qos == ExactlyOnce && Broker.PacketId(r.p) == id
  }

  // Once received, an identifier stays pending until its PUBREL.
  lemma {:induction false} PendingUntilReleased(l: Link, rs: seq<Remote>, id: nat, i: nat)
    requires i < |rs| && Carries(rs[i], id) && forall k :: i < k < |rs| ==> rs[k] != Release(id)
    ensures id in After(l, rs).pending
  {
    if i < |rs| - 1 { PendingUntilReleased(l, rs[..|rs| - 1], id, i); }
  }

  // Within one remote connection, two injections of one QoS 2 identifier have
  // a PUBREL for it between them; and the first PUBLISH after one is injected.
  lemma {:induction false} InjectedOncePerRelease(rs: seq<Remote>, id: nat, j: nat)
    requires j < |rs| && Carries(rs[j], id)
    ensures Injects(After(OPENED, rs[..j]).pending, rs[j]) <==>
      forall i :: 0 <= i < j && Carries(rs[i], id) ==> exists k :: i < k < j && rs[k] == Release(id)
  {
    if forall i :: 0 <= i < j && Carries(rs[i], id) ==> exists k :: i < k < j && rs[k] == Release(id) {
      NotPendingAfterRelease(rs[..j], id);
    } else {
      var i :| 0 <= i < j && Carries(rs[i], id) && forall k :: i < k < j ==> rs[k] != Release(id);
      PendingUntilReleased(OPENED, rs[..j], id, i);
    }
  }

  lemma {:induction false} NotPendingAfterRelease(rs: seq<Remote>, id: nat)
    requires forall i :: 0 <= i < |rs| && Carries(rs[i], id) ==> exists k :: i < k < |rs| && rs[k] == Release(id)
    ensures id !in After(OPENED, rs).pending
  {
    if rs != [] {
      var n := |rs| - 1;
      if rs[n] != Release(id) {
        forall i | 0 <= i < n && Carries(rs[..n][i], id) ensures exists k :: i < k < n && rs[..n][k] == Release(id) {
          assert Carries(rs[i], id);
          var k :| i < k < |rs| && rs[k] == Release(id);
          assert rs[..n][k] == Release(id);
        }
        NotPendingAfterRelease(rs[..n], id);
        assert !Carries(rs[n], id);
      }
    }
  }
}
