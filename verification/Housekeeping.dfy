// The smaller critical sections, said without the functions that compute them:
// acknowledgements of inbound messages, expiry, closing, Wills, bridges.

module Housekeeping {
  import opened Types
  import opened Delivery
  import opened Router
  import opened Broker
  import opened Storage
  import opened Sending
  import R = BrokerRuns
  import EndToEnd
  import BridgeLink

  // Nothing but the session of `client` differs.
  ghost predicate OnlySession(st: State, st': State, client: string) {
    && client in st.sessions && client in st'.sessions
    && st'.sessions == st.sessions[client := st'.sessions[client]]
    && st' == st.(sessions := st'.sessions, log := st'.log)
  }

  // -------------------------------------------------------------------------
  // Acknowledgements
  // -------------------------------------------------------------------------

  // A PUBREL forgets its identifier and is answered by PUBCOMP, with Packet
  // Identifier not found if it was not pending.
  lemma {:induction false} PubrelAnswered(st: State, client: string, epoch: nat, id: nat)
    requires Current(st, client, epoch)
    ensures var h := PubrelIn(st, client, epoch, id);
      && h.action == Continue && OnlySession(st, h.st, client) && h.st.log == st.log
      && var s, s' := st.sessions[client], h.st.sessions[client];
      && (forall i :: i in s'.inboundQos2 <==> i in s.inboundQos2 && i != id)
      && Gets(s.d, s'.d, Control(Pubcomp(id, if id in s.inboundQos2 then Success else PacketIdentifierNotFound)))
      && s' == s.(inboundQos2 := s'.inboundQos2, d := s.d.(out := s'.d.out))
  {
  }

  // An acknowledgement on behalf of a vanished session is ignored, one from a
  // superseded connection ends that connection; neither changes anything.
  lemma {:induction false} LateAcksChangeNothing(env: Env, now: nat, st: State, client: string, epoch: nat, id: nat,
                                                 rc: ReasonCode)
    requires client !in st.sessions || st.sessions[client].epoch != epoch
    ensures var h := Handled(st, if client in st.sessions then ServerDisconnect(UnspecifiedError) else Continue);
      && PubackIn(env, now, st, client, epoch, id) == h && PubrecIn(env, now, st, client, epoch, id, rc) == h
      && PubrelIn(st, client, epoch, id) == h && PubcompIn(env, now, st, client, epoch, id) == h
  {
  }

  // -------------------------------------------------------------------------
  // Expiry and closing
  // -------------------------------------------------------------------------

  // The expiry becomes the one asked for, or the cap if that is less, and is
  // written exactly if the session is on disk.
  lemma {:induction false} ExpiryIsUpdated(env: Env, st: State, client: string, wanted: nat)
    requires client in st.sessions
    ensures var st' := UpdateExpiry(env, st, client, wanted);
      && OnlySession(st, st', client)
      && var s, s' := st.sessions[client], st'.sessions[client];
      && s' == s.(expiry := s'.expiry)
      && s'.expiry <= wanted && s'.expiry <= env.maxSessionExpiry
      && (s'.expiry == wanted || s'.expiry == env.maxSessionExpiry)
      && st'.log == if s.persistent then st.log + [UpsertSession(client, s'.expiry, s.identity)] else st.log
  {
  }

  // The close of the current connection takes the session offline, without its
  // aliases and its Will, and leaves everything else; any other close does nothing.
  lemma {:induction false} CloseClears(st: State, client: string, epoch: nat)
    ensures var st' := CloseSession(st, client, epoch);
      if client !in st.sessions || st.sessions[client].epoch != epoch then st' == st
      else
        && OnlySession(st, st', client) && st'.log == st.log
        && var s, s' := st.sessions[client], st'.sessions[client];
        && s'.aliases.Keys == {} && s'.will.None? && !Online(s'.d)
        && s == s'.(aliases := s.aliases, will := s.will, d := s'.d.(out := s.d.out))
  {
    if Current(st, client, epoch) {
      var s := st.sessions[client];
      assert s.d == s.d.(out := None).(out := s.d.out);
    }
  }

  // -------------------------------------------------------------------------
  // Wills
  // -------------------------------------------------------------------------

  function OwnerOf(identity: Option<string>): string {
    match identity case None => "anonymous" case Some(name) => name
  }

  // The work a close of the current connection leaves behind: the removal of the
  // session and, if the Will is to be published, the Will, on behalf of the
  // session's owner, waiting exactly if it has a delay.
  lemma {:induction false} CloseLeavesWork(env: Env, n: R.Node, t: R.TimedEvent)
    requires R.Enabled(env, n, t) && t.ev.Close? && Current(n.st, t.ev.client, t.ev.epoch)
    ensures var n', s := R.NextNode(env, n, t), n.st.sessions[t.ev.client];
      && R.Remove(t.ev.client, t.ev.epoch) in n'.tasks
      && (t.ev.publishWill && s.will.Some? ==>
            R.Fire(t.ev.client, t.ev.epoch, s.will.value, OwnerOf(s.identity), s.will.value.delay != 0) in n'.tasks)
      && (forall task :: task in n'.tasks && task !in n.tasks ==>
            task == R.Remove(t.ev.client, t.ev.epoch) || (task.Fire? && t.ev.publishWill && s.will == Some(task.will)))
  {
  }

  // The Will's client came back: another connection, or the session online.
  ghost predicate CameBack(st: State, client: string, epoch: nat) {
    client in st.sessions && !(st.sessions[client].epoch == epoch && st.sessions[client].d.out.None?)
  }

  // When its delay is over, a Will is due if its client stayed away and dropped
  // if it came back; nothing is published in this step.
  lemma {:induction false} DelayEnds(env: Env, n: R.Node, t: R.TimedEvent)
    requires R.Enabled(env, n, t) && t.ev.Work? && t.ev.task.Fire? && t.ev.task.waiting
    ensures var n', task := R.NextNode(env, n, t), t.ev.task;
      && n'.st == n.st && n'.fired == n.fired
      && n'.tasks == n.tasks - {task}
                     + if CameBack(n.st, task.client, task.epoch) then {} else {task.(waiting := false)}
  {
  }

  // The retained messages after `m`: kept on its topic, cleared if it is empty,
  // unchanged without RETAIN.
  ghost predicate Stores(m: Message, a: map<string, Message>, b: map<string, Message>) {
    && (forall x :: x != m.topic ==> (x in b <==> x in a) && (x in a ==> b[x] == a[x]))
    && (!m.retain ==> b == a)
    && (m.retain && m.payload == [] ==> m.topic !in b)
    && (m.retain && m.payload != [] ==> m.topic in b && b[m.topic] == m)
  }

  lemma {:induction false} RetainStores(st: State, m: Message)
    ensures Stores(m, st.retained, Retain(st, m).retained)
  {
  }

  // A due Will that its owner may still publish is stored if retained, and used
  // up; one that may not be published any more is dropped.
  lemma {:induction false} WillIsStored(env: Env, n: R.Node, t: R.TimedEvent)
    requires R.Enabled(env, n, t) && t.ev.Work? && t.ev.task.Fire? && !t.ev.task.waiting
    ensures var n', task := R.NextNode(env, n, t), t.ev.task; var m := task.will.message;
      && n'.tasks == n.tasks - {task}
      && (CanPublish(env, n.st.acl, task.owner, m.topic) ==>
            Stores(m, n.st.retained, n'.st.retained) && n'.fired == n.fired + [task.epoch])
      && (!CanPublish(env, n.st.acl, task.owner, m.topic) ==> n'.st == n.st && n'.fired == n.fired)
  {
    var m := t.ev.task.will.message;
    if CanPublish(env, n.st.acl, t.ev.task.owner, m.topic) {
      RetainStores(n.st, m);
      R.QuietRoute(env, t.now, Retain(n.st, m), Publication(m, None), t.ev.order);
    }
  }

  // A message from a bridge is stored likewise.
  lemma {:induction false} InjectedIsStored(env: Env, now: nat, st: State, from: string, m: Message, o: RouteOrder)
    requires ValidFor(env, Retain(st, m), Publication(m, Some(from)), o)
    ensures Stores(m, st.retained, Inject(env, now, st, from, m, o).retained)
  {
    RetainStores(st, m);
    R.QuietRoute(env, now, Retain(st, m), Publication(m, Some(from)), o);
  }

  // A status line replaces the one on its topic, in memory only.
  lemma {:induction false} StatusIsStored(env: Env, now: nat, st: State, topic: string, payload: seq<byte>,
                                          o: RouteOrder)
    requires ValidFor(env, st, Publication(SysMessage(topic, payload), None), o)
    ensures var st' := PublishSys(env, now, st, topic, payload, o);
      && st'.log == st.log && topic in st'.retained && st'.retained.Keys == st.retained.Keys + {topic}
      && (forall x :: x in st.retained && x != topic ==> st'.retained[x] == st.retained[x])
      && var m := st'.retained[topic];
      m.topic == topic && m.payload == payload && m.retain && m.qos == AtMostOnce && m.expiresAt == None
  {
    var m := SysMessage(topic, payload);
    R.QuietRoute(env, now, st.(retained := st.retained[topic := m]), Publication(m, None), o);
  }

  // -------------------------------------------------------------------------
  // Bridges
  // -------------------------------------------------------------------------

  // A bridge starts from a clean session that does not outlive it, online under
  // the identity of bridges, whatever was there under its id; its end removes the
  // session unless the bridge registered again. Nothing of this is on disk.
  lemma {:induction false} BridgeComesAndGoes(st: State, client: string, out: Channel, epoch: nat)
    ensures var st' := RegisterBridge(st, client, out);
      && st' == st.(sessions := st'.sessions, nextEpoch := st.nextEpoch + 1)
      && client in st'.sessions && st'.sessions == st.sessions[client := st'.sessions[client]]
      && var s := st'.sessions[client];
      && s.identity == Some("$bridge") && s.epoch == st.nextEpoch && s.subs == [] && !s.persistent && s.expiry == 0
      && s.will.None? && s.inboundQos2 == {} && s.d.out == Some(out) && InUse(s.d) == {} && s.d.queue == []
    ensures var st' := DeregisterBridge(st, client, epoch);
      if client in st.sessions && st.sessions[client].epoch == epoch
      then st' == st.(sessions := st.sessions - {client}) else st' == st
  {
  }

  // A bridge's filter is heard at QoS 0, as published, outside any group, and
  // without its own messages.
  lemma {:induction false} BridgeListens(st: State, client: string, filter: string)
    requires client in st.sessions
    ensures var st' := BridgeSubscribe(st, client, filter, true);
      && OnlySession(st, st', client) && st'.log == st.log
      && var s, s' := st.sessions[client], st'.sessions[client];
      && s' == s.(subs := s'.subs) && |s'.subs| == |s.subs| + 1 && s.subs <= s'.subs
      && var sub := s'.subs[|s.subs|];
      && sub.filter == filter && sub.share.None? && sub.qos == AtMostOnce && sub.noLocal && sub.retainAsPublished
      && sub.subId.None?
  {
  }

  // A PUBREC from the remote broker is answered by its PUBREL and changes nothing
  // else.
  lemma {:induction false} BridgeReleases(l: BridgeLink.Link, id: nat)
    ensures var l' := BridgeLink.Received(l, BridgeLink.Receipt(id));
      l'.pending == l.pending && l'.injected == l.injected && |l'.written| == |l.written| + 1
      && l.written <= l'.written && l'.written[|l.written|] == Packet.Pubrel(id, Success)
  {
  }

  // A packet of the remote broker as the client at its end of the wire sees it.
  ghost predicate Arrives(r: BridgeLink.Remote, x: Outgoing) {
    match r
    case Inbound(p) => x.Send? && x.publish.qos == p.qos && x.publish.packetId == p.packetId
                       && (p.packetId.Some? <==> p.qos != AtMostOnce)
    case Release(id) => exists rc :: x == Control(Pubrel(id, rc))
    case Receipt(_) => false
    case Other => x.Shutdown? || (x.Control? && !x.packet.Pubrel?)
  }

  // A bridge is a conforming receiver: whatever arrives, it remembers the same
  // identifiers, writes the same acknowledgements, and injects a QoS 2 message
  // exactly when a conforming client would pass it on.
  lemma {:induction false} BridgeConforms(l: BridgeLink.Link, w: EndToEnd.World, r: BridgeLink.Remote, x: Outgoing)
    requires Arrives(r, x) && l.pending == w.held
    ensures var l', w' := BridgeLink.Received(l, r), EndToEnd.Received(w, x, false);
      && l'.pending == w'.held && w'.up == w.up + l'.written[|l.written|..] && l.written <= l'.written
      && (r.Inbound? && r.p.qos == ExactlyOnce ==>
            l'.injected == if w'.app != w.app then l.injected + [r.p] else l.injected)
      && (r.Inbound? && r.p.qos != ExactlyOnce ==> l'.injected == l.injected + [r.p])
      && (!r.Inbound? ==> l'.injected == l.injected)
  {
    var l', w' := BridgeLink.Received(l, r), EndToEnd.Received(w, x, false);
    assert l'.written[|l.written|..] == BridgeLink.Acknowledgement(r);
    assert w.up + [] == w.up;
  }
}
