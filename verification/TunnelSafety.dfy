/** Every step of the composed system keeps the isolation invariant, and what follows for clients. */
module TunnelSafety {
  import opened Prelude
  import opened ForwardQueue
  import opened TunnelModel
  import opened TunnelPairing
  import opened TunnelOutput
  import opened TunnelIsolation

  /** The node's record is calm and its queue still holds frames of its own client only. */
  lemma NodeCalm(r: Relay, r': Relay, n: Sid, delivered: nat, up: seq<Up>)
    requires NodePart(r, n, delivered, up)
    requires n in r'.peers ==>
      n in r.peers && r'.peers[n].role == r.peers[n].role && Calm(r.peers[n], r'.peers[n])
      && (NodeQueueFor(r.peers[n]) ==> NodeQueueFor(r'.peers[n]))
    requires r.requests.Keys <= r'.requests.Keys
    ensures NodePart(r', n, delivered, up)
  {
    if n in r'.peers {
      CalmKeeps(r.peers[n], r'.peers[n], r.requests.Keys, r'.requests.Keys, delivered, up);
    }
  }

  lemma SafeCloseNode(r: Relay, s: Sid, n: Sid, delivered: nat, up: seq<Up>)
    requires NodePart(r, n, delivered, up)
    ensures NodePart(SafeClose(r, s), n, delivered, up)
  {
    NodeCalm(r, SafeClose(r, s), n, delivered, up);
  }

  lemma DropClientNode(r: Relay, p: Peer, s: Sid, n: Sid, delivered: nat, up: seq<Up>)
    requires NodePart(r, n, delivered, up)
    ensures NodePart(DropClient(r, p, s), n, delivered, up)
  {
    SafeCloseNode(r, s, n, delivered, up);
    if p.client.Some? { SafeCloseNode(r, p.client.value, n, delivered, up); }
  }

  /** An open node that receives client frames is inside the block of that very client. */
  lemma ReceiverIsPaired(o: TunnelOptions, r: Relay, c: Sid)
    requires PairingInv(o, r) && OutputInv(r) && IsLive(r, c) && r.peers[c].role == ClientRole
    requires r.peers[c].phase == Paired
    ensures r.peers[c].node.Some? && r.peers[c].node.value in r.peers
    ensures var p := r.peers[r.peers[c].node.value];
      && p.role == NodeRole
      && (p.status == Open ==>
        p.live && p.phase == Paired && p.client == Some(c) && Read(p.out).Inside? && Read(p.out).client == c)
  {
    assert PeerOk(o, r, c);
    assert PeerOk(o, r, r.peers[c].node.value) && NodeOutputOk(r, r.peers[c].node.value);
  }

  lemma PutLinkNode(o: TunnelOptions, r: Relay, s: Sid, l: Link, n: Sid, delivered: nat, up: seq<Up>)
    requires PairingInv(o, r) && OutputInv(r) && NodePart(r, n, delivered, up) && CanForward(r, s) && IsLive(r, s)
    requires s == n ==> FramesFor(l.queue.frames, r.peers[n].client.value)
    ensures NodePart(PutLink(r, s, l), n, delivered, up)
  {
    var t := TargetOf(r.peers[s]).value;
    var r' := PutLink(r, s, l);
    assert PeerOk(o, r, s) && PeerOk(o, r, t);
    if s != n && t == n && r.peers[n].status == Open {
      ReceiverIsPaired(o, r, s);
      FramesArriveKeeps(r.peers[n], r'.peers[n], r.requests.Keys, delivered, up, l.target.sent);
    } else {
      NodeCalm(r, r', n, delivered, up);
    }
  }

  lemma BinaryNode(o: TunnelOptions, r: Relay, s: Sid, f: Frame, buffered: nat, throws: bool, n: Sid,
          delivered: nat, up: seq<Up>)
    requires PairingInv(o, r) && OutputInv(r) && NodePart(r, n, delivered, up) && IsLive(r, s)
    requires s == n && r.peers[n].phase == Paired && r.peers[n].client.Some? ==>
      f.client == r.peers[n].client.value
    ensures NodePart(DoBinary(o, r, s, f, buffered, throws), n, delivered, up)
  {
    var p := r.peers[s];
    if p.phase == Paired {
      var r0 := r.(peers := r.peers[s := p.(received := p.received + [f])]);
      SameShapeKeeps(o, r, r0);
      LoggedKeeps(o, r, s, f);
      NodeCalm(r, r0, n, delivered, up);
      if f.size > o.maxFrameBytes {
        SafeCloseNode(r0, s, n, delivered, up);
      } else if !CanForward(r0, s) {
        DropClientNode(r0, p, s, n, delivered, up);
      } else {
        var l := Forward(o.queue, LinkOf(r0, s, buffered), f, throws).link;
        if s == n {
          ForwardFor(o.queue, LinkOf(r0, s, buffered), f, throws, p.client.value);
        }
        PutLinkNode(o, r0, s, l, n, delivered, up);
        DropClientNode(PutLink(r0, s, l), p, s, n, delivered, up);
      }
    } else {
      SafeCloseNode(r, s, n, delivered, up);
    }
  }

  lemma DrainNode(o: TunnelOptions, r: Relay, s: Sid, buffered: nat, failing: nat, n: Sid, delivered: nat, up: seq<Up>)
    requires PairingInv(o, r) && OutputInv(r) && NodePart(r, n, delivered, up)
    ensures NodePart(DoDrain(o, r, s, buffered, failing), n, delivered, up)
  {
    if CanForward(r, s) && r.peers[s].queue.value.timerArmed {
      assert PeerOk(o, r, s);
      if s == n {
        DrainFor(o.queue, LinkOf(r, s, buffered), failing, r.peers[n].client.value);
      }
      PutLinkNode(o, r, s, Drain(o.queue, LinkOf(r, s, buffered), failing).link, n, delivered, up);
    }
  }

  lemma AcceptNode(r: Relay, s: Sid, role: Role, n: Sid, delivered: nat, up: seq<Up>)
    requires NodePart(r, n, delivered, up) && (n !in r.peers ==> delivered == 0 && up == [])
    requires s == n ==> role == NodeRole
    ensures NodePart(DoAccept(r, s, role), n, delivered, up)
  {
  }

  lemma LookupNode(o: TunnelOptions, r: Relay, s: Sid, result: LookupResult, n: Sid, delivered: nat, up: seq<Up>)
    requires PairingInv(o, r) && NodePart(r, n, delivered, up) && s in r.peers && r.peers[s].lookup.Some?
    ensures NodePart(LookupResumed(r, s, result), n, delivered, up)
  {
    assert PeerOk(o, r, s);
    var r' := LookupResumed(r, s, result);
    if s == n && r'.nodes != r.nodes {
      ReadyKeeps(r.peers[n], r'.peers[n], r.requests.Keys, delivered, up, [ReadyNotice]);
    } else {
      NodeCalm(r, r', n, delivered, up);
    }
  }

  lemma RequestNode(o: TunnelOptions, r: Relay, c: Sid, id: NodeId, rid: Rid, n: Sid, delivered: nat, up: seq<Up>)
    requires PairingInv(o, r) && OutputInv(r) && NodePart(r, n, delivered, up)
    requires IsLive(r, c) && r.peers[c].role == ClientRole && rid !in r.requests
    ensures NodePart(RequestPairing(r, c, id, rid), n, delivered, up)
  {
    if NodeAvailable(r, id) {
      var r' := RequestPairing(r, c, id, rid);
      assert r'.requests.Keys == r.requests.Keys + {rid};
      if r.nodes[id] == n {
        assert NodeOutputOk(r, n);
        RequestKeepsSide(r.peers[n], r'.peers[n], r.requests.Keys, delivered, up, rid, c);
        assert PeerOk(o, r, n);
      } else {
        NodeCalm(r, r', n, delivered, up);
      }
    } else {
      SafeCloseNode(r, c, n, delivered, up);
    }
  }

  lemma OtherAnswerNode(o: TunnelOptions, r: Relay, m: Sid, rid: Rid, allow: bool, n: Sid, delivered: nat, up: seq<Up>)
    requires PairingInv(o, r) && NodePart(r, n, delivered, up) && m != n
    requires IsLive(r, m) && r.peers[m].role == NodeRole && r.peers[m].phase == Authorizing
    ensures NodePart(Answered(r, m, rid, allow), n, delivered, up)
  {
    assert PeerOk(o, r, m);
    NodeCalm(r, Answered(r, m, rid, allow), n, delivered, up);
  }

  /** The text answers a request, or makes one. */
  predicate TakesPart(p: Peer, text: Text) {
    && !(p.phase == Paired || p.processing || text.Oversized?)
    && ((p.role == NodeRole && p.phase == Authorizing && text.AuthorizeResult?)
        || (p.role == ClientRole && p.phase == Handshake && text.ClientAuth?))
  }

  /** Any other text only sets flags or closes the socket. */
  lemma PlainText(o: TunnelOptions, r: Relay, s: Sid, text: Text)
    requires PairingInv(o, r) && IsLive(r, s) && !TakesPart(r.peers[s], text)
    ensures var r' := DoText(r, s, text); var p, p' := r.peers[s], r'.peers[s];
      && r' == r.(peers := r.peers[s := p'])
      && p' == p.(processing := p'.processing, lookup := p'.lookup, status := p'.status)
  {
    assert PeerOk(o, r, s);
  }

  lemma OtherTextNode(o: TunnelOptions, r: Relay, s: Sid, text: Text, n: Sid, delivered: nat, up: seq<Up>)
    requires PairingInv(o, r) && OutputInv(r) && NodePart(r, n, delivered, up) && IsLive(r, s) && s != n
    requires text.ClientAuth? ==> text.rid !in r.requests
    ensures NodePart(DoText(r, s, text), n, delivered, up)
  {
    var p := r.peers[s];
    if TakesPart(p, text) {
      var r0 := r.(peers := r.peers[s := p.(processing := true)]);
      SameShapeKeeps(o, r, r0);
      NodeCalm(r, r0, n, delivered, up);
      if p.role == NodeRole {
        OtherAnswerNode(o, r0, s, text.answered, text.allow, n, delivered, up);
      } else {
        QuietKeeps(r, r0);
        RequestNode(o, r0, s, text.target, text.rid, n, delivered, up);
      }
    } else {
      PlainText(o, r, s, text);
      NodeCalm(r, DoText(r, s, text), n, delivered, up);
    }
  }

  lemma TimerNode(o: TunnelOptions, r: Relay, s: Sid, n: Sid, delivered: nat, up: seq<Up>)
    requires PairingInv(o, r) && NodePart(r, n, delivered, up) && s in r.peers && r.peers[s].timer != Off
    ensures NodePart(DoTimer(r, s), n, delivered, up)
  {
    var p := r.peers[s];
    var r' := DoTimer(r, s);
    assert PeerOk(o, r, s);
    if n in r.peers && n != s && r'.peers[n] != r.peers[n] {
      assert PeerOk(o, r, n);
      ReadyKeeps(r.peers[n], r'.peers[n], r.requests.Keys, delivered, up, []);
    } else {
      NodeCalm(r, r', n, delivered, up);
    }
  }

  lemma ClientLeftNode(o: TunnelOptions, r: Relay, c: Sid, n: Sid, delivered: nat, up: seq<Up>)
    requires PairingInv(o, r) && NodePart(r, n, delivered, up)
    requires n in r.peers && r.peers[n].role == NodeRole && r.peers[n].live
    ensures var p' := ClientLeft(r.peers[n], c);
      NodeSide(p', r.requests.Keys, delivered, up) && NodeQueueFor(p')
  {
    var p := r.peers[n];
    var p' := ClientLeft(p, c);
    assert PeerOk(o, r, n);
    if p'.phase == Ready {
      var extra := if p.client == Some(c) && p.status == Open then [ClientDisconnected] else [];
      ReadyKeeps(p, p', r.requests.Keys, delivered, up, extra);
    }
  }

  lemma CloseNode(o: TunnelOptions, r: Relay, s: Sid, n: Sid, delivered: nat, up: seq<Up>)
    requires PairingInv(o, r) && NodePart(r, n, delivered, up) && IsLive(r, s)
    ensures NodePart(DoClose(r, s), n, delivered, up)
  {
    var p := r.peers[s];
    assert PeerOk(o, r, s);
    if p.role == ClientRole && p.node == Some(n) && IsLive(r, n) && n != s {
      ClientLeftNode(o, r, s, n, delivered, up);
    } else if p.role == ClientRole {
      NodeCalm(r, DoClose(r, s), n, delivered, up);
    } else {
      var nodes := if p.nodeId.Some? then r.nodes - {p.nodeId.value} else r.nodes;
      var r1 := r.(peers := r.peers[s := ClosedPeer(p)], nodes := nodes);
      NodeCalm(r, r1, n, delivered, up);
      var r2 := if p.client.Some? then SafeClose(r1, p.client.value) else r1;
      if p.client.Some? { SafeCloseNode(r1, p.client.value, n, delivered, up); }
      if p.pending.Some? { SafeCloseNode(r2, p.pending.value.client, n, delivered, up); }
    }
  }

  /** Steps of the relay that are not messages of node `n`. */
  lemma ElsewhereNode(o: TunnelOptions, r: Relay, e: Event, n: Sid, delivered: nat, up: seq<Up>)
    requires PairingInv(o, r) && OutputInv(r) && NodePart(r, n, delivered, up) && !ConcernsLink(e, n)
    requires n !in r.peers ==> delivered == 0 && up == []
    ensures NodePart(Step(o, r, e), n, delivered, up)
  {
    match e
    case Accept(s, role) => AcceptNode(r, s, role, n, delivered, up);
    case TextMessage(s, text) =>
      if IsLive(r, s) && !(text.ClientAuth? && text.rid in r.requests) {
        OtherTextNode(o, r, s, text, n, delivered, up);
      }
    case BinaryMessage(s, f, buffered, throws) =>
      if IsLive(r, s) { BinaryNode(o, r, s, f, buffered, throws, n, delivered, up); }
    case LookupDone(s, result) =>
      if s in r.peers && r.peers[s].lookup.Some? { LookupNode(o, r, s, result, n, delivered, up); }
    case TimerFires(s) => if s in r.peers && r.peers[s].timer != Off { TimerNode(o, r, s, n, delivered, up); }
    case DrainFires(s, buffered, failing) => DrainNode(o, r, s, buffered, failing, n, delivered, up);
    case CloseEvent(s) => if IsLive(r, s) { CloseNode(o, r, s, n, delivered, up); }
    case _ => NodeCalm(r, Step(o, r, e), n, delivered, up);
  }

  /** The relay reads the node's answer to the request it has pending. */
  lemma OwnAnswerNode(o: TunnelOptions, r: Relay, n: Sid, rid: Rid, allow: bool, delivered: nat, up: seq<Up>)
    requires PairingInv(o, r) && OutputInv(r) && NodePart(r, n, delivered, up) && up != []
    requires up[0] == Answer(rid, allow)
    requires IsLive(r, n) && r.peers[n].role == NodeRole && r.peers[n].phase == Authorizing
    ensures NodePart(Answered(r, n, rid, allow), n, delivered, up[1..])
  {
    var p := r.peers[n];
    var r' := Answered(r, n, rid, allow);
    assert PeerOk(o, r, n) && NodeOutputOk(r, n);
    if p.pending.value.rid == rid && r'.peers[n].phase == Paired {
      PairedKeepsSide(p, r'.peers[n], r.requests.Keys, delivered, up, p.pending.value.client);
    } else {
      PopKeeps(p, r.requests.Keys, delivered, up);
      if p.pending.value.rid == rid {
        ReadyKeeps(p, r'.peers[n], r.requests.Keys, delivered, up[1..], []);
      }
    }
  }

  lemma OwnTextNode(o: TunnelOptions, r: Relay, n: Sid, text: Text, delivered: nat, up: seq<Up>)
    requires PairingInv(o, r) && OutputInv(r) && NodePart(r, n, delivered, up) && up != [] && IsLive(r, n)
    requires if text.AuthorizeResult? then up[0] == Answer(text.answered, text.allow) else up[0] == OtherText(text)
    requires text.ClientAuth? ==> text.rid !in r.requests
    ensures NodePart(DoText(r, n, text), n, delivered, up[1..])
  {
    var p := r.peers[n];
    if TakesPart(p, text) {
      var r0 := r.(peers := r.peers[n := p.(processing := true)]);
      SameShapeKeeps(o, r, r0);
      QuietKeeps(r, r0);
      NodeCalm(r, r0, n, delivered, up);
      OwnAnswerNode(o, r0, n, text.answered, text.allow, delivered, up);
    } else {
      PopKeeps(p, r.requests.Keys, delivered, up);
      PlainText(o, r, n, text);
      NodeCalm(r, DoText(r, n, text), n, delivered, up[1..]);
    }
  }

  lemma RelayReadsNode(o: TunnelOptions, n: Sid, net: Net, buffered: nat, throws: bool)
    requires IsolationInv(o, n, net) && net.up != []
    ensures NodePart(Step(o, net.relay, AsEvent(n, net.up[0], buffered, throws)), n, net.delivered, net.up[1..])
  {
    var r := net.relay;
    PopKeeps(r.peers[n], r.requests.Keys, net.delivered, net.up);
    if r.peers[n].live {
      match net.up[0]
      case FrameFor(f) =>
        assert PeerOk(o, r, n);
        BinaryNode(o, r, n, f, buffered, throws, n, net.delivered, net.up[1..]);
      case Answer(rid, allow) => OwnTextNode(o, r, n, AuthorizeResult(rid, allow), net.delivered, net.up);
      case OtherText(text) =>
        if !(text.ClientAuth? && text.rid in r.requests) { OwnTextNode(o, r, n, text, net.delivered, net.up); }
    }
  }

  lemma RelayReadsKeeps(o: TunnelOptions, n: Sid, net: Net, buffered: nat, throws: bool)
    requires IsolationInv(o, n, net) && net.up != []
    ensures IsolationInv(o, n, NetStep(o, n, net, RelayReads(buffered, throws)))
  {
    var e := AsEvent(n, net.up[0], buffered, throws);
    StepKeepsPairing(o, net.relay, e);
    StepKeepsOutput(o, net.relay, e);
    StepClients(o, net.relay, e, n);
    RelayReadsNode(o, n, net, buffered, throws);
    StepKeepsPeers(o, net.relay, e, n);
  }

  lemma BinaryKeepsPeers(o: TunnelOptions, r: Relay, s: Sid, f: Frame, buffered: nat, throws: bool)
    requires IsLive(r, s)
    ensures DoBinary(o, r, s, f, buffered, throws).peers.Keys == r.peers.Keys
  {
    var p := r.peers[s];
    if p.phase == Paired {
      var r0 := r.(peers := r.peers[s := p.(received := p.received + [f])]);
      if f.size <= o.maxFrameBytes && CanForward(r0, s) {
        var r1 := PutLink(r0, s, Forward(o.queue, LinkOf(r0, s, buffered), f, throws).link);
        assert r1.peers.Keys == r.peers.Keys;
        assert DropClient(r1, p, s).peers.Keys == r.peers.Keys;
      }
    }
  }

  lemma CloseKeepsPeers(r: Relay, s: Sid)
    ensures DoClose(r, s).peers.Keys == r.peers.Keys
  {
  }

  lemma TextKeepsPeers(r: Relay, s: Sid, text: Text)
    requires IsLive(r, s)
    ensures DoText(r, s, text).peers.Keys == r.peers.Keys
  {
  }

  /** A socket once accepted is never forgotten. */
  lemma StepKeepsPeers(o: TunnelOptions, r: Relay, e: Event, s: Sid)
    requires s in r.peers
    ensures s in Step(o, r, e).peers
  {
    match e
    case BinaryMessage(x, f, buffered, throws) => if IsLive(r, x) { BinaryKeepsPeers(o, r, x, f, buffered, throws); }
    case TextMessage(x, text) => if IsLive(r, x) { TextKeepsPeers(r, x, text); }
    case CloseEvent(x) => CloseKeepsPeers(r, x);
    case _ =>
  }

  lemma NetStepKeeps(o: TunnelOptions, n: Sid, net: Net, e: NetEvent)
    requires IsolationInv(o, n, net)
    ensures IsolationInv(o, n, NetStep(o, n, net, e))
  {
    var r := net.relay;
    match e
    case Elsewhere(e) =>
      if !ConcernsLink(e, n) {
        StepKeepsPairing(o, r, e);
        StepKeepsOutput(o, r, e);
        StepClients(o, r, e, n);
        ElsewhereNode(o, r, e, n, net.delivered, net.up);
        if n in r.peers { StepKeepsPeers(o, r, e, n); }
      }
    case Deliver =>
      if net.delivered < |OutOf(r, n)| {
        DeliverKeeps(r.peers[n], r.requests.Keys, net.delivered, net.up);
      }
    case NodeSends(m) =>
      if n in r.peers && FollowsProtocol(r.peers[n].out[..net.delivered], m) {
        SendKeeps(r.peers[n], r.requests.Keys, net.delivered, net.up, m);
      }
    case RelayReads(buffered, throws) => if net.up != [] { RelayReadsKeeps(o, n, net, buffered, throws); }
  }

  lemma {:induction false} IsolationOnEveryRun(o: TunnelOptions, n: Sid, events: seq<NetEvent>)
    ensures IsolationInv(o, n, NetRun(o, n, events))
    decreases |events|
  {
    if events != [] {
      var k := |events| - 1;
      IsolationOnEveryRun(o, n, events[..k]);
      NetStepKeeps(o, n, NetRun(o, n, events[..k]), events[k]);
    }
  }

  /**
   No frame that a protocol-following node sent for one client ever reaches another: every frame
   handed to, or queued for, a client of the node is a frame the node sent for that client.
   */
  lemma {:induction false} NoFrameReachesAnotherClient(o: TunnelOptions, n: Sid, events: seq<NetEvent>, c: Sid)
    requires var r := NetRun(o, n, events).relay;
      c in r.peers && r.peers[c].role == ClientRole && r.peers[c].node == Some(n)
    ensures var r := NetRun(o, n, events).relay;
      && MessagesFor(r.peers[c].out, c)
      && (n in r.peers && r.peers[n].client == Some(c) && r.peers[n].queue.Some? ==>
        FramesFor(r.peers[n].queue.value.frames, c))
  {
    var r := NetRun(o, n, events).relay;
    IsolationOnEveryRun(o, n, events);
    assert ClientSide(r, n, c) && PeerOk(o, r, c);
  }
}
