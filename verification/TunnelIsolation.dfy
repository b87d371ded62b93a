/**
 Isolation of clients that use the same node one after the other.

 The relay is put together with one node endpoint and the two FIFO links between them. Every other
 socket, every timer and every close stays arbitrary. The node endpoint follows the protocol: it sends
 a client's frames only between that client's `clientConnected` and `clientDisconnected`, and answers
 an authorization request only after receiving it. The relay never looks at the annotation
 `Frame.client`; for the node's frames it names the client the node sent them for.
 */
module TunnelIsolation {
  import opened Prelude
  import opened ForwardQueue
  import opened TunnelModel
  import opened TunnelPairing
  import opened TunnelOutput
  import opened Subsequence

  /** What the node endpoint sends. */
  datatype Up = FrameFor(frame: Frame) | Answer(rid: Rid, allow: bool) | OtherText(text: Text)

  /**
   `delivered` counts the messages of the node's socket it has received; `up` is its outgoing link, `log` lists
   every frame it ever sent.
   */
  datatype Net = Net(relay: Relay, delivered: nat, up: seq<Up>, log: seq<Frame>)

  datatype NetEvent =
    | Elsewhere(e: Event)
    | Deliver
    | NodeSends(m: Up)
    | RelayReads(buffered: nat, throws: bool)

  function OutOf(r: Relay, n: Sid): seq<Msg> {
    if n in r.peers then r.peers[n].out else []
  }

  /** The messages of `n` come over its link only, and `n` is a node socket. */
  predicate ConcernsLink(e: Event, n: Sid) {
    match e
    case TextMessage(s, _) => s == n
    case BinaryMessage(s, _, _, _) => s == n
    case Accept(s, role) => s == n && role == ClientRole
    case _ => false
  }

  /** The messages a node may send after receiving `heard`. */
  predicate FollowsProtocol(heard: seq<Msg>, m: Up) {
    match m
    case FrameFor(f) => Read(heard).Inside? && Read(heard).client == f.client
    case Answer(rid, _) => AuthorizeClient(rid) in heard
    case OtherText(text) => !text.AuthorizeResult?
  }

  function AsEvent(n: Sid, m: Up, buffered: nat, throws: bool): Event {
    match m
    case FrameFor(f) => BinaryMessage(n, f, buffered, throws)
    case Answer(rid, allow) => TextMessage(n, AuthorizeResult(rid, allow))
    case OtherText(text) => TextMessage(n, text)
  }

  function NetStep(o: TunnelOptions, n: Sid, net: Net, e: NetEvent): Net {
    match e
    case Elsewhere(e) => if ConcernsLink(e, n) then net else net.(relay := Step(o, net.relay, e))
    case Deliver => if net.delivered < |OutOf(net.relay, n)| then net.(delivered := net.delivered + 1) else net
    case NodeSends(m) =>
      var out := OutOf(net.relay, n);
      if n in net.relay.peers && net.delivered <= |out| && FollowsProtocol(out[..net.delivered], m)
      then net.(up := net.up + [m], log := if m.FrameFor? then net.log + [m.frame] else net.log)
      else net
    case RelayReads(buffered, throws) =>
      if net.up == [] then net
      else net.(relay := Step(o, net.relay, AsEvent(n, net.up[0], buffered, throws)), up := net.up[1..])
  }

  function NetRun(o: TunnelOptions, n: Sid, events: seq<NetEvent>): Net
    decreases |events|
  {
    if events == [] then Net(INITIAL, 0, [], [])
    else var k := |events| - 1; NetStep(o, n, NetRun(o, n, events[..k]), events[k])
  }

  // ----- the node's side -----

  /**
   Once the node has the request, it is outside every block until the relay pairs it, and after its
   answer it has sent no frame.
   */
  ghost predicate Fenced(out: seq<Msg>, up: seq<Up>, rid: Rid) {
    && (forall pos, j :: 0 <= pos < j <= |out| && out[pos] == AuthorizeClient(rid) ==> !Read(out[..j]).Inside?)
    && (forall i, j :: 0 <= i < j < |up| && up[i].Answer? && up[i].rid == rid ==> !up[j].FrameFor?)
  }

  /** While paired, everything on the way from the node is for the paired client, and will be. */
  ghost predicate OnlyFor(out: seq<Msg>, delivered: nat, up: seq<Up>, c: Sid) {
    && (forall i :: 0 <= i < |up| && up[i].FrameFor? ==> up[i].frame.client == c)
    && (forall j :: delivered <= j <= |out| && Read(out[..j]).Inside? ==> Read(out[..j]).client == c)
  }

  ghost predicate LinksOk(out: seq<Msg>, requests: set<Rid>, delivered: nat, up: seq<Up>) {
    && delivered <= |out|
    && (forall i :: 0 <= i < |up| && up[i].Answer? ==> AuthorizeClient(up[i].rid) in out[..delivered])
    && (forall i :: 0 <= i < |out| && out[i].AuthorizeClient? ==> out[i].rid in requests)
    && (forall i :: 0 <= i < |up| && up[i].OtherText? ==> !up[i].text.AuthorizeResult?)
  }

  ghost predicate NodeSide(p: Peer, requests: set<Rid>, delivered: nat, up: seq<Up>) {
    && LinksOk(p.out, requests, delivered, up)
    && (p.live && p.phase == Paired && p.client.Some? ==> OnlyFor(p.out, delivered, up, p.client.value))
    && (p.live && p.phase == Authorizing && p.pending.Some? ==> Fenced(p.out, up, p.pending.value.rid))
  }

  // ----- the clients' side -----

  ghost predicate FramesFor(frames: seq<Frame>, c: Sid) {
    forall i :: 0 <= i < |frames| ==> frames[i].client == c
  }

  ghost predicate MessagesFor(out: seq<Msg>, c: Sid) {
    forall i :: 0 <= i < |out| && out[i].Opaque? ==> out[i].frame.client == c
  }

  /** A client reads no frame before it is paired, and if its node is `n`, only its own frames after. */
  ghost predicate ClientSide(r: Relay, n: Sid, c: Sid)
    requires c in r.peers
  {
    var p := r.peers[c];
    p.role == ClientRole ==>
      && (p.phase != Paired ==> forall i :: 0 <= i < |p.out| ==> !p.out[i].Opaque?)
      && (p.node == Some(n) ==> MessagesFor(p.out, c))
  }

  ghost predicate NodeQueueFor(p: Peer) {
    p.client.Some? && p.queue.Some? ==> FramesFor(p.queue.value.frames, p.client.value)
  }

  /** What holds of node `n`, its links and its queue. */
  ghost predicate NodePart(r: Relay, n: Sid, delivered: nat, up: seq<Up>) {
    n in r.peers ==>
      && r.peers[n].role == NodeRole
      && NodeSide(r.peers[n], r.requests.Keys, delivered, up)
      && NodeQueueFor(r.peers[n])
  }

  ghost predicate ClientsPart(r: Relay, n: Sid) {
    forall c {:trigger ClientSide(r, n, c)} :: c in r.peers ==> ClientSide(r, n, c)
  }

  ghost predicate IsolationInv(o: TunnelOptions, n: Sid, net: Net) {
    && PairingInv(o, net.relay)
    && OutputInv(net.relay)
    && (n !in net.relay.peers ==> net.delivered == 0 && net.up == [])
    && NodePart(net.relay, n, net.delivered, net.up)
    && ClientsPart(net.relay, n)
  }

  // ----- what one step can do to the node's record -----

  ghost predicate Calm(p: Peer, p': Peer) {
    && p'.out == p.out
    && (p'.live ==> p.live && p'.phase == p.phase && p'.client == p.client && p'.pending == p.pending)
  }

  lemma CalmKeeps(p: Peer, p': Peer, requests: set<Rid>, more: set<Rid>, delivered: nat, up: seq<Up>)
    requires NodeSide(p, requests, delivered, up) && Calm(p, p') && requests <= more
    ensures NodeSide(p', more, delivered, up)
  {
  }

  /** The node becomes ready: nothing is promised about the links then. */
  lemma ReadyKeeps(p: Peer, p': Peer, requests: set<Rid>, delivered: nat, up: seq<Up>, extra: seq<Msg>)
    requires NodeSide(p, requests, delivered, up)
    requires p'.phase == Ready && p'.out == p.out + extra
    requires forall i :: 0 <= i < |extra| ==> !extra[i].AuthorizeClient?
    ensures NodeSide(p', requests, delivered, up)
  {
    assert p'.out[..delivered] == p.out[..delivered];
  }

  lemma {:induction false} FramesKeepClient(out: seq<Msg>, frames: seq<Frame>, j: nat)
    requires Read(out).Inside? && |out| <= j <= |out| + |frames|
    ensures var st := Read((out + AsMessages(frames))[..j]);
      st.Inside? && st.client == Read(out).client
    decreases j
  {
    var all := out + AsMessages(frames);
    if j == |out| {
      assert all[..j] == out;
    } else {
      FramesKeepClient(out, frames, j - 1);
      assert all[..j] == all[..j - 1] + [Opaque(frames[j - 1 - |out|])];
      ReadSnoc(all[..j - 1], Opaque(frames[j - 1 - |out|]));
    }
  }

  /** Frames from the paired client reach the node. */
  lemma FramesArriveKeeps(p: Peer, p': Peer, requests: set<Rid>, delivered: nat, up: seq<Up>, frames: seq<Frame>)
    requires NodeSide(p, requests, delivered, up) && p.live && p.phase == Paired && p.client.Some?
    requires Read(p.out).Inside? && Read(p.out).client == p.client.value
    requires p' == p.(out := p.out + AsMessages(frames))
    ensures NodeSide(p', requests, delivered, up)
  {
    assert p'.out[..delivered] == p.out[..delivered];
    forall j | delivered <= j <= |p'.out| && Read(p'.out[..j]).Inside?
      ensures Read(p'.out[..j]).client == p.client.value
    {
      if j <= |p.out| {
        assert p'.out[..j] == p.out[..j];
      } else {
        FramesKeepClient(p.out, frames, j);
      }
    }
  }

  /** A client with a fresh request id asks for the node; an open node is outside every block. */
  lemma RequestKeepsSide(p: Peer, p': Peer, requests: set<Rid>, delivered: nat, up: seq<Up>, rid: Rid, c: Sid)
    requires NodeSide(p, requests, delivered, up) && rid !in requests
    requires p.status == Open ==> Read(p.out) == Outside
    requires p' == Emit(p.(phase := Authorizing, pending := Some(Pending(rid, c))), [AuthorizeClient(rid)])
    ensures NodeSide(p', requests + {rid}, delivered, up)
  {
    assert p'.out[..delivered] == p.out[..delivered];
    ReadSnoc(p.out, AuthorizeClient(rid));
    forall pos, j | 0 <= pos < j <= |p'.out| && p'.out[pos] == AuthorizeClient(rid)
      ensures !Read(p'.out[..j]).Inside?
    {
      assert pos == |p.out| && p'.out[..j] == p.out + [AuthorizeClient(rid)];
    }
    forall i | 0 <= i < |up| && up[i].Answer?
      ensures up[i].rid != rid
    {
      assert AuthorizeClient(up[i].rid) in p.out;
    }
  }

  /** The relay reads the answer and pairs the node with `c`: no frame is left on the way. */
  lemma PairedKeepsSide(p: Peer, p': Peer, requests: set<Rid>, delivered: nat, up: seq<Up>, c: Sid)
    requires NodeSide(p, requests, delivered, up) && p.live && p.phase == Authorizing && p.pending.Some?
    requires up != [] && up[0].Answer? && up[0].rid == p.pending.value.rid
    requires Read(p.out) == Outside
    requires p'.phase == Paired && p'.client == Some(c) && p'.out == p.out + [ClientConnected(c)]
    ensures NodeSide(p', requests, delivered, up[1..])
  {
    assert p'.out[..delivered] == p.out[..delivered];
    var pos :| 0 <= pos < delivered && p.out[..delivered][pos] == AuthorizeClient(up[0].rid);
    ReadSnoc(p.out, ClientConnected(c));
    assert p.out[pos] == AuthorizeClient(up[0].rid);
    forall j | delivered <= j <= |p'.out|
      ensures Read(p'.out[..j]).Inside? ==> Read(p'.out[..j]).client == c
    {
      if j <= |p.out| {
        assert p'.out[..j] == p.out[..j];
      } else {
        assert p'.out[..j] == p.out + [ClientConnected(c)];
      }
    }
  }

  lemma PopKeeps(p: Peer, requests: set<Rid>, delivered: nat, up: seq<Up>)
    requires NodeSide(p, requests, delivered, up) && up != []
    ensures NodeSide(p, requests, delivered, up[1..])
  {
  }

  // ----- the endpoint's own steps -----

  lemma DeliverKeeps(p: Peer, requests: set<Rid>, delivered: nat, up: seq<Up>)
    requires NodeSide(p, requests, delivered, up) && delivered < |p.out|
    ensures NodeSide(p, requests, delivered + 1, up)
  {
    assert p.out[..delivered + 1] == p.out[..delivered] + [p.out[delivered]];
  }

  lemma SendKeeps(p: Peer, requests: set<Rid>, delivered: nat, up: seq<Up>, m: Up)
    requires NodeSide(p, requests, delivered, up) && FollowsProtocol(p.out[..delivered], m)
    ensures NodeSide(p, requests, delivered, up + [m])
  {
    forall i | 0 <= i < |up| && up[i].Answer? && p.live && p.phase == Authorizing && p.pending.Some?
               && up[i].rid == p.pending.value.rid
      ensures !Read(p.out[..delivered]).Inside?
    {
      var pos :| 0 <= pos < delivered && p.out[..delivered][pos] == AuthorizeClient(up[i].rid);
      assert p.out[pos] == AuthorizeClient(up[i].rid);
    }
  }

  // ----- client outputs -----

  /** Frames that a queue step sends or keeps were waiting or are the new frame. */
  lemma {:induction false} SubMembers(a: seq<Frame>, b: seq<Frame>, c: Sid)
    requires IsSub(a, b) && FramesFor(b, c)
    ensures FramesFor(a, c)
    decreases |b|
  {
    if a != [] {
      var b0 := b[..|b| - 1];
      if a[|a| - 1] == b[|b| - 1] && IsSub(a[..|a| - 1], b0) {
        SubMembers(a[..|a| - 1], b0, c);
      } else {
        SubMembers(a, b0, c);
      }
    }
  }

  lemma ForwardFor(o: Options, l: Link, f: Frame, throws: bool, c: Sid)
    requires l.target.sent == [] && FramesFor(l.queue.frames, c) && f.client == c
    ensures var l' := Forward(o, l, f, throws).link;
      FramesFor(l'.target.sent, c) && FramesFor(l'.queue.frames, c)
  {
    ForwardOrder(o, l, f, throws);
  }

  lemma PartsFor(a: seq<Frame>, b: seq<Frame>, c: Sid)
    ensures FramesFor(a + b, c) <==> FramesFor(a, c) && FramesFor(b, c)
  {
    assert forall i :: 0 <= i < |a| ==> (a + b)[i] == a[i];
    assert forall i :: 0 <= i < |b| ==> (a + b)[|a| + i] == b[i];
  }

  lemma DrainLoopFor(o: Options, l: Link, failing: nat, c: Sid)
    requires l.target.open && FramesFor(l.target.sent, c) && FramesFor(l.queue.frames, c)
    ensures var l' := DrainLoop(o, l, failing).link;
      FramesFor(l'.target.sent, c) && FramesFor(l'.queue.frames, c)
  {
    var l' := DrainLoop(o, l, failing).link;
    DrainSelects(o, l, failing);
    PartsFor(l.target.sent, l.queue.frames, c);
    SubMembers(l'.target.sent + l'.queue.frames, l.target.sent + l.queue.frames, c);
    PartsFor(l'.target.sent, l'.queue.frames, c);
  }

  lemma DrainFor(o: Options, l: Link, failing: nat, c: Sid)
    requires FramesFor(l.target.sent, c) && FramesFor(l.queue.frames, c)
    ensures var l' := Drain(o, l, failing).link;
      FramesFor(l'.target.sent, c) && FramesFor(l'.queue.frames, c)
  {
    if l.target.open {
      DrainLoopFor(o, l.(queue := l.queue.(timerArmed := false)), failing, c);
    }
  }

  /** The frames a client has read stay what they were, and it does not move to another node. */
  ghost predicate ClientCalm(a: Peer, b: Peer) {
    && a.role == b.role
    && (a.role == ClientRole ==>
      a.out == b.out && (a.phase == Paired ==> b.phase == Paired && b.node == a.node))
  }

  lemma ClientsCalm(r: Relay, r': Relay, n: Sid)
    requires ClientsPart(r, n) && r'.peers.Keys == r.peers.Keys
    requires forall c {:trigger r'.peers[c]} :: c in r.peers ==>
      r'.peers[c] == r.peers[c] || ClientCalm(r.peers[c], r'.peers[c])
    ensures ClientsPart(r', n)
  {
    forall c | c in r'.peers
      ensures ClientSide(r', n, c)
    {
      assert ClientSide(r, n, c);
    }
  }

  lemma SafeCloseClients(r: Relay, s: Sid, n: Sid)
    requires ClientsPart(r, n)
    ensures ClientsPart(SafeClose(r, s), n)
  {
    ClientsCalm(r, SafeClose(r, s), n);
  }

  lemma DropClients(r: Relay, p: Peer, s: Sid, n: Sid)
    requires ClientsPart(r, n)
    ensures ClientsPart(DropClient(r, p, s), n)
  {
    SafeCloseClients(r, s, n);
    if p.client.Some? {
      SafeCloseClients(r, p.client.value, n);
    }
  }

  lemma PutLinkClients(o: TunnelOptions, r: Relay, s: Sid, l: Link, n: Sid)
    requires PairingInv(o, r) && ClientsPart(r, n) && CanForward(r, s) && IsLive(r, s)
    requires s == n ==> r.peers[n].role == NodeRole && FramesFor(l.target.sent, r.peers[n].client.value)
    ensures ClientsPart(PutLink(r, s, l), n)
  {
    var t := TargetOf(r.peers[s]).value;
    var r' := PutLink(r, s, l);
    assert PeerOk(o, r, s) && PeerOk(o, r, t);
    forall c | c in r'.peers
      ensures ClientSide(r', n, c)
    {
      assert ClientSide(r, n, c);
      if r.peers[s].role == NodeRole && c == t && c != s && s == n && r.peers[t].status == Open {
        assert r'.peers[c].out == r.peers[c].out + AsMessages(l.target.sent);
      }
    }
  }

  lemma BinaryClients(o: TunnelOptions, r: Relay, s: Sid, f: Frame, buffered: nat, throws: bool, n: Sid)
    requires PairingInv(o, r) && ClientsPart(r, n) && IsLive(r, s)
    requires s == n ==> r.peers[n].role == NodeRole && NodeQueueFor(r.peers[n])
    requires s == n && r.peers[n].phase == Paired && r.peers[n].client.Some? ==> f.client == r.peers[n].client.value
    ensures ClientsPart(DoBinary(o, r, s, f, buffered, throws), n)
  {
    var p := r.peers[s];
    if p.phase == Paired {
      var r0 := r.(peers := r.peers[s := p.(received := p.received + [f])]);
      SameShapeKeeps(o, r, r0);
      ClientsCalm(r, r0, n);
      if f.size > o.maxFrameBytes {
        SafeCloseClients(r0, s, n);
      } else if !CanForward(r0, s) {
        DropClients(r0, p, s, n);
      } else {
        var l := Forward(o.queue, LinkOf(r0, s, buffered), f, throws).link;
        if s == n {
          ForwardFor(o.queue, LinkOf(r0, s, buffered), f, throws, p.client.value);
        }
        PutLinkClients(o, r0, s, l, n);
        DropClients(PutLink(r0, s, l), p, s, n);
      }
    } else {
      SafeCloseClients(r, s, n);
    }
  }

  lemma DrainClients(o: TunnelOptions, r: Relay, s: Sid, buffered: nat, failing: nat, n: Sid)
    requires PairingInv(o, r) && ClientsPart(r, n)
    requires s == n && s in r.peers ==> r.peers[n].role == NodeRole && NodeQueueFor(r.peers[n])
    ensures ClientsPart(DoDrain(o, r, s, buffered, failing), n)
  {
    if CanForward(r, s) && r.peers[s].queue.value.timerArmed {
      assert PeerOk(o, r, s);
      if s == n {
        DrainFor(o.queue, LinkOf(r, s, buffered), failing, r.peers[n].client.value);
      }
      PutLinkClients(o, r, s, Drain(o.queue, LinkOf(r, s, buffered), failing).link, n);
    }
  }

  lemma PairClients(o: TunnelOptions, r: Relay, m: Sid, c: Sid, n: Sid)
    requires PairingInv(o, r) && ClientsPart(r, n) && IsLive(r, m) && IsLive(r, c)
    requires r.peers[m].role == NodeRole && r.peers[c].role == ClientRole && r.peers[c].phase == Authorizing
    ensures ClientsPart(Pair(r, m, c), n)
  {
    var r' := Pair(r, m, c);
    forall x | x in r'.peers
      ensures ClientSide(r', n, x)
    {
      assert ClientSide(r, n, x);
    }
  }

  lemma AnsweredClients(o: TunnelOptions, r: Relay, m: Sid, rid: Rid, allow: bool, n: Sid)
    requires PairingInv(o, r) && ClientsPart(r, n) && IsLive(r, m)
    requires r.peers[m].role == NodeRole && r.peers[m].phase == Authorizing
    ensures ClientsPart(Answered(r, m, rid, allow), n)
  {
    assert PeerOk(o, r, m);
    var Pending(rid', c) := r.peers[m].pending.value;
    if rid' == rid {
      var r0 := r.(peers := r.peers[m := r.peers[m].(pending := None, phase := Ready)]);
      WithdrawnKeeps(o, r, m);
      ClientsCalm(r, r0, n);
      SafeCloseClients(r0, c, n);
      PairClients(o, r0, m, c, n);
    }
  }

  lemma RequestClients(o: TunnelOptions, r: Relay, c: Sid, id: NodeId, rid: Rid, n: Sid)
    requires PairingInv(o, r) && ClientsPart(r, n) && IsLive(r, c) && r.peers[c].role == ClientRole
    requires r.peers[c].phase == Handshake
    ensures ClientsPart(RequestPairing(r, c, id, rid), n)
  {
    if NodeAvailable(r, id) {
      ClientsCalm(r, RequestPairing(r, c, id, rid), n);
    } else {
      SafeCloseClients(r, c, n);
    }
  }

  lemma TextClients(o: TunnelOptions, r: Relay, s: Sid, text: Text, n: Sid)
    requires PairingInv(o, r) && ClientsPart(r, n) && IsLive(r, s)
    ensures ClientsPart(DoText(r, s, text), n)
  {
    var p := r.peers[s];
    if p.phase == Paired || p.processing || text.Oversized? {
      SafeCloseClients(r, s, n);
    } else {
      var r0 := r.(peers := r.peers[s := p.(processing := true)]);
      SameShapeKeeps(o, r, r0);
      ClientsCalm(r, r0, n);
      SafeCloseClients(r0, s, n);
      if p.role == NodeRole {
        if p.phase == Handshake {
          if text.NodeAuth? {
            ClientsCalm(r, r.(peers := r.peers[s := p.(processing := true, lookup := Some(text.nodeId))]), n);
          }
        } else if text.AuthorizeResult? && p.phase == Authorizing {
          AnsweredClients(o, r0, s, text.answered, text.allow, n);
        } else {
          assert PeerOk(o, r, s);
        }
      } else if p.phase == Handshake && text.ClientAuth? {
        RequestClients(o, r0, s, text.target, text.rid, n);
      }
    }
  }

  lemma LookupClients(o: TunnelOptions, r: Relay, s: Sid, result: LookupResult, n: Sid)
    requires PairingInv(o, r) && ClientsPart(r, n) && s in r.peers && r.peers[s].lookup.Some?
    ensures ClientsPart(LookupResumed(r, s, result), n)
  {
    assert PeerOk(o, r, s);
    assert r.peers[s].role == NodeRole;
    ClientsCalm(r, LookupResumed(r, s, result), n);
  }

  lemma TimerClients(o: TunnelOptions, r: Relay, s: Sid, n: Sid)
    requires PairingInv(o, r) && ClientsPart(r, n) && s in r.peers && r.peers[s].timer != Off
    ensures ClientsPart(DoTimer(r, s), n)
  {
    var p := r.peers[s];
    assert PeerOk(o, r, s);
    if p.timer.AuthorizationTimer? && p.phase == Authorizing && r.peers[p.timer.node].pending.Some?
       && r.peers[p.timer.node].pending.value.rid == p.timer.rid {
      var m := p.timer.node;
      var r1 := r.(peers := r.peers[m := r.peers[m].(pending := None, phase := Ready)]);
      ClientsCalm(r, r1, n);
      ClientsCalm(r1, r1.(peers := r1.peers[s := Shut(p.(timer := Off, node := None))]), n);
    } else {
      ClientsCalm(r, r.(peers := r.peers[s := p.(timer := Off)]), n);
      SafeCloseClients(r.(peers := r.peers[s := p.(timer := Off)]), s, n);
    }
  }

  lemma CloseClients(o: TunnelOptions, r: Relay, s: Sid, n: Sid)
    requires PairingInv(o, r) && ClientsPart(r, n) && IsLive(r, s)
    ensures ClientsPart(DoClose(r, s), n)
  {
    var p := r.peers[s];
    var r0 := r.(peers := r.peers[s := ClosedPeer(p)]);
    assert PeerOk(o, r, s);
    ClientsCalm(r, r0, n);
    if p.role == ClientRole {
      if p.node.Some? && IsLive(r0, p.node.value) {
        var m := p.node.value;
        ClientsCalm(r0, r0.(peers := r0.peers[m := ClientLeft(r0.peers[m], s)]), n);
      }
    } else {
      var nodes := if p.nodeId.Some? then r.nodes - {p.nodeId.value} else r.nodes;
      var r1 := r0.(nodes := nodes);
      var r2 := if p.client.Some? then SafeClose(r1, p.client.value) else r1;
      ClientsCalm(r0, r1, n);
      if p.client.Some? { SafeCloseClients(r1, p.client.value, n); }
      if p.pending.Some? { SafeCloseClients(r2, p.pending.value.client, n); }
    }
  }

  /** No step shows a client a frame of another client of node `n`. */
  lemma StepClients(o: TunnelOptions, r: Relay, e: Event, n: Sid)
    requires PairingInv(o, r) && ClientsPart(r, n)
    requires n in r.peers ==>
      && r.peers[n].role == NodeRole
      && NodeQueueFor(r.peers[n])
      && (e.BinaryMessage? && e.s == n && r.peers[n].live && r.peers[n].phase == Paired && r.peers[n].client.Some? ==>
          e.frame.client == r.peers[n].client.value)
    ensures ClientsPart(Step(o, r, e), n)
  {
    match e
    case Accept(s, role) =>
      var r' := DoAccept(r, s, role);
      forall x | x in r'.peers
        ensures ClientSide(r', n, x)
      {
        assert x in r.peers ==> ClientSide(r, n, x);
      }
    case TextMessage(s, text) =>
      if IsLive(r, s) && !(text.ClientAuth? && text.rid in r.requests) { TextClients(o, r, s, text, n); }
    case BinaryMessage(s, f, buffered, throws) => if IsLive(r, s) { BinaryClients(o, r, s, f, buffered, throws, n); }
    case DrainFires(s, buffered, failing) => DrainClients(o, r, s, buffered, failing, n);
    case LookupDone(s, result) => if s in r.peers && r.peers[s].lookup.Some? { LookupClients(o, r, s, result, n); }
    case TimerFires(s) => if s in r.peers && r.peers[s].timer != Off { TimerClients(o, r, s, n); }
    case CloseEvent(s) => if IsLive(r, s) { CloseClients(o, r, s, n); }
    case _ => ClientsCalm(r, Step(o, r, e), n);
  }
}
