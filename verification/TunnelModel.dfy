/**
 The rendezvous protocol of the tunnel relay (apps/pi-tunnel/src/server.ts) as a transition system.

 Every step is one synchronous turn of the relay: a message, the resumption after the device lookup,
 a timer, a close event, a revocation poll. Socket ids stand for WebSocket objects, so each is
 accepted once, and `requests` remembers which client drew which request id. A peer's record outlives its
 entry in the `states` map (field `live`), because timers and other records still refer to it.
 */
module TunnelModel {
  import opened Prelude
  import opened ForwardQueue

  type Sid = nat
  type NodeId = nat
  type Rid = nat

  datatype Role = NodeRole | ClientRole

  datatype Phase = Handshake | Authorizing | Ready | Paired

  datatype Status = Open | Closing | Closed

  /**
   What the relay writes to a socket. The client named in `ClientConnected` is an annotation: the
   wire message carries no name and no step reads it.
   */
  datatype Msg =
    | Challenge
    | ReadyNotice
    | AuthorizeClient(rid: Rid)
    | ClientConnected(client: Sid)
    | ClientDisconnected
    | Opaque(frame: Frame)

  /** The closure of `handshakeTimer`. */
  datatype Timer = Off | HandshakeTimer | AuthorizationTimer(rid: Rid, node: Sid)

  datatype Pending = Pending(rid: Rid, client: Sid)

  /**
   A socket and its connection state. `client`, `pending` and `lookup` belong to nodes, `node` to
   clients; `queue` is `toClient` of a node and `toNode` of a client. `out` is everything handed to
   the socket's `send`; `received` logs the binary frames that arrived while paired.
   */
  datatype Peer = Peer(
    role: Role, live: bool, status: Status, out: seq<Msg>, received: seq<Frame>,
    phase: Phase, processing: bool, timer: Timer, lookup: Option<NodeId>,
    nodeId: Option<NodeId>, client: Option<Sid>, pending: Option<Pending>, node: Option<Sid>,
    queue: Option<Queue>)

  datatype Relay = Relay(
    peers: map<Sid, Peer>,
    nodes: map<NodeId, Sid>,
    requests: map<Rid, Sid>,
    poll: Option<map<NodeId, Sid>>)

  datatype TunnelOptions = TunnelOptions(maxFrameBytes: nat, queue: Options)

  const INITIAL := Relay(map[], map[], map[], None)

  /** A text frame after parsing; every parse or proof failure is `Invalid`. */
  datatype Text =
    | Oversized
    | Invalid
    | NodeAuth(nodeId: NodeId)
    | ClientAuth(target: NodeId, rid: Rid)
    | AuthorizeResult(answered: Rid, allow: bool)

  datatype LookupResult = LookupFailed | DeviceMismatch | DeviceMatches

  datatype Event =
    | Accept(s: Sid, role: Role)
    | TextMessage(s: Sid, text: Text)
    | BinaryMessage(s: Sid, frame: Frame, buffered: nat, throws: bool)
    | LookupDone(s: Sid, result: LookupResult)
    | Settle(s: Sid)
    | TimerFires(s: Sid)
    | DrainFires(s: Sid, buffered: nat, failing: nat)
    | BeginClose(s: Sid)
    | CloseEvent(s: Sid)
    | PollStart
    | PollDone(active: Option<set<NodeId>>)

  // ----- writing to and closing sockets -----

  function Emit(p: Peer, ms: seq<Msg>): Peer {
    if p.status == Open then p.(out := p.out + ms) else p
  }

  function Shut(p: Peer): Peer {
    if p.status == Open then p.(status := Closing) else p
  }

  function SafeClose(r: Relay, s: Sid): Relay {
    if s in r.peers then r.(peers := r.peers[s := Shut(r.peers[s])]) else r
  }

  function AsMessages(frames: seq<Frame>): (ms: seq<Msg>)
    ensures |ms| == |frames|
    ensures forall i :: 0 <= i < |ms| ==> ms[i] == Opaque(frames[i])
  {
    seq(|frames|, i requires 0 <= i < |frames| => Opaque(frames[i]))
  }

  predicate IsLive(r: Relay, s: Sid) {
    s in r.peers && r.peers[s].live
  }

  // ----- accepting -----

  function NewPeer(role: Role): Peer {
    Peer(role, true, Open, [Challenge], [], Handshake, false, HandshakeTimer, None, None, None, None, None, None)
  }

  function DoAccept(r: Relay, s: Sid, role: Role): Relay {
    if s in r.peers then r else r.(peers := r.peers[s := NewPeer(role)])
  }

  // ----- binary frames -----

  /** The socket a peer forwards to: a node to its client, a client to its node. */
  function TargetOf(p: Peer): Option<Sid> {
    if p.role == NodeRole then p.client else p.node
  }

  predicate CanForward(r: Relay, s: Sid) {
    && s in r.peers
    && r.peers[s].queue.Some?
    && TargetOf(r.peers[s]).Some?
    && TargetOf(r.peers[s]).value in r.peers
  }

  function LinkOf(r: Relay, s: Sid, buffered: nat): Link
    requires CanForward(r, s)
  {
    var t := r.peers[TargetOf(r.peers[s]).value];
    Link(r.peers[s].queue.value, Target(t.status == Open, buffered, []))
  }

  /** Stores the queue and writes the frames it has just sent to the target socket. */
  function PutLink(r: Relay, s: Sid, l: Link): Relay
    requires CanForward(r, s)
  {
    var t := TargetOf(r.peers[s]).value;
    r.(peers := r.peers[s := r.peers[s].(queue := Some(l.queue))][t := Emit(r.peers[t], AsMessages(l.target.sent))])
  }

  /** A frame that cannot be forwarded costs the client of the pair its connection, never the node. */
  function DropClient(r: Relay, p: Peer, s: Sid): Relay {
    if p.role == ClientRole then SafeClose(r, s)
    else if p.client.Some? then SafeClose(r, p.client.value)
    else r
  }

  function DoBinary(o: TunnelOptions, r: Relay, s: Sid, f: Frame, buffered: nat, throws: bool): Relay
    requires IsLive(r, s)
  {
    var p := r.peers[s];
    if p.phase == Paired then
      var r0 := r.(peers := r.peers[s := p.(received := p.received + [f])]);
      if f.size > o.maxFrameBytes then SafeClose(r0, s)
      else if !CanForward(r0, s) then DropClient(r0, p, s)
      else
        var fw := Forward(o.queue, LinkOf(r0, s, buffered), f, throws);
        var r1 := PutLink(r0, s, fw.link);
        if fw.accepted then r1 else DropClient(r1, p, s)
    else if p.role == NodeRole && (p.phase == Ready || p.phase == Authorizing) then r
    else SafeClose(r, s)
  }

  function DoDrain(o: TunnelOptions, r: Relay, s: Sid, buffered: nat, failing: nat): Relay {
    if CanForward(r, s) && r.peers[s].queue.value.timerArmed
    then PutLink(r, s, Drain(o.queue, LinkOf(r, s, buffered), failing).link)
    else r
  }

  // ----- control messages -----

  function DoText(r: Relay, s: Sid, text: Text): Relay
    requires IsLive(r, s)
  {
    var p := r.peers[s];
    if p.phase == Paired || p.processing || text.Oversized? then SafeClose(r, s)
    else
      var r0 := r.(peers := r.peers[s := p.(processing := true)]);
      if p.role == NodeRole then
        if p.phase == Handshake then
          if text.NodeAuth? then r.(peers := r.peers[s := p.(processing := true, lookup := Some(text.nodeId))])
          else SafeClose(r0, s)
        else if !text.AuthorizeResult? then SafeClose(r0, s)
        else if p.phase == Ready then r0
        else Answered(r0, s, text.answered, text.allow)
      else if p.phase == Handshake && text.ClientAuth? then RequestPairing(r0, s, text.target, text.rid)
      else SafeClose(r0, s)
  }

  function LookupResumed(r: Relay, s: Sid, result: LookupResult): Relay {
    if s !in r.peers || r.peers[s].lookup.None? then r
    else
      var p := r.peers[s];
      var id := p.lookup.value;
      var r0 := r.(peers := r.peers[s := p.(lookup := None)]);
      if result == LookupFailed then SafeClose(r0, s)
      else if !p.live || p.phase != Handshake || p.status != Open then r0
      else if result == DeviceMismatch || id in r.nodes then SafeClose(r0, s)
      else
        var p' := p.(lookup := None, timer := Off, nodeId := Some(id), phase := Ready);
        r.(peers := r.peers[s := Emit(p', [ReadyNotice])], nodes := r.nodes[id := s])
  }

  function DoSettle(r: Relay, s: Sid): Relay {
    if s in r.peers && r.peers[s].lookup.None?
    then r.(peers := r.peers[s := r.peers[s].(processing := false)])
    else r
  }

  /** The node's answer to an authorization request. */
  function Answered(r: Relay, n: Sid, rid: Rid, allow: bool): Relay
    requires IsLive(r, n)
  {
    var p := r.peers[n];
    if p.pending.None? || p.pending.value.rid != rid then r
    else
      var c := p.pending.value.client;
      var r0 := r.(peers := r.peers[n := p.(pending := None, phase := Ready)]);
      if !IsLive(r0, c) || r0.peers[c].role != ClientRole || r0.peers[c].phase != Authorizing then r0
      else if !allow then SafeClose(r0, c)
      else Pair(r0, n, c)
  }

  function Pair(r: Relay, n: Sid, c: Sid): Relay
    requires IsLive(r, n) && IsLive(r, c)
  {
    var pn, pc := r.peers[n], r.peers[c].(timer := Off);
    if pn.status != Open || pc.status != Open then r.(peers := r.peers[c := Shut(pc)])
    else
      var pn' := pn.(phase := Paired, client := Some(c), queue := Some(EMPTY_QUEUE));
      var pc' := pc.(phase := Paired, node := Some(n), queue := Some(EMPTY_QUEUE));
      r.(peers := r.peers[c := Emit(pc', [ReadyNotice])][n := Emit(pn', [ClientConnected(c)])])
  }

  predicate NodeAvailable(r: Relay, id: NodeId) {
    && id in r.nodes
    && IsLive(r, r.nodes[id])
    && var p := r.peers[r.nodes[id]];
       p.role == NodeRole && p.phase == Ready && p.client.None? && p.pending.None?
  }

  function RequestPairing(r: Relay, c: Sid, id: NodeId, rid: Rid): Relay
    requires IsLive(r, c)
  {
    if !NodeAvailable(r, id) then SafeClose(r, c)
    else
      var n := r.nodes[id];
      var pc := r.peers[c].(timer := AuthorizationTimer(rid, n), phase := Authorizing, nodeId := Some(id),
        node := Some(n));
      var pn := r.peers[n].(phase := Authorizing, pending := Some(Pending(rid, c)));
      r.(peers := r.peers[c := pc][n := Emit(pn, [AuthorizeClient(rid)])], requests := r.requests[rid := c])
  }

  // ----- timers and closing -----

  function DoTimer(r: Relay, s: Sid): Relay {
    if s !in r.peers || r.peers[s].timer == Off then r
    else
      var p := r.peers[s];
      var r0 := r.(peers := r.peers[s := p.(timer := Off)]);
      match p.timer
      case AuthorizationTimer(rid, n) =>
        if p.phase == Authorizing && n in r.peers && r.peers[n].pending.Some?
          && r.peers[n].pending.value.rid == rid then
          r.(peers := r.peers[n := r.peers[n].(pending := None, phase := Ready)]
                             [s := Shut(p.(timer := Off, node := None))])
        else SafeClose(r0, s)
      case _ => SafeClose(r0, s)
  }

  function Cleared(q: Option<Queue>): Option<Queue> {
    if q.Some? then Some(EMPTY_QUEUE) else None
  }

  function ClosedPeer(p: Peer): Peer {
    p.(timer := Off, live := false, status := Closed, queue := Cleared(p.queue))
  }

  /** The `close` event: the peer leaves `states` and its partner is told. */
  function DoClose(r: Relay, s: Sid): Relay {
    if !IsLive(r, s) then r
    else
      var p := r.peers[s];
      var r0 := r.(peers := r.peers[s := ClosedPeer(p)]);
      if p.role == ClientRole then
        if p.node.None? || !IsLive(r0, p.node.value) || r0.peers[p.node.value].role != NodeRole then r0
        else
          var n := p.node.value;
          r0.(peers := r0.peers[n := ClientLeft(r0.peers[n], s)])
      else
        var r1 := if p.nodeId.Some? && p.nodeId.value in r0.nodes && r0.nodes[p.nodeId.value] == s
                  then r0.(nodes := r0.nodes - {p.nodeId.value}) else r0;
        var r2 := if p.client.Some? then SafeClose(r1, p.client.value) else r1;
        if p.pending.Some? then SafeClose(r2, p.pending.value.client) else r2
  }

  /** A node's record after its client `c`, paired or still pending, has closed. */
  function ClientLeft(p: Peer, c: Sid): Peer {
    var p1 := if p.client == Some(c)
              then Emit(p.(queue := None, client := None, phase := Ready), [ClientDisconnected]) else p;
    if p1.pending.Some? && p1.pending.value.client == c then p1.(pending := None, phase := Ready) else p1
  }

  // ----- revocation polls -----

  /** Registered sockets of the poll's snapshot that are still registered under the same id but not active. */
  predicate Revoked(r: Relay, snapshot: map<NodeId, Sid>, active: Option<set<NodeId>>, s: Sid) {
    exists id :: id in snapshot && snapshot[id] == s && id in r.nodes && r.nodes[id] == s
                 && (active.None? || id !in active.value)
  }

  function DoPollDone(r: Relay, active: Option<set<NodeId>>): Relay {
    if r.poll.None? then r
    else
      r.(peers := map s | s in r.peers ::
           if Revoked(r, r.poll.value, active, s) then Shut(r.peers[s]) else r.peers[s],
         poll := None)
  }

  // ----- runs -----

  function Step(o: TunnelOptions, r: Relay, e: Event): Relay {
    match e
    case Accept(s, role) => DoAccept(r, s, role)
    case TextMessage(s, text) =>
      // random request ids are never drawn twice
      if !IsLive(r, s) || (text.ClientAuth? && text.rid in r.requests) then r else DoText(r, s, text)
    case BinaryMessage(s, f, buffered, throws) => if IsLive(r, s) then DoBinary(o, r, s, f, buffered, throws) else r
    case LookupDone(s, result) => LookupResumed(r, s, result)
    case Settle(s) => DoSettle(r, s)
    case TimerFires(s) => DoTimer(r, s)
    case DrainFires(s, buffered, failing) => DoDrain(o, r, s, buffered, failing)
    case BeginClose(s) => SafeClose(r, s)
    case CloseEvent(s) => DoClose(r, s)
    case PollStart => if r.poll.Some? then r else r.(poll := Some(r.nodes))
    case PollDone(active) => DoPollDone(r, active)
  }

  function Run(o: TunnelOptions, events: seq<Event>): Relay
    decreases |events|
  {
    if events == [] then INITIAL
    else var n := |events| - 1; Step(o, Run(o, events[..n]), events[n])
  }
}
