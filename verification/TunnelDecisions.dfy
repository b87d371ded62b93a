/**
 What each turn of the relay decides: who is paired, asked, refused, closed or withdrawn, and that nobody else is
 touched. The laws name fields and messages only, never the functions that compute the step.
 */
module TunnelDecisions {
  import opened Prelude
  import opened ForwardQueue
  import QueueRuns
  import opened TunnelModel
  import opened TunnelOutput
  import opened TunnelPairing

  /** Every record but those of `touched` is the same as before. */
  ghost predicate OthersStay(r: Relay, r': Relay, touched: set<Sid>) {
    && r'.peers.Keys == r.peers.Keys
    && forall x {:trigger r'.peers[x]} :: x in r.peers && x !in touched ==> r'.peers[x] == r.peers[x]
  }

  /** Node n has asked about client c under `rid` and may answer. */
  ghost predicate Awaits(r: Relay, n: Sid, rid: Rid, c: Sid) {
    && IsLive(r, n) && r.peers[n].role == NodeRole && r.peers[n].phase == Authorizing && !r.peers[n].processing
    && r.peers[n].pending == Some(Pending(rid, c))
  }

  /**
   The node's answer decides. An allowing one, while both sockets are open, pairs the two and tells both; any
   other leaves the node ready and told nothing, and the client unpaired, told nothing and not open.
   */
  lemma AnswerDecides(o: TunnelOptions, r: Relay, n: Sid, rid: Rid, c: Sid, allow: bool)
    requires PairingInv(o, r) && Awaits(r, n, rid, c)
    ensures var r' := Step(o, r, TextMessage(n, AuthorizeResult(rid, allow)));
      && c in r.peers && OthersStay(r, r', {n, c}) && r'.nodes == r.nodes
      && r'.peers[n].status == r.peers[n].status && r'.peers[n].pending == None
      && if allow && r.peers[n].status == Open && r.peers[c].status == Open then
           && r'.peers[n].phase == Paired && r'.peers[n].client == Some(c)
           && r'.peers[n].out == r.peers[n].out + [ClientConnected(c)]
           && r'.peers[c].phase == Paired && r'.peers[c].node == Some(n) && r'.peers[c].timer == Off
           && r'.peers[c].out == r.peers[c].out + [ReadyNotice]
           && r'.peers[c].status == Open
         else
           && r'.peers[n].phase == Ready && r'.peers[n].client == None && r'.peers[n].out == r.peers[n].out
           && r'.peers[c].phase == Authorizing && r'.peers[c].queue == None
           && r'.peers[c].out == r.peers[c].out
           && r'.peers[c].status != Open
  {
    assert PeerOk(o, r, n) && PeerOk(o, r, c);
  }

  /** An answer to any other request, or when none is pending, decides nothing. */
  lemma StaleAnswerDecidesNothing(o: TunnelOptions, r: Relay, n: Sid, rid: Rid, allow: bool)
    requires PairingInv(o, r) && IsLive(r, n) && r.peers[n].role == NodeRole && !r.peers[n].processing
    requires r.peers[n].phase == Ready || (r.peers[n].phase == Authorizing && forall c :: !Awaits(r, n, rid, c))
    ensures Step(o, r, TextMessage(n, AuthorizeResult(rid, allow)))
         == r.(peers := r.peers[n := r.peers[n].(processing := true)])
  {
    assert PeerOk(o, r, n);
    if r.peers[n].pending.Some? { assert !Awaits(r, n, rid, r.peers[n].pending.value.client); }
  }

  /**
   A client's request goes to the node registered under the id it names, when that node is idle, and to nobody
   else; otherwise nobody is asked and the client is closed.
   */
  lemma RequestDecides(o: TunnelOptions, r: Relay, c: Sid, id: NodeId, rid: Rid)
    requires PairingInv(o, r) && rid !in r.requests
    requires IsLive(r, c) && r.peers[c].role == ClientRole && r.peers[c].phase == Handshake && !r.peers[c].processing
    ensures var r' := Step(o, r, TextMessage(c, ClientAuth(id, rid)));
      && r'.nodes == r.nodes && r'.peers.Keys == r.peers.Keys && r'.peers[c].out == r.peers[c].out
      && if id in r.nodes && r.peers[r.nodes[id]].phase == Ready then
           var n := r.nodes[id];
           && OthersStay(r, r', {n, c})
           && r'.peers[n].phase == Authorizing && r'.peers[n].pending == Some(Pending(rid, c))
           && r'.peers[n].status == r.peers[n].status
           && r'.peers[n].out == r.peers[n].out + (if r.peers[n].status == Open then [AuthorizeClient(rid)] else [])
           && r'.peers[c].phase == Authorizing && r'.peers[c].node == Some(n)
           && r'.peers[c].timer == AuthorizationTimer(rid, n)
           && r'.peers[c].status == r.peers[c].status
           && r'.requests == r.requests[rid := c]
         else
           && OthersStay(r, r', {c}) && r'.requests == r.requests
           && r'.peers[c].phase == Handshake && r'.peers[c].status != Open
  {
    assert PeerOk(o, r, c);
    if id in r.nodes { assert PeerOk(o, r, r.nodes[id]); }
  }

  /**
   A node is registered exactly when its device matches, it is still in its handshake on an open socket, and
   nobody has its id; every other result of the lookup leaves the registry alone, and closes a socket that it
   finds open.
   */
  lemma LookupDecides(o: TunnelOptions, r: Relay, s: Sid, id: NodeId, result: LookupResult)
    requires PairingInv(o, r) && s in r.peers && r.peers[s].lookup == Some(id)
    ensures var r' := Step(o, r, LookupDone(s, result));
      && OthersStay(r, r', {s}) && r'.peers[s].lookup == None
      && if result == DeviceMatches && r.peers[s].status == Open && r.peers[s].phase == Handshake && id !in r.nodes then
           && r'.nodes == r.nodes[id := s] && r'.peers[s].nodeId == Some(id)
           && r'.peers[s].phase == Ready && r'.peers[s].timer == Off && r'.peers[s].status == Open
           && r'.peers[s].out == r.peers[s].out + [ReadyNotice]
         else
           && r'.nodes == r.nodes && r'.peers[s].phase == r.peers[s].phase
           && r'.peers[s].out == r.peers[s].out
           && (r.peers[s].phase == Handshake ==> r'.peers[s].status != Open)
  {
    assert PeerOk(o, r, s);
  }

  /** The text messages the protocol foresees, by role and phase of the sender. */
  ghost predicate Foreseen(r: Relay, s: Sid, text: Text)
    requires s in r.peers
  {
    var p := r.peers[s];
    && !p.processing
    && match (p.role, p.phase)
       case (NodeRole, Handshake) => text.NodeAuth?
       case (NodeRole, Ready) => text.AuthorizeResult?
       case (NodeRole, Authorizing) => text.AuthorizeResult?
       case (ClientRole, Handshake) =>
         && text.ClientAuth? && text.target in r.nodes && IsLive(r, r.nodes[text.target])
         && r.peers[r.nodes[text.target]].phase == Ready
       case (_, _) => false
  }

  /** What a message that the protocol does not foresee does. */
  ghost predicate OnlyCloses(r: Relay, r': Relay, s: Sid) {
    && s in r.peers && OthersStay(r, r', {s}) && r'.nodes == r.nodes && r'.requests == r.requests
    && r'.peers[s].status != Open && r'.peers[s].out == r.peers[s].out && r'.peers[s].phase == r.peers[s].phase
  }

  lemma NodeTextRefused(o: TunnelOptions, r: Relay, s: Sid, text: Text)
    requires PairingInv(o, r) && IsLive(r, s) && r.peers[s].status == Open && r.peers[s].role == NodeRole
    requires text.ClientAuth? ==> text.rid !in r.requests
    ensures var r' := Step(o, r, TextMessage(s, text));
      if Foreseen(r, s, text) then s in r'.peers && r'.peers[s].status == Open && r'.peers[s].processing
      else OnlyCloses(r, r', s)
  {
    assert PeerOk(o, r, s);
    if text.AuthorizeResult? && r.peers[s].pending.Some? { assert PeerOk(o, r, r.peers[s].pending.value.client); }
  }

  lemma ClientTextRefused(o: TunnelOptions, r: Relay, s: Sid, text: Text)
    requires PairingInv(o, r) && IsLive(r, s) && r.peers[s].status == Open && r.peers[s].role == ClientRole
    requires text.ClientAuth? ==> text.rid !in r.requests
    ensures var r' := Step(o, r, TextMessage(s, text));
      if Foreseen(r, s, text) then s in r'.peers && r'.peers[s].status == Open && r'.peers[s].processing
      else OnlyCloses(r, r', s)
  {
    assert PeerOk(o, r, s);
    if text.ClientAuth? && text.target in r.nodes { assert PeerOk(o, r, r.nodes[text.target]); }
  }

  /**
   A text message closes its sender exactly when the protocol does not foresee it: while another is under way,
   once paired, of the wrong kind, or asking for a node that is not idle. Then it does nothing else at all.
   */
  lemma TextRefusedExactlyWhen(o: TunnelOptions, r: Relay, s: Sid, text: Text)
    requires PairingInv(o, r) && IsLive(r, s) && r.peers[s].status == Open
    requires text.ClientAuth? ==> text.rid !in r.requests
    ensures var r' := Step(o, r, TextMessage(s, text));
      if Foreseen(r, s, text) then s in r'.peers && r'.peers[s].status == Open && r'.peers[s].processing
      else OnlyCloses(r, r', s)
  {
    if r.peers[s].role == NodeRole {
      NodeTextRefused(o, r, s, text);
    } else {
      ClientTextRefused(o, r, s, text);
    }
  }

  /** A node's proof, when foreseen, starts one lookup of the id it claims, and changes nothing else. */
  lemma ProofStartsLookup(o: TunnelOptions, r: Relay, s: Sid, id: NodeId)
    requires IsLive(r, s) && r.peers[s].role == NodeRole && Foreseen(r, s, NodeAuth(id))
    ensures Step(o, r, TextMessage(s, NodeAuth(id)))
         == r.(peers := r.peers[s := r.peers[s].(processing := true, lookup := Some(id))])
  {
  }

  /** A sender's next message is judged anew once the last one has been dealt with, lookup included. */
  lemma SettleDecides(o: TunnelOptions, r: Relay, s: Sid)
    requires s in r.peers
    ensures Step(o, r, Settle(s)) ==
      if r.peers[s].lookup.Some? then r else r.(peers := r.peers[s := r.peers[s].(processing := false)])
  {
  }

  // ----- binary frames -----

  /** The queue lets the frame through or keeps it. */
  predicate Takes(o: TunnelOptions, r: Relay, s: Sid, f: Frame, buffered: nat, throws: bool) {
    CanForward(r, s) && Forward(o.queue, LinkOf(r, s, buffered), f, throws).accepted
  }

  /** A sender that is not paired: an idle node's frame is ignored, any other costs the sender its connection. */
  lemma UnpairedFrameDecides(o: TunnelOptions, r: Relay, s: Sid, f: Frame, buffered: nat, throws: bool)
    requires IsLive(r, s) && r.peers[s].phase != Paired
    ensures var p := r.peers[s]; var r' := Step(o, r, BinaryMessage(s, f, buffered, throws));
      if p.role == NodeRole && p.phase != Handshake then r' == r
      else OnlyCloses(r, r', s)
  {
  }

  /** What a frame costs: the sockets in `closed` are not open afterwards, and every other is as open as before. */
  ghost predicate Closes(r: Relay, r': Relay, closed: set<Sid>) {
    && r'.peers.Keys == r.peers.Keys && r'.nodes == r.nodes
    && forall x {:trigger r'.peers[x]} :: x in r.peers ==>
         if x in closed then r'.peers[x].status != Open else r'.peers[x].status == r.peers[x].status
  }

  lemma PutLinkClosesNobody(r: Relay, s: Sid, l: Link)
    requires CanForward(r, s)
    ensures Closes(r, PutLink(r, s, l), {})
  {
  }

  /** The relay once it has logged a frame of s. */
  function Logged(r: Relay, s: Sid, f: Frame): Relay
    requires s in r.peers
  {
    r.(peers := r.peers[s := r.peers[s].(received := r.peers[s].received + [f])])
  }

  /** The client of a pair, who pays for a frame that cannot be forwarded. */
  function Payer(r: Relay, s: Sid): Sid
    requires s in r.peers && (r.peers[s].role == NodeRole ==> r.peers[s].client.Some?)
  {
    if r.peers[s].role == ClientRole then s else r.peers[s].client.value
  }

  lemma PairedFrameStep(o: TunnelOptions, r: Relay, s: Sid, f: Frame, buffered: nat, throws: bool)
    requires PairingInv(o, r) && IsLive(r, s) && r.peers[s].phase == Paired && f.size <= o.maxFrameBytes
    ensures var r0 := Logged(r, s, f);
      && (r.peers[s].role == NodeRole ==> r.peers[s].client.Some? && r.peers[s].client.value != s)
      && CanForward(r0, s)
      && var fw := Forward(o.queue, LinkOf(r0, s, buffered), f, throws);
      && fw.accepted == Takes(o, r, s, f, buffered, throws)
      && var r1 := PutLink(r0, s, fw.link);
         Step(o, r, BinaryMessage(s, f, buffered, throws)) == if fw.accepted then r1 else SafeClose(r1, Payer(r, s))
  {
    assert PeerOk(o, r, s) && PeerOk(o, r, TargetOf(r.peers[s]).value);
  }

  /** A paired client's frame costs the client its connection exactly when it is too large or not taken. */
  lemma ClientFrameDecides(o: TunnelOptions, r: Relay, s: Sid, f: Frame, buffered: nat, throws: bool)
    requires PairingInv(o, r) && IsLive(r, s) && r.peers[s].phase == Paired && r.peers[s].role == ClientRole
    ensures Closes(r, Step(o, r, BinaryMessage(s, f, buffered, throws)),
                   if f.size <= o.maxFrameBytes && Takes(o, r, s, f, buffered, throws) then {} else {s})
  {
    if f.size <= o.maxFrameBytes {
      PairedFrameStep(o, r, s, f, buffered, throws);
      var l := Forward(o.queue, LinkOf(Logged(r, s, f), s, buffered), f, throws).link;
      PutLinkClosesNobody(Logged(r, s, f), s, l);
    }
  }

  /**
   A paired node's frame costs the node its connection exactly when it is too large. When the queue does not
   take it, the node's client pays, and the node stays.
   */
  lemma NodeFrameDecides(o: TunnelOptions, r: Relay, s: Sid, f: Frame, buffered: nat, throws: bool)
    requires PairingInv(o, r) && IsLive(r, s) && r.peers[s].phase == Paired && r.peers[s].role == NodeRole
    ensures r.peers[s].client.Some?
    ensures Closes(r, Step(o, r, BinaryMessage(s, f, buffered, throws)),
                   if f.size > o.maxFrameBytes then {s}
                   else if Takes(o, r, s, f, buffered, throws) then {} else {r.peers[s].client.value})
  {
    assert PeerOk(o, r, s);
    if f.size <= o.maxFrameBytes {
      PairedFrameStep(o, r, s, f, buffered, throws);
      var l := Forward(o.queue, LinkOf(Logged(r, s, f), s, buffered), f, throws).link;
      PutLinkClosesNobody(Logged(r, s, f), s, l);
    }
  }

  /** `sent` was written to t, behind what had been written before. */
  ghost predicate Written(r: Relay, r': Relay, t: Sid, sent: seq<Frame>)
    requires t in r.peers && t in r'.peers
  {
    r'.peers[t].out == r.peers[t].out + AsMessages(sent)
  }

  /** A frame that is taken is written to the partner or waits for it, behind all that waited before. */
  lemma FrameIsForwarded(o: TunnelOptions, r: Relay, s: Sid, f: Frame, buffered: nat, throws: bool)
    returns (sent: seq<Frame>)
    requires PairingInv(o, r) && IsLive(r, s) && r.peers[s].phase == Paired && f.size <= o.maxFrameBytes
    requires Takes(o, r, s, f, buffered, throws)
    ensures var t := TargetOf(r.peers[s]).value; var r' := Step(o, r, BinaryMessage(s, f, buffered, throws));
      && r'.peers.Keys == r.peers.Keys && Written(r, r', t, sent)
      && r'.peers[s].queue.Some?
      && sent + r'.peers[s].queue.value.frames == r.peers[s].queue.value.frames + [f]
  {
    assert PeerOk(o, r, s) && PeerOk(o, r, TargetOf(r.peers[s]).value);
    var l := LinkOf(r, s, buffered);
    assert LinkOf(Logged(r, s, f), s, buffered) == l;
    sent := Forward(o.queue, l, f, throws).link.target.sent;
    ForwardOrder(o.queue, l, f, throws);
  }

  /** A drain writes waiting frames to the partner in order; what it does not write waits on, but for one thrown. */
  lemma DrainIsForwarded(o: TunnelOptions, r: Relay, s: Sid, buffered: nat, failing: nat)
    returns (sent: seq<Frame>, lost: seq<Frame>)
    requires PairingInv(o, r) && CanForward(r, s) && r.peers[s].queue.value.timerArmed
    requires r.peers[TargetOf(r.peers[s]).value].status == Open
    ensures var t := TargetOf(r.peers[s]).value; var r' := Step(o, r, DrainFires(s, buffered, failing));
      && r'.peers.Keys == r.peers.Keys && Written(r, r', t, sent)
      && r'.peers[s].queue.Some?
      && sent + (lost + r'.peers[s].queue.value.frames) == r.peers[s].queue.value.frames
      && |lost| <= 1 && (failing >= |r.peers[s].queue.value.frames| ==> lost == [])
  {
    assert PeerOk(o, r, s);
    var l := LinkOf(r, s, buffered);
    var l0 := l.(queue := l.queue.(timerArmed := false));
    sent := Drain(o.queue, l, failing).link.target.sent;
    lost := DrainLoopSplits(o.queue, l0, failing);
    QueueRuns.DrainStopsForAReason(o.queue, l0, failing);
    assert l0.target.sent + l0.queue.frames == l.queue.frames;
  }

  // ----- timers, closing, polls -----

  /** A timer that is armed closes its own socket when it fires, and no other. */
  lemma TimerDecides(o: TunnelOptions, r: Relay, s: Sid)
    requires PairingInv(o, r) && s in r.peers && r.peers[s].timer != Off
    ensures var r' := Step(o, r, TimerFires(s));
      && r'.peers.Keys == r.peers.Keys && r'.peers[s].timer == Off
      && r'.peers[s].status != Open && r'.peers[s].out == r.peers[s].out
      && forall x :: x in r.peers && x != s ==>
           r'.peers[x].status == r.peers[x].status && r'.peers[x].out == r.peers[x].out
  {
    assert PeerOk(o, r, s);
  }

  /** A node's close frees its id and closes its client, or the client it was asked about, and nobody else. */
  lemma NodeCloseDecides(o: TunnelOptions, r: Relay, n: Sid)
    requires PairingInv(o, r) && IsLive(r, n) && r.peers[n].role == NodeRole
    ensures var p := r.peers[n]; var r' := Step(o, r, CloseEvent(n));
      && r'.peers.Keys == r.peers.Keys && !r'.peers[n].live && r'.peers[n].status == Closed
      && r'.nodes == (map id | id in r.nodes && r.nodes[id] != n :: r.nodes[id])
      && (forall c :: p.client == Some(c) || (p.pending.Some? && p.pending.value.client == c) ==>
            c in r'.peers && r'.peers[c].status != Open)
      && forall x :: x in r.peers && x != n && p.client != Some(x) && !(p.pending.Some? && p.pending.value.client == x)
           ==> r'.peers[x] == r.peers[x]
  {
    assert PeerOk(o, r, n);
    if r.peers[n].pending.Some? { assert PeerOk(o, r, r.peers[n].pending.value.client); }
  }

  /** What becomes of the record of another socket when client c closes. */
  ghost predicate ClientGone(r: Relay, r': Relay, c: Sid, n: Sid)
    requires n in r.peers && n in r'.peers
  {
    var p, p' := r.peers[n], r'.peers[n];
    if p.live && p.client == Some(c) then
      && p'.phase == Ready && p'.client == None && p'.queue == None && p'.status == p.status
      && p'.out == p.out + (if p.status == Open then [ClientDisconnected] else [])
    else if p.live && p.pending.Some? && p.pending.value.client == c then
      p' == p.(phase := Ready, pending := None)
    else p' == p
  }

  /**
   A client's close makes its node ready again, tells the node if the two were paired, and leaves every other
   record alone.
   */
  lemma ClientCloseDecides(o: TunnelOptions, r: Relay, c: Sid)
    requires PairingInv(o, r) && IsLive(r, c) && r.peers[c].role == ClientRole
    ensures var r' := Step(o, r, CloseEvent(c));
      && r'.peers.Keys == r.peers.Keys && r'.nodes == r.nodes
      && !r'.peers[c].live && r'.peers[c].status == Closed
      && forall n :: n in r.peers && n != c ==> ClientGone(r, r', c, n)
  {
    assert PeerOk(o, r, c);
    forall n | n in r.peers && n != c ensures ClientGone(r, Step(o, r, CloseEvent(c)), c, n) {
      ClientCloseTouches(o, r, c, n);
    }
  }

  lemma ClientCloseTouches(o: TunnelOptions, r: Relay, c: Sid, n: Sid)
    requires PairingInv(o, r) && IsLive(r, c) && r.peers[c].role == ClientRole && n in r.peers && n != c
    ensures n in Step(o, r, CloseEvent(c)).peers && ClientGone(r, Step(o, r, CloseEvent(c)), c, n)
  {
    assert PeerOk(o, r, c) && PeerOk(o, r, n);
  }
}
