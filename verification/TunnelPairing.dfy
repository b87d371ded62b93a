/**
 The pairing invariant: the two maps and the cross-references between node and client records agree
 in every reachable state of every interleaving.
 */
module TunnelPairing {
  import opened Prelude
  import opened ForwardQueue
  import opened TunnelModel

  /** What the record of a node says, whether or not its socket is still live. */
  ghost predicate NodeOk(o: TunnelOptions, r: Relay, n: Sid)
    requires n in r.peers
  {
    var p := r.peers[n];
    && p.node.None?
    && !p.timer.AuthorizationTimer?
    && (p.client.Some? ==> p.client.value in r.peers && r.peers[p.client.value].role == ClientRole)
    && (p.live ==>
      && (p.phase == Handshake <==> p.nodeId.None?)
      && (p.nodeId.Some? ==> p.nodeId.value in r.nodes && r.nodes[p.nodeId.value] == n)
      && (p.phase == Authorizing <==> p.pending.Some?)
      && (p.phase == Paired <==> p.client.Some?)
      && (p.client.Some? <==> p.queue.Some?)
      && (p.pending.Some? ==> PendingOk(r, n))
      && (p.client.Some? ==> IsLive(r, p.client.value)
                             && r.peers[p.client.value].phase == Paired
                             && r.peers[p.client.value].node == Some(n)))
  }

  ghost predicate PendingOk(r: Relay, n: Sid)
    requires n in r.peers && r.peers[n].pending.Some?
  {
    var Pending(rid, c) := r.peers[n].pending.value;
    && IsLive(r, c)
    && r.peers[c].role == ClientRole
    && r.peers[c].phase == Authorizing
    && r.peers[c].node == Some(n)
    && r.peers[c].timer == AuthorizationTimer(rid, n)
  }

  ghost predicate ClientOk(o: TunnelOptions, r: Relay, c: Sid)
    requires c in r.peers
  {
    var p := r.peers[c];
    && p.client.None? && p.pending.None? && p.lookup.None?
    && p.phase != Ready
    && (p.node.Some? ==> p.node.value in r.peers && r.peers[p.node.value].role == NodeRole)
    && (p.queue.Some? <==> p.phase == Paired)
    && (p.phase == Paired ==> p.node.Some?)
    && (p.timer.AuthorizationTimer? ==>
      p.timer.rid in r.requests && r.requests[p.timer.rid] == c && p.timer.node in r.peers
        && r.peers[p.timer.node].role == NodeRole)
    && (p.live && p.phase == Paired && IsLive(r, p.node.value) ==> r.peers[p.node.value].client == Some(c))
  }

  ghost predicate PeerOk(o: TunnelOptions, r: Relay, s: Sid)
    requires s in r.peers
  {
    var p := r.peers[s];
    && (p.live <==> p.status != Closed)
    && (p.queue.Some? ==> QueueOk(o.queue, p.queue.value))
    && (!p.live && p.queue.Some? ==> p.queue.value == EMPTY_QUEUE)
    && (p.role == NodeRole ==> NodeOk(o, r, s))
    && (p.role == ClientRole ==> ClientOk(o, r, s))
  }

  /** Every registered id names one live node socket that carries the id. */
  ghost predicate RegistryOk(r: Relay) {
    forall id :: id in r.nodes ==>
      IsLive(r, r.nodes[id]) && r.peers[r.nodes[id]].role == NodeRole && r.peers[r.nodes[id]].nodeId == Some(id)
  }

  ghost predicate PairingInv(o: TunnelOptions, r: Relay) {
    && RegistryOk(r)
    && forall s {:trigger PeerOk(o, r, s)} :: s in r.peers ==> PeerOk(o, r, s)
  }

  /** Two records that agree on everything the pairing depends on. */
  ghost predicate SameShape(o: TunnelOptions, a: Peer, b: Peer) {
    && a.role == b.role && a.live == b.live && a.phase == b.phase && a.timer == b.timer
    && a.nodeId == b.nodeId && a.client == b.client && a.pending == b.pending && a.node == b.node
    && (a.status == Closed <==> b.status == Closed)
    && (b.role == ClientRole ==> a.lookup == b.lookup)
    && (a.queue == b.queue
        || (a.queue.Some? && b.queue.Some? && QueueOk(o.queue, b.queue.value)
          && (a.live || b.queue.value == EMPTY_QUEUE)))
  }

  /** Steps that only write, log, or start closing a socket leave the pairing alone. */
  lemma SameShapeKeeps(o: TunnelOptions, r: Relay, r': Relay)
    requires PairingInv(o, r)
    requires r'.peers.Keys == r.peers.Keys && r'.nodes == r.nodes && r'.requests == r.requests
    requires forall s {:trigger r'.peers[s]} :: s in r.peers ==> SameShape(o, r.peers[s], r'.peers[s])
    ensures PairingInv(o, r')
  {
    forall s | s in r'.peers
      ensures PeerOk(o, r', s)
    {
      assert PeerOk(o, r, s);
    }
  }

  lemma SafeCloseKeeps(o: TunnelOptions, r: Relay, s: Sid)
    requires PairingInv(o, r)
    ensures PairingInv(o, SafeClose(r, s))
  {
    SameShapeKeeps(o, r, SafeClose(r, s));
  }

  lemma PutLinkKeeps(o: TunnelOptions, r: Relay, s: Sid, l: Link)
    requires PairingInv(o, r) && CanForward(r, s) && QueueOk(o.queue, l.queue)
    requires r.peers[s].live || l.queue == EMPTY_QUEUE
    ensures PairingInv(o, PutLink(r, s, l))
  {
    assert PeerOk(o, r, s);
    SameShapeKeeps(o, r, PutLink(r, s, l));
  }

  /** The queue functions keep what holds of a queue between callbacks. */
  lemma ForwardKeepsQueue(o: Options, l: Link, f: Frame, throws: bool)
    requires QueueOk(o, l.queue)
    ensures QueueOk(o, Forward(o, l, f, throws).link.queue)
  {
    AccountedSnoc(l.queue.frames, f);
  }

  lemma {:induction false} DrainLoopKeepsQueue(o: Options, l: Link, failing: nat)
    requires l.target.open && l.queue.accounted == Accounted(l.queue.frames) && |l.queue.frames| <= o.maxQueuedFrames
    ensures var q := DrainLoop(o, l, failing).link.queue;
      q.accounted == Accounted(q.frames) && |q.frames| <= o.maxQueuedFrames
    decreases |l.queue.frames|
  {
    if l.queue.frames != [] && l.target.buffered < o.highWaterBytes && failing > 0 {
      var f := l.queue.frames[0];
      var rest := l.queue.(frames := l.queue.frames[1..], accounted := l.queue.accounted - AccountedFrame(f));
      DrainLoopKeepsQueue(o, Send(l.(queue := rest), f, false).0, failing - 1);
    }
  }

  lemma DrainKeepsQueue(o: Options, l: Link, failing: nat)
    requires QueueOk(o, l.queue)
    ensures QueueOk(o, Drain(o, l, failing).link.queue)
    ensures l.queue == EMPTY_QUEUE ==> Drain(o, l, failing).link.queue == EMPTY_QUEUE
  {
    if l.target.open {
      DrainLoopKeepsQueue(o, l.(queue := l.queue.(timerArmed := false)), failing);
    }
  }

  lemma BinaryKeeps(o: TunnelOptions, r: Relay, s: Sid, f: Frame, buffered: nat, throws: bool)
    requires PairingInv(o, r) && IsLive(r, s)
    ensures PairingInv(o, DoBinary(o, r, s, f, buffered, throws))
  {
    var p := r.peers[s];
    if p.phase == Paired {
      var r0 := r.(peers := r.peers[s := p.(received := p.received + [f])]);
      SameShapeKeeps(o, r, r0);
      if f.size > o.maxFrameBytes {
        SafeCloseKeeps(o, r0, s);
      } else if !CanForward(r0, s) {
        DropClientKeeps(o, r0, p, s);
      } else {
        assert PeerOk(o, r0, s);
        var fw := Forward(o.queue, LinkOf(r0, s, buffered), f, throws);
        ForwardKeepsQueue(o.queue, LinkOf(r0, s, buffered), f, throws);
        PutLinkKeeps(o, r0, s, fw.link);
        DropClientKeeps(o, PutLink(r0, s, fw.link), p, s);
      }
    } else {
      SafeCloseKeeps(o, r, s);
    }
  }

  lemma DropClientKeeps(o: TunnelOptions, r: Relay, p: Peer, s: Sid)
    requires PairingInv(o, r)
    ensures PairingInv(o, DropClient(r, p, s))
  {
    SafeCloseKeeps(o, r, s);
    if p.client.Some? {
      SafeCloseKeeps(o, r, p.client.value);
    }
  }

  lemma DrainKeeps(o: TunnelOptions, r: Relay, s: Sid, buffered: nat, failing: nat)
    requires PairingInv(o, r)
    ensures PairingInv(o, DoDrain(o, r, s, buffered, failing))
  {
    if CanForward(r, s) && r.peers[s].queue.value.timerArmed {
      assert PeerOk(o, r, s);
      DrainKeepsQueue(o.queue, LinkOf(r, s, buffered), failing);
      PutLinkKeeps(o, r, s, Drain(o.queue, LinkOf(r, s, buffered), failing).link);
    }
  }

  lemma AcceptKeeps(o: TunnelOptions, r: Relay, s: Sid, role: Role)
    requires PairingInv(o, r)
    ensures PairingInv(o, DoAccept(r, s, role))
  {
    var r' := DoAccept(r, s, role);
    forall x | x in r'.peers
      ensures PeerOk(o, r', x)
    {
      assert x in r.peers ==> PeerOk(o, r, x);
    }
  }

  /** The lookup of a node in its handshake finds its id free: the node is registered under it. */
  ghost function Registered(r: Relay, s: Sid, id: NodeId): Relay
    requires s in r.peers
  {
    r.(peers := r.peers[s := r.peers[s].(timer := Off, nodeId := Some(id), phase := Ready)], nodes := r.nodes[id := s])
  }

  lemma RegisterKeeps(o: TunnelOptions, r: Relay, s: Sid, id: NodeId)
    requires PairingInv(o, r) && IsLive(r, s) && id !in r.nodes
    requires r.peers[s].role == NodeRole && r.peers[s].phase == Handshake
    ensures PairingInv(o, Registered(r, s, id))
  {
    var r' := Registered(r, s, id);
    assert PeerOk(o, r, s);
    forall x | x in r'.peers
      ensures PeerOk(o, r', x)
    {
      assert PeerOk(o, r, x);
    }
  }

  lemma LookupKeeps(o: TunnelOptions, r: Relay, s: Sid, result: LookupResult)
    requires PairingInv(o, r)
    ensures PairingInv(o, LookupResumed(r, s, result))
  {
    if s in r.peers && r.peers[s].lookup.Some? {
      assert PeerOk(o, r, s);
      var id := r.peers[s].lookup.value;
      var r0 := r.(peers := r.peers[s := r.peers[s].(lookup := None)]);
      SameShapeKeeps(o, r, r0);
      if LookupResumed(r, s, result) == SafeClose(r0, s) {
        SafeCloseKeeps(o, r0, s);
      } else if LookupResumed(r, s, result) != r0 {
        RegisterKeeps(o, r0, s, id);
        SameShapeKeeps(o, Registered(r0, s, id), LookupResumed(r, s, result));
      }
    }
  }

  /** Nobody is waiting for an answer about client `c`. */
  ghost predicate NotPending(r: Relay, c: Sid) {
    forall m :: m in r.peers && r.peers[m].live && r.peers[m].pending.Some? ==> r.peers[m].pending.value.client != c
  }

  lemma ClearTimerKeeps(o: TunnelOptions, r: Relay, c: Sid)
    requires PairingInv(o, r) && c in r.peers && NotPending(r, c)
    ensures PairingInv(o, r.(peers := r.peers[c := r.peers[c].(timer := Off)]))
  {
    var r' := r.(peers := r.peers[c := r.peers[c].(timer := Off)]);
    forall x | x in r'.peers
      ensures PeerOk(o, r', x)
    {
      assert PeerOk(o, r, x);
    }
  }

  /** Node `n` and client `c` become each other's partner. */
  ghost function Linked(r: Relay, n: Sid, c: Sid): Relay
    requires n in r.peers && c in r.peers
  {
    r.(peers := r.peers[c := r.peers[c].(phase := Paired, node := Some(n), queue := Some(EMPTY_QUEUE))]
                       [n := r.peers[n].(phase := Paired, client := Some(c), queue := Some(EMPTY_QUEUE))])
  }

  ghost predicate CanLink(o: TunnelOptions, r: Relay, n: Sid, c: Sid) {
    && PairingInv(o, r) && IsLive(r, n) && IsLive(r, c) && NotPending(r, c)
    && r.peers[n].role == NodeRole && r.peers[n].phase == Ready
    && r.peers[c].role == ClientRole && r.peers[c].phase == Authorizing
  }

  lemma LinkedPartner(o: TunnelOptions, r: Relay, n: Sid, c: Sid, x: Sid)
    requires CanLink(o, r, n, c) && x in {n, c}
    ensures PeerOk(o, Linked(r, n, c), x)
  {
    assert PeerOk(o, r, x);
  }

  lemma LinkedOther(o: TunnelOptions, r: Relay, n: Sid, c: Sid, x: Sid)
    requires CanLink(o, r, n, c) && x in r.peers && x !in {n, c}
    ensures PeerOk(o, Linked(r, n, c), x)
  {
    assert PeerOk(o, r, x) && PeerOk(o, r, n) && PeerOk(o, r, c);
  }

  lemma LinkPairKeeps(o: TunnelOptions, r: Relay, n: Sid, c: Sid)
    requires CanLink(o, r, n, c)
    ensures PairingInv(o, Linked(r, n, c))
  {
    forall x | x in r.peers
      ensures PeerOk(o, Linked(r, n, c), x)
    {
      if x in {n, c} { LinkedPartner(o, r, n, c, x); } else { LinkedOther(o, r, n, c, x); }
    }
  }

  lemma PairKeeps(o: TunnelOptions, r: Relay, n: Sid, c: Sid)
    requires PairingInv(o, r) && IsLive(r, n) && IsLive(r, c) && NotPending(r, c)
    requires r.peers[n].role == NodeRole && r.peers[n].phase == Ready
    requires r.peers[c].role == ClientRole && r.peers[c].phase == Authorizing
    ensures PairingInv(o, Pair(r, n, c))
  {
    ClearTimerKeeps(o, r, c);
    var r0 := r.(peers := r.peers[c := r.peers[c].(timer := Off)]);
    if r0.peers[n].status != Open || r0.peers[c].status != Open {
      SameShapeKeeps(o, r0, Pair(r, n, c));
    } else {
      LinkPairKeeps(o, r0, n, c);
      SameShapeKeeps(o, Linked(r0, n, c), Pair(r, n, c));
    }
  }

  /** A live node forgets its pending request. */
  lemma WithdrawnKeeps(o: TunnelOptions, r: Relay, n: Sid)
    requires PairingInv(o, r) && IsLive(r, n) && r.peers[n].role == NodeRole && r.peers[n].phase == Authorizing
    ensures PairingInv(o, r.(peers := r.peers[n := r.peers[n].(pending := None, phase := Ready)]))
  {
    var r0 := r.(peers := r.peers[n := r.peers[n].(pending := None, phase := Ready)]);
    assert PeerOk(o, r, n);
    forall x | x in r0.peers
      ensures PeerOk(o, r0, x)
    {
      assert PeerOk(o, r, x);
    }
  }

  lemma AnsweredKeeps(o: TunnelOptions, r: Relay, n: Sid, rid: Rid, allow: bool)
    requires PairingInv(o, r) && IsLive(r, n) && r.peers[n].role == NodeRole && r.peers[n].phase == Authorizing
    ensures PairingInv(o, Answered(r, n, rid, allow))
  {
    var p := r.peers[n];
    assert PeerOk(o, r, n);
    if p.pending.value.rid == rid {
      var c := p.pending.value.client;
      var r0 := r.(peers := r.peers[n := p.(pending := None, phase := Ready)]);
      WithdrawnKeeps(o, r, n);
      if allow {
        assert NotPending(r0, c) by {
          forall m | m in r0.peers && r0.peers[m].live && r0.peers[m].pending.Some?
            ensures r0.peers[m].pending.value.client != c
          {
            assert PeerOk(o, r, m);
          }
        }
        PairKeeps(o, r0, n, c);
      } else {
        SafeCloseKeeps(o, r0, c);
      }
    }
  }

  ghost predicate CanRequest(o: TunnelOptions, r: Relay, c: Sid, id: NodeId, rid: Rid) {
    && PairingInv(o, r) && IsLive(r, c)
    && r.peers[c].role == ClientRole && r.peers[c].phase == Handshake && rid !in r.requests
    && NodeAvailable(r, id)
  }

  lemma RequestPartner(o: TunnelOptions, r: Relay, c: Sid, id: NodeId, rid: Rid, x: Sid)
    requires CanRequest(o, r, c, id, rid) && x in {c, r.nodes[id]}
    ensures PeerOk(o, RequestPairing(r, c, id, rid), x)
  {
    assert PeerOk(o, r, c) && PeerOk(o, r, r.nodes[id]);
  }

  lemma RequestOther(o: TunnelOptions, r: Relay, c: Sid, id: NodeId, rid: Rid, x: Sid)
    requires CanRequest(o, r, c, id, rid) && x in r.peers && x !in {c, r.nodes[id]}
    ensures PeerOk(o, RequestPairing(r, c, id, rid), x)
  {
    assert PeerOk(o, r, x) && PeerOk(o, r, c) && PeerOk(o, r, r.nodes[id]);
  }

  lemma RequestKeeps(o: TunnelOptions, r: Relay, c: Sid, id: NodeId, rid: Rid)
    requires PairingInv(o, r) && IsLive(r, c)
    requires r.peers[c].role == ClientRole && r.peers[c].phase == Handshake && rid !in r.requests
    ensures PairingInv(o, RequestPairing(r, c, id, rid))
  {
    if NodeAvailable(r, id) {
      var r' := RequestPairing(r, c, id, rid);
      assert PeerOk(o, r, c) && PeerOk(o, r, r.nodes[id]);
      forall x | x in r.peers
        ensures PeerOk(o, r', x)
      {
        if x in {c, r.nodes[id]} { RequestPartner(o, r, c, id, rid, x); } else { RequestOther(o, r, c, id, rid, x); }
      }
    } else {
      SafeCloseKeeps(o, r, c);
    }
  }

  lemma {:induction false} TextKeeps(o: TunnelOptions, r: Relay, s: Sid, text: Text)
    requires PairingInv(o, r) && IsLive(r, s)
    requires text.ClientAuth? ==> text.rid !in r.requests
    ensures PairingInv(o, DoText(r, s, text))
  {
    var p := r.peers[s];
    if p.phase == Paired || p.processing || text.Oversized? {
      SafeCloseKeeps(o, r, s);
    } else {
      var r0 := r.(peers := r.peers[s := p.(processing := true)]);
      SameShapeKeeps(o, r, r0);
      SafeCloseKeeps(o, r0, s);
      if p.role == NodeRole {
        if p.phase == Handshake {
          if text.NodeAuth? {
            SameShapeKeeps(o, r, DoText(r, s, text));
          }
        } else if text.AuthorizeResult? && p.phase == Authorizing {
          AnsweredKeeps(o, r0, s, text.answered, text.allow);
        } else {
          assert PeerOk(o, r, s);
        }
      } else if p.phase == Handshake && text.ClientAuth? {
        RequestKeeps(o, r0, s, text.target, text.rid);
      }
    }
  }

  /** The authorization timer of `c` withdraws the request that node `n` still has pending. */
  ghost function Withdrawn(r: Relay, n: Sid, c: Sid): Relay
    requires n in r.peers && c in r.peers
  {
    r.(peers := r.peers[n := r.peers[n].(pending := None, phase := Ready)]
                       [c := r.peers[c].(timer := Off, node := None)])
  }

  ghost predicate CanWithdraw(o: TunnelOptions, r: Relay, n: Sid, c: Sid) {
    && PairingInv(o, r) && n in r.peers && r.peers[n].role == NodeRole
    && c in r.peers && r.peers[c].role == ClientRole && r.peers[c].phase == Authorizing
    && r.peers[n].pending.Some? && r.peers[c].timer == AuthorizationTimer(r.peers[n].pending.value.rid, n)
  }

  lemma WithdrawnPartner(o: TunnelOptions, r: Relay, n: Sid, c: Sid, x: Sid)
    requires CanWithdraw(o, r, n, c) && x in {n, c}
    ensures PeerOk(o, Withdrawn(r, n, c), x)
  {
    assert PeerOk(o, r, n) && PeerOk(o, r, c);
  }

  lemma WithdrawnOther(o: TunnelOptions, r: Relay, n: Sid, c: Sid, x: Sid)
    requires CanWithdraw(o, r, n, c) && x in r.peers && x !in {n, c}
    ensures PeerOk(o, Withdrawn(r, n, c), x)
  {
    assert PeerOk(o, r, x) && PeerOk(o, r, n) && PeerOk(o, r, c);
  }

  lemma WithdrawKeeps(o: TunnelOptions, r: Relay, n: Sid, c: Sid)
    requires CanWithdraw(o, r, n, c)
    ensures PairingInv(o, Withdrawn(r, n, c))
  {
    assert PeerOk(o, r, n);
    forall x | x in r.peers
      ensures PeerOk(o, Withdrawn(r, n, c), x)
    {
      if x in {n, c} { WithdrawnPartner(o, r, n, c, x); } else { WithdrawnOther(o, r, n, c, x); }
    }
  }

  /** The timer of `s` is an authorization timer whose request its node still has pending. */
  predicate Withdraws(r: Relay, s: Sid) {
    && s in r.peers && r.peers[s].timer.AuthorizationTimer? && r.peers[s].phase == Authorizing
    && var n := r.peers[s].timer.node;
       n in r.peers && r.peers[n].pending.Some? && r.peers[n].pending.value.rid == r.peers[s].timer.rid
  }

  /** Whatever timer `s` has, node `n` loses its pending request to it only when the request is for client `s`. */
  predicate WithdrawsOnlyOwn(r: Relay, s: Sid, n: Sid)
    requires n in r.peers && r.peers[n].pending.Some?
  {
    && n in DoTimer(r, s).peers
    && DoTimer(r, s).peers[n].pending == if r.peers[n].pending.value.client == s then None else r.peers[n].pending
  }

  /**
   A timer keeps the pairing invariant. It withdraws the pending request for its own client, every other
   request stays pending, and it touches no record but its own and that request's node.
   */
  lemma TimerKeeps(o: TunnelOptions, r: Relay, s: Sid)
    requires PairingInv(o, r)
    ensures PairingInv(o, DoTimer(r, s)) && DoTimer(r, s).peers.Keys == r.peers.Keys
    ensures forall n :: n in r.peers && r.peers[n].live && r.peers[n].pending.Some? ==> WithdrawsOnlyOwn(r, s, n)
    ensures forall x :: x in r.peers && x != s && !(Withdraws(r, s) && x == r.peers[s].timer.node) ==>
      DoTimer(r, s).peers[x] == r.peers[x]
  {
    if s in r.peers && r.peers[s].timer != Off {
      assert PeerOk(o, r, s);
      if Withdraws(r, s) { WithdrawTimerKeeps(o, r, s); } else { ExpiryKeeps(o, r, s); }
    }
    forall n | n in r.peers && r.peers[n].live && r.peers[n].pending.Some? ensures WithdrawsOnlyOwn(r, s, n) {
      TimerTouches(o, r, s, n);
    }
  }

  lemma WithdrawTimerKeeps(o: TunnelOptions, r: Relay, s: Sid)
    requires PairingInv(o, r) && Withdraws(r, s) && r.peers[s].role == ClientRole
    ensures PairingInv(o, DoTimer(r, s))
  {
    var n := r.peers[s].timer.node;
    assert PeerOk(o, r, s);
    WithdrawKeeps(o, r, n, s);
    SafeCloseKeeps(o, Withdrawn(r, n, s), s);
    assert DoTimer(r, s).peers == SafeClose(Withdrawn(r, n, s), s).peers;
  }

  lemma ExpiryKeeps(o: TunnelOptions, r: Relay, s: Sid)
    requires PairingInv(o, r) && s in r.peers && r.peers[s].timer != Off && !Withdraws(r, s)
    ensures PairingInv(o, DoTimer(r, s))
  {
    assert PeerOk(o, r, s);
    forall m | m in r.peers && r.peers[m].live && r.peers[m].pending.Some?
      ensures r.peers[m].pending.value.client != s
    {
      assert PeerOk(o, r, m);
    }
    ClearTimerKeeps(o, r, s);
    SafeCloseKeeps(o, r.(peers := r.peers[s := r.peers[s].(timer := Off)]), s);
  }

  /** What a timer does to a live node that has a request pending. */
  lemma TimerTouches(o: TunnelOptions, r: Relay, s: Sid, n: Sid)
    requires PairingInv(o, r) && n in r.peers && r.peers[n].live && r.peers[n].pending.Some?
    ensures WithdrawsOnlyOwn(r, s, n)
  {
    assert PeerOk(o, r, n) && PeerOk(o, r, r.peers[n].pending.value.client);
    if s in r.peers { assert PeerOk(o, r, s); }
  }

  /** A client closes that no live node refers to. */
  lemma CloseAloneKeeps(o: TunnelOptions, r: Relay, c: Sid)
    requires PairingInv(o, r) && IsLive(r, c) && r.peers[c].role == ClientRole && NotPending(r, c)
    requires r.peers[c].node.Some? && IsLive(r, r.peers[c].node.value) ==>
      r.peers[r.peers[c].node.value].client != Some(c)
    ensures PairingInv(o, r.(peers := r.peers[c := ClosedPeer(r.peers[c])]))
  {
    var r' := r.(peers := r.peers[c := ClosedPeer(r.peers[c])]);
    assert PeerOk(o, r, c);
    forall x | x in r'.peers
      ensures PeerOk(o, r', x)
    {
      assert PeerOk(o, r, x);
    }
  }

  lemma ClosePairedKeeps(o: TunnelOptions, r: Relay, c: Sid, n: Sid)
    requires PairingInv(o, r) && IsLive(r, c) && r.peers[c].role == ClientRole
    requires IsLive(r, n) && r.peers[n].role == NodeRole && r.peers[n].client == Some(c)
    ensures PairingInv(o, r.(peers := r.peers[c := ClosedPeer(r.peers[c])]
                                             [n := r.peers[n].(queue := None, client := None, phase := Ready)]))
  {
    var r' := r.(peers := r.peers[c := ClosedPeer(r.peers[c])]
                                 [n := r.peers[n].(queue := None, client := None, phase := Ready)]);
    assert PeerOk(o, r, c) && PeerOk(o, r, n);
    forall x | x in r'.peers
      ensures PeerOk(o, r', x)
    {
      assert PeerOk(o, r, x);
    }
  }

  lemma ClosePendingKeeps(o: TunnelOptions, r: Relay, c: Sid, n: Sid)
    requires PairingInv(o, r) && IsLive(r, c) && r.peers[c].role == ClientRole
    requires IsLive(r, n) && r.peers[n].role == NodeRole && r.peers[n].pending.Some?
    requires r.peers[n].pending.value.client == c
    ensures PairingInv(o,
      r.(peers := r.peers[c := ClosedPeer(r.peers[c])][n := r.peers[n].(pending := None, phase := Ready)]))
  {
    var r' := r.(peers := r.peers[c := ClosedPeer(r.peers[c])][n := r.peers[n].(pending := None, phase := Ready)]);
    assert PeerOk(o, r, c) && PeerOk(o, r, n);
    forall x | x in r'.peers
      ensures PeerOk(o, r', x)
    {
      assert PeerOk(o, r, x);
    }
  }

  lemma ClientCloseKeeps(o: TunnelOptions, r: Relay, c: Sid)
    requires PairingInv(o, r) && IsLive(r, c) && r.peers[c].role == ClientRole
    ensures PairingInv(o, DoClose(r, c))
  {
    var node := r.peers[c].node;
    assert PeerOk(o, r, c);
    if node.Some? && IsLive(r, node.value) {
      var n := node.value;
      assert PeerOk(o, r, n);
      if r.peers[n].client == Some(c) {
        ClosePairedKeeps(o, r, c, n);
        SameShapeKeeps(o, r.(peers := r.peers[c := ClosedPeer(r.peers[c])]
                                             [n := r.peers[n].(queue := None, client := None, phase := Ready)]),
                       DoClose(r, c));
        return;
      } else if r.peers[n].pending.Some? && r.peers[n].pending.value.client == c {
        ClosePendingKeeps(o, r, c, n);
        return;
      }
    }
    assert NotPending(r, c) by {
      forall m | m in r.peers && r.peers[m].live && r.peers[m].pending.Some?
        ensures r.peers[m].pending.value.client != c
      {
        assert PeerOk(o, r, m);
      }
    }
    CloseAloneKeeps(o, r, c);
    assert DoClose(r, c).peers == r.peers[c := ClosedPeer(r.peers[c])];
  }

  lemma NodeCloseKeeps(o: TunnelOptions, r: Relay, s: Sid)
    requires PairingInv(o, r) && IsLive(r, s) && r.peers[s].role == NodeRole
    ensures PairingInv(o, DoClose(r, s))
  {
    var p := r.peers[s];
    assert PeerOk(o, r, s);
    var p' := ClosedPeer(p);
    var nodes := if p.nodeId.Some? then r.nodes - {p.nodeId.value} else r.nodes;
    var r1 := r.(peers := r.peers[s := p'], nodes := nodes);
    forall x | x in r1.peers
      ensures PeerOk(o, r1, x)
    {
      assert PeerOk(o, r, x);
    }
    var r2 := if p.client.Some? then SafeClose(r1, p.client.value) else r1;
    if p.client.Some? { SafeCloseKeeps(o, r1, p.client.value); }
    if p.pending.Some? { SafeCloseKeeps(o, r2, p.pending.value.client); }
  }

  lemma {:induction false} StepKeepsPairing(o: TunnelOptions, r: Relay, e: Event)
    requires PairingInv(o, r)
    ensures PairingInv(o, Step(o, r, e))
  {
    match e
    case Accept(s, role) => AcceptKeeps(o, r, s, role);
    case TextMessage(s, text) =>
      if IsLive(r, s) && !(text.ClientAuth? && text.rid in r.requests) { TextKeeps(o, r, s, text); }
    case BinaryMessage(s, f, buffered, throws) => if IsLive(r, s) { BinaryKeeps(o, r, s, f, buffered, throws); }
    case LookupDone(s, result) => LookupKeeps(o, r, s, result);
    case TimerFires(s) => TimerKeeps(o, r, s);
    case DrainFires(s, buffered, failing) => DrainKeeps(o, r, s, buffered, failing);
    case BeginClose(s) => SafeCloseKeeps(o, r, s);
    case CloseEvent(s) =>
      if IsLive(r, s) {
        if r.peers[s].role == ClientRole { ClientCloseKeeps(o, r, s); } else { NodeCloseKeeps(o, r, s); }
      }
    case _ => SameShapeKeeps(o, r, Step(o, r, e));
  }

  /** The pairing invariant holds after any events in any order. */
  lemma {:induction false} PairingHoldsOnEveryRun(o: TunnelOptions, events: seq<Event>)
    ensures PairingInv(o, Run(o, events))
    decreases |events|
  {
    if events != [] {
      var n := |events| - 1;
      PairingHoldsOnEveryRun(o, events[..n]);
      StepKeepsPairing(o, Run(o, events[..n]), events[n]);
    }
  }
}
