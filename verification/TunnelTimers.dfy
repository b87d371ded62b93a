/** Over every run: whom the handshake and authorization timers threaten, and whom a revocation poll closes. */
module TunnelTimers {
  import opened Prelude
  import opened ForwardQueue
  import opened TunnelModel
  import opened TunnelPairing

  /** The peer has still to prove itself, or to be let in. */
  predicate Unsettled(p: Peer) {
    p.phase == Handshake || (p.role == ClientRole && p.phase == Authorizing)
  }

  /** A timer is armed only for the unsettled, and for all of them whose socket is open. */
  predicate TimerFits(p: Peer) {
    && (p.live && p.timer != Off ==> Unsettled(p))
    && (p.live && p.status == Open && Unsettled(p) ==> p.timer != Off)
  }

  /** The step leaves timer, role and phase of a peer alone, and opens nothing. */
  predicate SameTimer(p: Peer, p': Peer) {
    && p'.timer == p.timer && p'.role == p.role && p'.phase == p.phase
    && (p'.status == Open ==> p.status == Open) && (p'.live ==> p.live)
  }

  predicate FitsAfter(r: Relay, r': Relay, s: Sid) {
    r'.peers.Keys == r.peers.Keys && (s in r.peers && TimerFits(r.peers[s]) ==> TimerFits(r'.peers[s]))
  }

  predicate KeepsTimer(r: Relay, r': Relay, s: Sid) {
    r'.peers.Keys == r.peers.Keys && (s in r.peers ==> SameTimer(r.peers[s], r'.peers[s]))
  }

  lemma PutLinkKeepsTimer(r: Relay, s: Sid, l: Link, x: Sid)
    requires CanForward(r, s)
    ensures KeepsTimer(r, PutLink(r, s, l), x)
  {
  }

  lemma DropKeepsTimer(r: Relay, p: Peer, s: Sid, x: Sid)
    ensures KeepsTimer(r, DropClient(r, p, s), x)
  {
  }

  lemma BinaryKeepsTimer(o: TunnelOptions, r: Relay, s: Sid, f: Frame, buffered: nat, throws: bool, x: Sid)
    requires IsLive(r, s)
    ensures KeepsTimer(r, DoBinary(o, r, s, f, buffered, throws), x)
  {
    var p := r.peers[s];
    var r0 := r.(peers := r.peers[s := p.(received := p.received + [f])]);
    if p.phase == Paired && f.size <= o.maxFrameBytes {
      assert KeepsTimer(r, r0, x);
      DropKeepsTimer(r0, p, s, x);
      if CanForward(r0, s) {
        var l := Forward(o.queue, LinkOf(r0, s, buffered), f, throws).link;
        PutLinkKeepsTimer(r0, s, l, x);
        DropKeepsTimer(PutLink(r0, s, l), p, s, x);
      }
    }
  }

  lemma DrainKeepsTimer(o: TunnelOptions, r: Relay, s: Sid, buffered: nat, failing: nat, x: Sid)
    ensures KeepsTimer(r, DoDrain(o, r, s, buffered, failing), x)
  {
    if CanForward(r, s) { PutLinkKeepsTimer(r, s, Drain(o.queue, LinkOf(r, s, buffered), failing).link, x); }
  }

  lemma PairFits(r: Relay, n: Sid, c: Sid, x: Sid)
    requires IsLive(r, n) && IsLive(r, c) && n != c && r.peers[n].role == NodeRole && r.peers[n].phase == Ready
    requires r.peers[c].role == ClientRole
    ensures FitsAfter(r, Pair(r, n, c), x)
  {
  }

  lemma AnsweredFits(r: Relay, n: Sid, rid: Rid, allow: bool, x: Sid)
    requires IsLive(r, n) && r.peers[n].role == NodeRole && r.peers[n].phase == Authorizing
    ensures FitsAfter(r, Answered(r, n, rid, allow), x)
  {
    var p := r.peers[n];
    if p.pending.Some? && p.pending.value.rid == rid {
      var c := p.pending.value.client;
      var r0 := r.(peers := r.peers[n := p.(pending := None, phase := Ready)]);
      assert FitsAfter(r, r0, x);
      if IsLive(r0, c) && r0.peers[c].role == ClientRole { PairFits(r0, n, c, x); }
    }
  }

  lemma RequestFits(r: Relay, c: Sid, id: NodeId, rid: Rid, x: Sid)
    requires IsLive(r, c) && r.peers[c].role == ClientRole
    ensures FitsAfter(r, RequestPairing(r, c, id, rid), x)
  {
  }

  lemma TextFits(r: Relay, s: Sid, text: Text, x: Sid)
    requires IsLive(r, s)
    ensures FitsAfter(r, DoText(r, s, text), x)
  {
    var p := r.peers[s];
    var r0 := r.(peers := r.peers[s := p.(processing := true)]);
    assert FitsAfter(r, r0, x);
    if p.role == NodeRole && p.phase == Authorizing && text.AuthorizeResult? {
      AnsweredFits(r0, s, text.answered, text.allow, x);
    } else if p.role == ClientRole && text.ClientAuth? {
      RequestFits(r0, s, text.target, text.rid, x);
    }
  }

  lemma LookupFits(o: TunnelOptions, r: Relay, s: Sid, result: LookupResult, x: Sid)
    requires PairingInv(o, r)
    ensures FitsAfter(r, LookupResumed(r, s, result), x)
  {
    if s in r.peers { assert PeerOk(o, r, s); }
  }

  /** A record whose timer is off and whose socket is closing fits, whatever else it says. */
  lemma ShutFits(r: Relay, s: Sid, p: Peer, x: Sid)
    requires s in r.peers && p.timer == Off && p.status != Open
    ensures FitsAfter(r, r.(peers := r.peers[s := p]), x)
  {
  }

  /** A settled node may become ready again. */
  lemma ReadyFits(r: Relay, n: Sid, p: Peer, x: Sid)
    requires n in r.peers && r.peers[n].role == NodeRole && (r.peers[n].live ==> r.peers[n].phase != Handshake)
    requires p.role == NodeRole && p.timer == r.peers[n].timer && p.live == r.peers[n].live && p.phase == Ready
    ensures FitsAfter(r, r.(peers := r.peers[n := p]), x)
  {
  }

  lemma TimerFitsAfter(o: TunnelOptions, r: Relay, s: Sid, x: Sid)
    requires PairingInv(o, r)
    ensures FitsAfter(r, DoTimer(r, s), x)
  {
    if s in r.peers && r.peers[s].timer != Off {
      assert PeerOk(o, r, s);
      var p := r.peers[s];
      if Withdraws(r, s) {
        var n := p.timer.node;
        assert PeerOk(o, r, n);
        var r1 := r.(peers := r.peers[n := r.peers[n].(pending := None, phase := Ready)]);
        ReadyFits(r, n, r1.peers[n], x);
        ShutFits(r1, s, Shut(p.(timer := Off, node := None)), x);
      } else {
        ShutFits(r, s, Shut(p.(timer := Off)), x);
        assert DoTimer(r, s) == r.(peers := r.peers[s := Shut(p.(timer := Off))]);
      }
    }
  }

  lemma CloseFits(o: TunnelOptions, r: Relay, s: Sid, x: Sid)
    requires PairingInv(o, r)
    ensures FitsAfter(r, DoClose(r, s), x)
  {
    if IsLive(r, s) {
      assert PeerOk(o, r, s);
      var p := r.peers[s];
      var r0 := r.(peers := r.peers[s := ClosedPeer(p)]);
      ShutFits(r, s, ClosedPeer(p), x);
      if p.role == ClientRole {
        if p.node.Some? && IsLive(r0, p.node.value) && r0.peers[p.node.value].role == NodeRole {
          var n := p.node.value;
          assert PeerOk(o, r, n);
          if ClientLeft(r0.peers[n], s) != r0.peers[n] { ReadyFits(r0, n, ClientLeft(r0.peers[n], s), x); }
        }
      } else {
        var r1 := if p.client.Some? then SafeClose(r0, p.client.value) else r0;
        var r2 := if p.pending.Some? then SafeClose(r1, p.pending.value.client) else r1;
        assert FitsAfter(r0, r1, x) && FitsAfter(r1, r2, x);
        assert DoClose(r, s).peers == r2.peers;
      }
    }
  }

  lemma StepFits(o: TunnelOptions, r: Relay, e: Event, x: Sid)
    requires PairingInv(o, r) && (x in r.peers ==> TimerFits(r.peers[x]))
    ensures x in Step(o, r, e).peers ==> TimerFits(Step(o, r, e).peers[x])
  {
    match e
    case TextMessage(s, text) => if IsLive(r, s) { TextFits(r, s, text, x); }
    case BinaryMessage(s, f, buffered, throws) =>
      if IsLive(r, s) { BinaryKeepsTimer(o, r, s, f, buffered, throws, x); }
    case LookupDone(s, result) => LookupFits(o, r, s, result, x);
    case TimerFires(s) => TimerFitsAfter(o, r, s, x);
    case DrainFires(s, buffered, failing) => DrainKeepsTimer(o, r, s, buffered, failing, x);
    case CloseEvent(s) => CloseFits(o, r, s, x);
    case _ =>
  }

  /**
   Over every run, an open socket has its timer armed exactly while it is in its handshake or, as a client, waits
   to be let in: nobody can linger there for ever, and no timer can hit a registered node or a paired client.
   */
  lemma {:induction false} TimerArmedExactlyWhileUnsettled(o: TunnelOptions, events: seq<Event>, s: Sid)
    requires s in Run(o, events).peers
    ensures var p := Run(o, events).peers[s];
      && (p.live && p.status == Open ==> (p.timer != Off <==> Unsettled(p)))
      && (p.live && p.timer != Off ==> Unsettled(p))
    decreases |events|
  {
    var n := |events| - 1;
    var r := Run(o, events[..n]);
    PairingHoldsOnEveryRun(o, events[..n]);
    if s in r.peers { TimerArmedExactlyWhileUnsettled(o, events[..n], s); }
    StepFits(o, r, events[n], s);
  }

  // ----- revocation -----

  lemma TextKeepsPoll(r: Relay, s: Sid, text: Text)
    requires IsLive(r, s)
    ensures DoText(r, s, text).poll == r.poll
  {
  }

  lemma StepKeepsPoll(o: TunnelOptions, r: Relay, e: Event)
    requires r.poll.Some? && !e.PollDone?
    ensures Step(o, r, e).poll == r.poll
  {
    if e.TextMessage? && IsLive(r, e.s) { TextKeepsPoll(r, e.s, e.text); }
  }

  /** From the start of a poll to its end, the snapshot is the registry as it was at the start. */
  lemma {:induction false} SnapshotStays(o: TunnelOptions, events: seq<Event>, k: nat)
    requires k < |events| && events[k] == PollStart && Run(o, events[..k]).poll.None?
    requires forall i :: k < i < |events| ==> !events[i].PollDone?
    ensures Run(o, events).poll == Some(Run(o, events[..k]).nodes)
    decreases |events|
  {
    var n := |events| - 1;
    if k < n {
      assert events[..n][..k] == events[..k];
      SnapshotStays(o, events[..n], k);
      StepKeepsPoll(o, Run(o, events[..n]), events[n]);
    }
  }

  /** The registry names socket s under some id that has not been found active. */
  ghost predicate Inactive(nodes: map<NodeId, Sid>, active: Option<set<NodeId>>, id: NodeId, s: Sid) {
    id in nodes && nodes[id] == s && (active.None? || id !in active.value)
  }

  /**
   When a poll ends, it closes exactly the open sockets that were registered when it began, are registered under
   the same id still, and whose id is not active; all of those when the query has failed. Nothing else changes.
   */
  lemma PollClosesExactly(o: TunnelOptions, events: seq<Event>, k: nat, active: Option<set<NodeId>>)
    requires k < |events| && events[k] == PollStart && Run(o, events[..k]).poll.None?
    requires forall i :: k < i < |events| ==> !events[i].PollDone?
    ensures var start, r := Run(o, events[..k]).nodes, Run(o, events);
      var r' := Step(o, r, PollDone(active));
      && r'.peers.Keys == r.peers.Keys && r'.nodes == r.nodes && r'.poll == None
      && forall s :: s in r.peers ==>
           var revoked := exists id :: Inactive(start, active, id, s) && Inactive(r.nodes, active, id, s);
           r'.peers[s] == if revoked && r.peers[s].status == Open then r.peers[s].(status := Closing) else r.peers[s]
  {
    SnapshotStays(o, events, k);
    var start, r := Run(o, events[..k]).nodes, Run(o, events);
    forall s | s in r.peers
      ensures Revoked(r, start, active, s)
          <==> exists id :: Inactive(start, active, id, s) && Inactive(r.nodes, active, id, s)
    {
      if Revoked(r, start, active, s) {
        var id :| id in start && start[id] == s && id in r.nodes && r.nodes[id] == s
                  && (active.None? || id !in active.value);
        assert Inactive(start, active, id, s) && Inactive(r.nodes, active, id, s);
      }
      if id :| Inactive(start, active, id, s) && Inactive(r.nodes, active, id, s) {
        assert Revoked(r, start, active, s);
      }
    }
  }
}
