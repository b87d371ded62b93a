/** The order in which a client of the node is handed its frames. */
module TunnelOrder {
  import opened Prelude
  import opened ForwardQueue
  import opened TunnelModel
  import opened TunnelPairing
  import opened TunnelOutput
  import opened TunnelIsolation
  import opened TunnelSafety
  import opened Subsequence

  /** The frames among the messages written to a socket. */
  ghost function Handed(out: seq<Msg>): seq<Frame>
    decreases |out|
  {
    if out == [] then []
    else var m := out[|out| - 1]; Handed(out[..|out| - 1]) + if m.Opaque? then [m.frame] else []
  }

  /** The frames that wait in the node's queue for this client. */
  ghost function Waiting(node: Peer, c: Sid): seq<Frame> {
    if node.client == Some(c) && node.queue.Some? then node.queue.value.frames else []
  }

  /** What client `c` was handed, followed by what waits for it, is a selection of what the relay got from `n`. */
  ghost predicate ClientOrder(r: Relay, n: Sid, c: Sid)
    requires n in r.peers && c in r.peers
  {
    r.peers[c].role == ClientRole && r.peers[c].node == Some(n) ==>
      IsSub(Handed(r.peers[c].out) + Waiting(r.peers[n], c), r.peers[n].received)
  }

  ghost predicate OrderInv(r: Relay, n: Sid) {
    n in r.peers ==> forall c {:trigger ClientOrder(r, n, c)} :: c in r.peers ==> ClientOrder(r, n, c)
  }

  lemma HandedSnoc(out: seq<Msg>, m: Msg)
    ensures Handed(out + [m]) == Handed(out) + if m.Opaque? then [m.frame] else []
  {
    assert (out + [m])[..|out|] == out;
  }

  lemma HandedNotice(out: seq<Msg>)
    ensures Handed(out + [ReadyNotice]) == Handed(out)
  {
    HandedSnoc(out, ReadyNotice);
  }

  lemma {:induction false} HandedFrames(out: seq<Msg>, frames: seq<Frame>)
    ensures Handed(out + AsMessages(frames)) == Handed(out) + frames
    decreases |frames|
  {
    if frames == [] {
      assert out + AsMessages(frames) == out;
    } else {
      var n := |frames| - 1;
      HandedFrames(out, frames[..n]);
      AsMessagesSnoc(out, frames);
      HandedSnoc(out + AsMessages(frames[..n]), Opaque(frames[n]));
      assert frames[..n] + [frames[n]] == frames;
    }
  }

  lemma {:induction false} NoneHanded(out: seq<Msg>)
    requires forall i :: 0 <= i < |out| ==> !out[i].Opaque?
    ensures Handed(out) == []
    decreases |out|
  {
    if out != [] { NoneHanded(out[..|out| - 1]); }
  }

  // ----- steps without frames of the node -----

  /** A client is handed no frame and does not turn to another node. */
  ghost predicate ClientStays(a: Peer, b: Peer) {
    && a.role == b.role
    && (a.role == ClientRole ==> Handed(b.out) == Handed(a.out) && (b.node == a.node || b.node.None?))
  }

  /** Nothing new waits in the node's queue, and the log of its frames is the same. */
  ghost predicate NodeStays(a: Peer, b: Peer) {
    && b.received == a.received
    && ((b.client == a.client && b.queue == a.queue) || b.queue.None? || b.queue.value.frames == [])
  }

  ghost predicate Stays(r: Relay, r': Relay, n: Sid) {
    && r'.peers.Keys == r.peers.Keys
    && (forall x {:trigger r'.peers[x]} :: x in r.peers ==> ClientStays(r.peers[x], r'.peers[x]))
    && (n in r.peers ==> NodeStays(r.peers[n], r'.peers[n]))
  }

  lemma StaysKeeps(r: Relay, r': Relay, n: Sid)
    requires OrderInv(r, n) && Stays(r, r', n)
    ensures OrderInv(r', n)
  {
    if n in r.peers {
      forall c | c in r'.peers ensures ClientOrder(r', n, c) {
        var a, b := r.peers[c], r'.peers[c];
        assert ClientOrder(r, n, c);
        if b.role == ClientRole && b.node == Some(n) && Waiting(r'.peers[n], c) == [] {
          SubTake(Handed(a.out), Waiting(r.peers[n], c), r.peers[n].received);
          assert Handed(b.out) + [] == Handed(a.out);
        }
      }
    }
  }

  lemma StaysTrans(r: Relay, r0: Relay, r1: Relay, n: Sid)
    requires Stays(r, r0, n) && Stays(r0, r1, n)
    ensures Stays(r, r1, n)
  {
    forall x | x in r.peers ensures ClientStays(r.peers[x], r1.peers[x]) {
      assert ClientStays(r.peers[x], r0.peers[x]) && ClientStays(r0.peers[x], r1.peers[x]);
    }
  }

  /** One record changes. */
  lemma WriteStays(r: Relay, s: Sid, p: Peer, n: Sid)
    requires s in r.peers && ClientStays(r.peers[s], p) && (s == n ==> NodeStays(r.peers[s], p))
    ensures Stays(r, r.(peers := r.peers[s := p]), n)
  {
  }

  lemma SafeCloseStays(r: Relay, s: Sid, n: Sid)
    ensures Stays(r, SafeClose(r, s), n)
  {
    if s in r.peers { WriteStays(r, s, Shut(r.peers[s]), n); }
  }

  lemma DropOrder(r: Relay, s: Sid, n: Sid)
    requires OrderInv(r, n)
    ensures OrderInv(SafeClose(r, s), n)
    ensures n in r.peers ==> n in SafeClose(r, s).peers && SafeClose(r, s).peers[n].received == r.peers[n].received
  {
    SafeCloseStays(r, s, n);
    StaysKeeps(r, SafeClose(r, s), n);
  }

  /** The client is bound to the node already, and both have nothing waiting. */
  lemma PairStays(r: Relay, m: Sid, c: Sid, n: Sid)
    requires IsLive(r, m) && IsLive(r, c) && r.peers[m].role == NodeRole
    requires r.peers[c].role == ClientRole && r.peers[c].node == Some(m)
    ensures Stays(r, Pair(r, m, c), n)
  {
    var pn, pc := r.peers[m], r.peers[c].(timer := Off);
    if pn.status != Open || pc.status != Open {
      WriteStays(r, c, Shut(pc), n);
    } else {
      var pn' := pn.(phase := Paired, client := Some(c), queue := Some(EMPTY_QUEUE));
      var pc' := Emit(pc.(phase := Paired, node := Some(m), queue := Some(EMPTY_QUEUE)), [ReadyNotice]);
      HandedNotice(pc.out);
      WriteStays(r, c, pc', n);
      var r0 := r.(peers := r.peers[c := pc']);
      WriteStays(r0, m, Emit(pn', [ClientConnected(c)]), n);
      StaysTrans(r, r0, r0.(peers := r0.peers[m := Emit(pn', [ClientConnected(c)])]), n);
    }
  }

  lemma AnsweredStays(o: TunnelOptions, r: Relay, m: Sid, rid: Rid, allow: bool, n: Sid)
    requires PairingInv(o, r) && IsLive(r, m) && r.peers[m].role == NodeRole
    ensures Stays(r, Answered(r, m, rid, allow), n)
  {
    var p := r.peers[m];
    assert PeerOk(o, r, m);
    if p.pending.Some? && p.pending.value.rid == rid {
      var c := p.pending.value.client;
      var r0 := r.(peers := r.peers[m := p.(pending := None, phase := Ready)]);
      WriteStays(r, m, p.(pending := None, phase := Ready), n);
      if allow { PairStays(r0, m, c, n); } else { SafeCloseStays(r0, c, n); }
      StaysTrans(r, r0, Answered(r, m, rid, allow), n);
    }
  }

  /** A client without frames turns to a node that has nothing waiting. */
  lemma RequestOrder(o: TunnelOptions, r: Relay, c: Sid, id: NodeId, rid: Rid, n: Sid)
    requires PairingInv(o, r) && ClientsPart(r, n) && OrderInv(r, n)
    requires IsLive(r, c) && r.peers[c].role == ClientRole && r.peers[c].phase == Handshake
    ensures OrderInv(RequestPairing(r, c, id, rid), n)
    ensures n in r.peers ==> n in RequestPairing(r, c, id, rid).peers
                             && RequestPairing(r, c, id, rid).peers[n].received == r.peers[n].received
  {
    if !NodeAvailable(r, id) {
      DropOrder(r, c, n);
    } else if n in r.peers {
      var m := r.nodes[id];
      var r' := RequestPairing(r, c, id, rid);
      assert PeerOk(o, r, m) && PeerOk(o, r, n);
      forall x | x in r'.peers ensures ClientOrder(r', n, x) {
        assert ClientOrder(r, n, x) && ClientSide(r, n, x);
        if x == c { NoneHanded(r.peers[c].out); }
        if n == m { assert Waiting(r.peers[n], x) == [] == Waiting(r'.peers[n], x); }
      }
    }
  }

  lemma TextOrder(o: TunnelOptions, r: Relay, s: Sid, text: Text, n: Sid)
    requires PairingInv(o, r) && ClientsPart(r, n) && OrderInv(r, n) && IsLive(r, s)
    ensures OrderInv(DoText(r, s, text), n)
    ensures n in r.peers ==>
      n in DoText(r, s, text).peers && DoText(r, s, text).peers[n].received == r.peers[n].received
  {
    var p := r.peers[s];
    var r0 := r.(peers := r.peers[s := p.(processing := true)]);
    WriteStays(r, s, p.(processing := true), n);
    StaysKeeps(r, r0, n);
    if p.phase == Paired || p.processing || text.Oversized? {
      DropOrder(r, s, n);
    } else if p.role == NodeRole && p.phase == Handshake && text.NodeAuth? {
      var p' := p.(processing := true, lookup := Some(text.nodeId));
      WriteStays(r, s, p', n);
      StaysKeeps(r, r.(peers := r.peers[s := p']), n);
    } else if p.role == NodeRole && p.phase != Handshake && p.phase != Ready && text.AuthorizeResult? {
      SameShapeKeeps(o, r, r0);
      AnsweredStays(o, r0, s, text.answered, text.allow, n);
      StaysKeeps(r0, Answered(r0, s, text.answered, text.allow), n);
    } else if p.role == ClientRole && p.phase == Handshake && text.ClientAuth? {
      SameShapeKeeps(o, r, r0);
      ClientsCalm(r, r0, n);
      RequestOrder(o, r0, s, text.target, text.rid, n);
    } else {
      DropOrder(r0, s, n);
    }
  }

  lemma LookupStays(o: TunnelOptions, r: Relay, s: Sid, result: LookupResult, n: Sid)
    requires PairingInv(o, r)
    ensures Stays(r, LookupResumed(r, s, result), n)
  {
    if s in r.peers && r.peers[s].lookup.Some? {
      assert PeerOk(o, r, s);
      var p := r.peers[s];
      var r0 := r.(peers := r.peers[s := p.(lookup := None)]);
      WriteStays(r, s, p.(lookup := None), n);
      if BecomesReady(r, s, result) {
        var p' := p.(lookup := None, timer := Off, nodeId := p.lookup, phase := Ready);
        WriteStays(r, s, Emit(p', [ReadyNotice]), n);
      } else {
        SafeCloseStays(r0, s, n);
        StaysTrans(r, r0, SafeClose(r0, s), n);
      }
    }
  }

  lemma TimerStays(o: TunnelOptions, r: Relay, s: Sid, n: Sid)
    requires PairingInv(o, r)
    ensures Stays(r, DoTimer(r, s), n)
  {
    if s in r.peers && r.peers[s].timer != Off {
      var p := r.peers[s];
      assert PeerOk(o, r, s);
      if Withdraws(r, s) {
        var m := p.timer.node;
        var r0 := r.(peers := r.peers[m := r.peers[m].(pending := None, phase := Ready)]);
        WriteStays(r, m, r.peers[m].(pending := None, phase := Ready), n);
        WriteStays(r0, s, Shut(p.(timer := Off, node := None)), n);
        StaysTrans(r, r0, r0.(peers := r0.peers[s := Shut(p.(timer := Off, node := None))]), n);
      } else {
        var r0 := r.(peers := r.peers[s := p.(timer := Off)]);
        WriteStays(r, s, p.(timer := Off), n);
        SafeCloseStays(r0, s, n);
        StaysTrans(r, r0, SafeClose(r0, s), n);
      }
    }
  }

  lemma ClientCloseStays(o: TunnelOptions, r: Relay, s: Sid, n: Sid)
    requires PairingInv(o, r) && IsLive(r, s) && r.peers[s].role == ClientRole
    ensures Stays(r, DoClose(r, s), n)
  {
    var p := r.peers[s];
    var r1 := r.(peers := r.peers[s := ClosedPeer(p)]);
    assert PeerOk(o, r, s);
    WriteStays(r, s, ClosedPeer(p), n);
    if p.node.Some? && IsLive(r1, p.node.value) {
      var m := p.node.value;
      WriteStays(r1, m, ClientLeft(r1.peers[m], s), n);
      StaysTrans(r, r1, r1.(peers := r1.peers[m := ClientLeft(r1.peers[m], s)]), n);
    }
  }

  lemma NodeCloseStays(o: TunnelOptions, r: Relay, s: Sid, n: Sid)
    requires PairingInv(o, r) && IsLive(r, s) && r.peers[s].role == NodeRole
    ensures Stays(r, DoClose(r, s), n)
  {
    var p := r.peers[s];
    var nodes := if p.nodeId.Some? then r.nodes - {p.nodeId.value} else r.nodes;
    var r1 := r.(peers := r.peers[s := ClosedPeer(p)], nodes := nodes);
    var r2 := if p.client.Some? then SafeClose(r1, p.client.value) else r1;
    assert PeerOk(o, r, s);
    WriteStays(r, s, ClosedPeer(p), n);
    assert Stays(r, r1, n);
    if p.client.Some? {
      SafeCloseStays(r1, p.client.value, n);
      StaysTrans(r, r1, r2, n);
    }
    if p.pending.Some? {
      SafeCloseStays(r2, p.pending.value.client, n);
      StaysTrans(r, r2, SafeClose(r2, p.pending.value.client), n);
    }
  }

  lemma CloseStays(o: TunnelOptions, r: Relay, s: Sid, n: Sid)
    requires PairingInv(o, r) && IsLive(r, s)
    ensures Stays(r, DoClose(r, s), n)
  {
    if r.peers[s].role == ClientRole { ClientCloseStays(o, r, s, n); } else { NodeCloseStays(o, r, s, n); }
  }

  /** Queue and writes of another socket: a client's frames go to a node, another node's to its own client. */
  lemma OtherPutOrder(o: TunnelOptions, r: Relay, s: Sid, l: Link, n: Sid)
    requires PairingInv(o, r) && OrderInv(r, n) && CanForward(r, s) && IsLive(r, s) && s != n
    requires n in r.peers ==> r.peers[n].role == NodeRole
    ensures OrderInv(PutLink(r, s, l), n)
    ensures n in r.peers ==> PutLink(r, s, l).peers[n].received == r.peers[n].received
  {
    var t := TargetOf(r.peers[s]).value;
    var r' := PutLink(r, s, l);
    assert PeerOk(o, r, s) && PeerOk(o, r, t);
    if n in r.peers {
      forall c | c in r'.peers ensures ClientOrder(r', n, c) {
        assert ClientOrder(r, n, c);
      }
    }
  }

  // ----- frames of the node -----

  /**
   The node may store queue and written frames `l`: what its client was handed, is handed now, and what waits for
   it are still a selection of the node's log.
   */
  ghost predicate CanHand(o: TunnelOptions, r: Relay, n: Sid, l: Link) {
    && PairingInv(o, r) && CanForward(r, n) && IsLive(r, n) && r.peers[n].role == NodeRole
    && var c := r.peers[n].client.value;
      && (r.peers[c].status != Open ==> l.target.sent == [])
      && IsSub(Handed(r.peers[c].out) + (l.target.sent + l.queue.frames), r.peers[n].received)
  }

  /** The client's record after the frames are written. */
  lemma HandedNow(p: Peer, frames: seq<Frame>)
    requires p.status != Open ==> frames == []
    ensures Handed(Emit(p, AsMessages(frames)).out) == Handed(p.out) + frames
  {
    HandedFrames(p.out, frames);
    assert frames == [] ==> Handed(p.out) + frames == Handed(p.out);
  }

  lemma OwnPutReachesClient(o: TunnelOptions, r: Relay, n: Sid, l: Link)
    requires CanHand(o, r, n, l)
    ensures ClientOrder(PutLink(r, n, l), n, r.peers[n].client.value)
  {
    var c := r.peers[n].client.value;
    var r' := PutLink(r, n, l);
    assert PeerOk(o, r, n) && PeerOk(o, r, c);
    HandedNow(r.peers[c], l.target.sent);
    assert Waiting(r'.peers[n], c) == l.queue.frames;
    assert Handed(r.peers[c].out) + (l.target.sent + l.queue.frames)
        == (Handed(r.peers[c].out) + l.target.sent) + l.queue.frames;
  }

  /** The node's own queue and writes: its client's share of the log is stretched, nobody else's is touched. */
  lemma OwnPutOrder(o: TunnelOptions, r: Relay, n: Sid, l: Link)
    requires OrderInv(r, n) && CanHand(o, r, n, l)
    ensures OrderInv(PutLink(r, n, l), n) && PutLink(r, n, l).peers[n].received == r.peers[n].received
  {
    var c := r.peers[n].client.value;
    var r' := PutLink(r, n, l);
    assert PeerOk(o, r, n) && PeerOk(o, r, c);
    OwnPutReachesClient(o, r, n, l);
    forall x | x in r'.peers ensures ClientOrder(r', n, x) {
      assert ClientOrder(r, n, x);
      if x != c { assert Waiting(r'.peers[n], x) == Waiting(r.peers[n], x); }
    }
  }

  lemma LoggedOrder(r: Relay, n: Sid, s: Sid, f: Frame)
    requires OrderInv(r, n) && s in r.peers
    ensures OrderInv(r.(peers := r.peers[s := r.peers[s].(received := r.peers[s].received + [f])]), n)
  {
    var r' := r.(peers := r.peers[s := r.peers[s].(received := r.peers[s].received + [f])]);
    if n in r.peers {
      forall c | c in r'.peers ensures ClientOrder(r', n, c) {
        assert ClientOrder(r, n, c);
        if r.peers[c].role == ClientRole && r.peers[c].node == Some(n) {
          SubExtend(Handed(r.peers[c].out) + Waiting(r.peers[n], c), r.peers[n].received, [f]);
        }
      }
    }
  }

  /** A frame of the paired node that is sent or queued stands behind all others of its client. */
  lemma OwnForwardOrder(o: TunnelOptions, r: Relay, n: Sid, f: Frame, buffered: nat, throws: bool)
    requires PairingInv(o, r) && OrderInv(r, n) && CanForward(r, n) && IsLive(r, n) && r.peers[n].role == NodeRole
    requires var c := r.peers[n].client.value; var log := r.peers[n].received;
      log != [] && log[|log| - 1] == f && IsSub(Handed(r.peers[c].out) + Waiting(r.peers[n], c), log[..|log| - 1])
    ensures var l := Forward(o.queue, LinkOf(r, n, buffered), f, throws).link;
      OrderInv(PutLink(r, n, l), n) && PutLink(r, n, l).peers[n].received == r.peers[n].received
  {
    var c := r.peers[n].client.value;
    var log := r.peers[n].received;
    var link := LinkOf(r, n, buffered);
    var fw := Forward(o.queue, link, f, throws);
    ForwardOrder(o.queue, link, f, throws);
    assert Waiting(r.peers[n], c) == link.queue.frames;
    assert log == log[..|log| - 1] + [f];
    if fw.accepted {
      SelectsOneMore(Handed(r.peers[c].out), link.queue.frames, log[..|log| - 1], f);
    } else {
      SubExtend(Handed(r.peers[c].out) + link.queue.frames, log[..|log| - 1], [f]);
    }
    OwnPutOrder(o, r, n, fw.link);
  }

  /** What the relay's log of a node gains from a binary message. */
  ghost function Logged(p: Peer, f: Frame): seq<Frame> {
    if p.phase == Paired then p.received + [f] else p.received
  }

  /** The paired node's frame has been logged. */
  lemma OwnPairedOrder(o: TunnelOptions, r: Relay, n: Sid, f: Frame, buffered: nat, throws: bool)
    requires PairingInv(o, r) && OrderInv(r, n) && IsLive(r, n) && r.peers[n].role == NodeRole
    requires r.peers[n].client.Some? && CanForward(r, n)
    ensures var r0 := r.(peers := r.peers[n := r.peers[n].(received := r.peers[n].received + [f])]);
      var r1 := PutLink(r0, n, Forward(o.queue, LinkOf(r0, n, buffered), f, throws).link);
      OrderInv(r1, n) && r1.peers[n].received == r.peers[n].received + [f]
  {
    var p := r.peers[n];
    var c := p.client.value;
    var r0 := r.(peers := r.peers[n := p.(received := p.received + [f])]);
    assert PeerOk(o, r, n) && PeerOk(o, r, c) && ClientOrder(r, n, c);
    SameShapeKeeps(o, r, r0);
    LoggedOrder(r, n, n, f);
    assert (p.received + [f])[..|p.received|] == p.received;
    OwnForwardOrder(o, r0, n, f, buffered, throws);
  }

  lemma OwnBinaryOrder(o: TunnelOptions, r: Relay, n: Sid, f: Frame, buffered: nat, throws: bool)
    requires PairingInv(o, r) && OrderInv(r, n) && IsLive(r, n) && r.peers[n].role == NodeRole
    ensures var r' := DoBinary(o, r, n, f, buffered, throws);
      OrderInv(r', n) && n in r'.peers && r'.peers[n].received == Logged(r.peers[n], f)
  {
    var p := r.peers[n];
    assert PeerOk(o, r, n);
    if p.phase == Paired {
      var c := p.client.value;
      var r0 := r.(peers := r.peers[n := p.(received := p.received + [f])]);
      LoggedOrder(r, n, n, f);
      if f.size > o.maxFrameBytes {
        DropOrder(r0, n, n);
      } else if CanForward(r0, n) {
        OwnPairedOrder(o, r, n, f, buffered, throws);
        DropOrder(PutLink(r0, n, Forward(o.queue, LinkOf(r0, n, buffered), f, throws).link), c, n);
      } else {
        DropOrder(r0, c, n);
      }
    } else {
      DropOrder(r, n, n);
    }
  }

  /** A frame of another paired socket, once it has been logged. */
  lemma OtherPairedOrder(o: TunnelOptions, r: Relay, s: Sid, p: Peer, f: Frame, buffered: nat, throws: bool, n: Sid)
    requires PairingInv(o, r) && OrderInv(r, n) && IsLive(r, s) && s != n && CanForward(r, s)
    requires n in r.peers ==> r.peers[n].role == NodeRole
    ensures var r1 := PutLink(r, s, Forward(o.queue, LinkOf(r, s, buffered), f, throws).link);
      var r2 := DropClient(r1, p, s);
      && OrderInv(r1, n) && OrderInv(r2, n)
      && (n in r.peers ==>
            && n in r2.peers && r1.peers[n].received == r.peers[n].received
            && r2.peers[n].received == r.peers[n].received)
  {
    var l := Forward(o.queue, LinkOf(r, s, buffered), f, throws).link;
    OtherPutOrder(o, r, s, l, n);
    DropOrder(PutLink(r, s, l), s, n);
    if p.client.Some? { DropOrder(PutLink(r, s, l), p.client.value, n); }
  }

  lemma OtherBinaryOrder(o: TunnelOptions, r: Relay, s: Sid, f: Frame, buffered: nat, throws: bool, n: Sid)
    requires PairingInv(o, r) && OrderInv(r, n) && IsLive(r, s) && s != n
    requires n in r.peers ==> r.peers[n].role == NodeRole
    ensures var r' := DoBinary(o, r, s, f, buffered, throws);
      OrderInv(r', n) && (n in r.peers ==> n in r'.peers && r'.peers[n].received == r.peers[n].received)
  {
    var p := r.peers[s];
    if p.phase == Paired {
      var r0 := r.(peers := r.peers[s := p.(received := p.received + [f])]);
      LoggedOrder(r, n, s, f);
      if f.size <= o.maxFrameBytes && CanForward(r0, s) {
        SameShapeKeeps(o, r, r0);
        OtherPairedOrder(o, r0, s, p, f, buffered, throws, n);
      } else {
        DropOrder(r0, s, n);
        if p.client.Some? { DropOrder(r0, p.client.value, n); }
      }
    } else {
      DropOrder(r, s, n);
    }
  }

  lemma OwnDrainOrder(o: TunnelOptions, r: Relay, n: Sid, buffered: nat, failing: nat)
    requires PairingInv(o, r) && OrderInv(r, n) && CanForward(r, n) && IsLive(r, n) && r.peers[n].role == NodeRole
    ensures var l := Drain(o.queue, LinkOf(r, n, buffered), failing).link;
      OrderInv(PutLink(r, n, l), n) && PutLink(r, n, l).peers[n].received == r.peers[n].received
  {
    var c := r.peers[n].client.value;
    var link := LinkOf(r, n, buffered);
    var l := Drain(o.queue, link, failing).link;
    var handed, waiting := Handed(r.peers[c].out), link.queue.frames;
    assert PeerOk(o, r, n) && PeerOk(o, r, c) && ClientOrder(r, n, c);
    if link.target.open {
      ClientDrains(o.queue, link, failing, handed, r.peers[n].received);
    } else {
      SubTake(handed, waiting, r.peers[n].received);
      assert handed + (l.target.sent + l.queue.frames) == handed;
    }
    OwnPutOrder(o, r, n, l);
  }

  lemma DrainOrder(o: TunnelOptions, r: Relay, s: Sid, buffered: nat, failing: nat, n: Sid)
    requires PairingInv(o, r) && OrderInv(r, n) && (n in r.peers ==> r.peers[n].role == NodeRole)
    ensures var r' := DoDrain(o, r, s, buffered, failing);
      OrderInv(r', n) && (n in r.peers ==> n in r'.peers && r'.peers[n].received == r.peers[n].received)
  {
    if CanForward(r, s) && r.peers[s].queue.value.timerArmed {
      assert PeerOk(o, r, s);
      if s == n {
        OwnDrainOrder(o, r, n, buffered, failing);
      } else {
        OtherPutOrder(o, r, s, Drain(o.queue, LinkOf(r, s, buffered), failing).link, n);
      }
    }
  }

  lemma AcceptOrder(o: TunnelOptions, r: Relay, s: Sid, role: Role, n: Sid)
    requires PairingInv(o, r) && ClientsPart(r, n) && OrderInv(r, n)
    ensures OrderInv(DoAccept(r, s, role), n)
  {
    var r' := DoAccept(r, s, role);
    if n in r'.peers {
      forall c | c in r'.peers ensures ClientOrder(r', n, c) {
        if c in r.peers { assert PeerOk(o, r, c); }
        if c in r.peers && n in r.peers { assert ClientOrder(r, n, c); }
      }
    }
  }

  lemma BinaryOrder(o: TunnelOptions, r: Relay, s: Sid, f: Frame, buffered: nat, throws: bool, n: Sid)
    requires PairingInv(o, r) && OrderInv(r, n) && IsLive(r, s)
    requires n in r.peers ==> r.peers[n].role == NodeRole
    ensures var r' := DoBinary(o, r, s, f, buffered, throws);
      OrderInv(r', n)
      && (n in r.peers ==>
            n in r'.peers && r'.peers[n].received == if s == n then Logged(r.peers[n], f) else r.peers[n].received)
  {
    if s == n {
      OwnBinaryOrder(o, r, n, f, buffered, throws);
    } else {
      OtherBinaryOrder(o, r, s, f, buffered, throws, n);
    }
  }

  lemma PollStays(r: Relay, active: Option<set<NodeId>>, n: Sid)
    ensures Stays(r, DoPollDone(r, active), n)
  {
  }

  /** The steps that hand no frame to a client and do not move one to another node. */
  lemma QuietStepStays(o: TunnelOptions, r: Relay, e: Event, n: Sid)
    requires PairingInv(o, r)
    requires !e.Accept? && !e.BinaryMessage? && !e.DrainFires? && !e.TextMessage?
    ensures Stays(r, Step(o, r, e), n)
  {
    match e
    case LookupDone(s, result) => LookupStays(o, r, s, result, n);
    case TimerFires(s) => TimerStays(o, r, s, n);
    case CloseEvent(s) => if IsLive(r, s) { CloseStays(o, r, s, n); }
    case BeginClose(s) => SafeCloseStays(r, s, n);
    case PollDone(active) => PollStays(r, active, n);
    case _ =>
  }

  lemma QuietStepOrder(o: TunnelOptions, r: Relay, e: Event, n: Sid)
    requires PairingInv(o, r) && OrderInv(r, n)
    requires !e.Accept? && !e.BinaryMessage? && !e.DrainFires? && !e.TextMessage?
    ensures OrderInv(Step(o, r, e), n)
    ensures n in r.peers ==> n in Step(o, r, e).peers && Step(o, r, e).peers[n].received == r.peers[n].received
  {
    QuietStepStays(o, r, e, n);
    StaysKeeps(r, Step(o, r, e), n);
  }

  /** Every step keeps the order, and only a binary message of the node itself adds to its log. */
  lemma StepOrder(o: TunnelOptions, r: Relay, e: Event, n: Sid)
    requires PairingInv(o, r) && ClientsPart(r, n) && OrderInv(r, n)
    requires n in r.peers ==> r.peers[n].role == NodeRole
    ensures OrderInv(Step(o, r, e), n)
    ensures n in r.peers ==>
      && n in Step(o, r, e).peers
      && Step(o, r, e).peers[n].received ==
           if e.BinaryMessage? && e.s == n && r.peers[n].live then Logged(r.peers[n], e.frame) else r.peers[n].received
  {
    match e
    case Accept(s, role) => AcceptOrder(o, r, s, role, n);
    case BinaryMessage(s, f, buffered, throws) => if IsLive(r, s) { BinaryOrder(o, r, s, f, buffered, throws, n); }
    case DrainFires(s, buffered, failing) => DrainOrder(o, r, s, buffered, failing, n);
    case TextMessage(s, text) =>
      if IsLive(r, s) && !(text.ClientAuth? && text.rid in r.requests) { TextOrder(o, r, s, text, n); }
    case _ => QuietStepOrder(o, r, e, n);
  }

  // ----- the node's link -----

  /** The frames on the way from the node. */
  ghost function FramesOf(up: seq<Up>): seq<Frame> {
    if up == [] then [] else (if up[0].FrameFor? then [up[0].frame] else []) + FramesOf(up[1..])
  }

  lemma {:induction false} FramesOfSnoc(up: seq<Up>, m: Up)
    ensures FramesOf(up + [m]) == FramesOf(up) + if m.FrameFor? then [m.frame] else []
  {
    if up == [] {
      assert up + [m] == [m];
    } else {
      FramesOfSnoc(up[1..], m);
      assert (up + [m])[1..] == up[1..] + [m];
    }
  }

  /** The relay's log of the node and the frames under way are a selection of what the node sent, in order. */
  ghost predicate LogInv(n: Sid, net: Net) {
    if n in net.relay.peers then IsSub(net.relay.peers[n].received + FramesOf(net.up), net.log) else net.up == []
  }

  lemma ReadLog(received: seq<Frame>, up: seq<Up>, log: seq<Frame>, received': seq<Frame>)
    requires up != [] && IsSub(received + FramesOf(up), log)
    requires received' == received || (up[0].FrameFor? && received' == received + [up[0].frame])
    ensures IsSub(received' + FramesOf(up[1..]), log)
  {
    var rest := FramesOf(up[1..]);
    if up[0].FrameFor? {
      var f := up[0].frame;
      if received' == received {
        SubOmit(received + rest, received + ([f] + rest), received, f, rest);
        SubTrans(received + rest, received + ([f] + rest), log);
      } else {
        assert received' + rest == received + ([f] + rest);
      }
    } else {
      assert FramesOf(up) == rest;
    }
  }

  lemma SendLog(received: seq<Frame>, up: seq<Up>, log: seq<Frame>, m: Up)
    requires IsSub(received + FramesOf(up), log)
    ensures IsSub(received + FramesOf(up + [m]), if m.FrameFor? then log + [m.frame] else log)
  {
    FramesOfSnoc(up, m);
    if m.FrameFor? {
      SelectsOneMore(received, FramesOf(up), log, m.frame);
    } else {
      assert FramesOf(up + [m]) == FramesOf(up);
    }
  }

  lemma NetStepOrder(o: TunnelOptions, n: Sid, net: Net, e: NetEvent)
    requires IsolationInv(o, n, net) && OrderInv(net.relay, n) && LogInv(n, net)
    ensures OrderInv(NetStep(o, n, net, e).relay, n) && LogInv(n, NetStep(o, n, net, e))
  {
    var r := net.relay;
    match e
    case Elsewhere(e) =>
      if !ConcernsLink(e, n) {
        StepOrder(o, r, e, n);
        if n !in r.peers && n in Step(o, r, e).peers { AcceptedEmpty(o, r, e, n); }
      }
    case Deliver =>
    case NodeSends(m) =>
      if n in r.peers { SendLog(r.peers[n].received, net.up, net.log, m); }
    case RelayReads(buffered, throws) =>
      if net.up != [] {
        var e' := AsEvent(n, net.up[0], buffered, throws);
        StepOrder(o, r, e', n);
        ReadLog(r.peers[n].received, net.up, net.log, Step(o, r, e').peers[n].received);
      }
  }

  /** A socket that appears has received nothing. */
  lemma AcceptedEmpty(o: TunnelOptions, r: Relay, e: Event, n: Sid)
    requires n !in r.peers && n in Step(o, r, e).peers
    ensures Step(o, r, e).peers[n].received == []
  {
    match e
    case BinaryMessage(s, f, buffered, throws) => if IsLive(r, s) { BinaryKeepsPeers(o, r, s, f, buffered, throws); }
    case TextMessage(s, text) => if IsLive(r, s) { TextKeepsPeers(r, s, text); }
    case CloseEvent(s) => CloseKeepsPeers(r, s);
    case _ =>
  }

  lemma {:induction false} OrderOnEveryRun(o: TunnelOptions, n: Sid, events: seq<NetEvent>)
    ensures OrderInv(NetRun(o, n, events).relay, n) && LogInv(n, NetRun(o, n, events))
    decreases |events|
  {
    if events != [] {
      var k := |events| - 1;
      OrderOnEveryRun(o, n, events[..k]);
      IsolationOnEveryRun(o, n, events[..k]);
      NetStepOrder(o, n, NetRun(o, n, events[..k]), events[k]);
    }
  }

  // ----- what a client gets -----

  /** The frames the node sent for client `c`, in the order it sent them. */
  ghost function SentFor(log: seq<Frame>, c: Sid): seq<Frame>
    decreases |log|
  {
    if log == [] then []
    else var f := log[|log| - 1]; SentFor(log[..|log| - 1], c) + if f.client == c then [f] else []
  }

  lemma {:induction false} HandedFor(out: seq<Msg>, c: Sid)
    requires MessagesFor(out, c)
    ensures FramesFor(Handed(out), c)
    decreases |out|
  {
    if out != [] { HandedFor(out[..|out| - 1], c); }
  }

  /** A selection that holds frames of one client only is a selection of that client's frames. */
  lemma {:induction false} SubOfSentFor(a: seq<Frame>, log: seq<Frame>, c: Sid)
    requires IsSub(a, log) && FramesFor(a, c)
    ensures IsSub(a, SentFor(log, c))
    decreases |log|
  {
    if |a| > 0 {
      var front, last := log[..|log| - 1], log[|log| - 1];
      var a0 := a[..|a| - 1];
      if a[|a| - 1] == last && IsSub(a0, front) {
        SubOfSentFor(a0, front, c);
        SubSnoc(a0, SentFor(front, c), last);
        assert a0 + [last] == a;
      } else {
        SubOfSentFor(a, front, c);
        SubExtend(a, SentFor(front, c), if last.client == c then [last] else []);
      }
    }
  }

  /**
   With a protocol-following node, over every run: what a client was handed, followed by what waits for it, is a
   selection, in order, of the frames the node sent for that very client.
   */
  lemma {:induction false} ClientFramesArriveInOrder(o: TunnelOptions, n: Sid, events: seq<NetEvent>, c: Sid)
    requires var r := NetRun(o, n, events).relay;
      c in r.peers && r.peers[c].role == ClientRole && r.peers[c].node == Some(n)
    ensures var net := NetRun(o, n, events);
      && n in net.relay.peers
      && IsSub(Handed(net.relay.peers[c].out) + Waiting(net.relay.peers[n], c), SentFor(net.log, c))
  {
    var net := NetRun(o, n, events);
    var r := net.relay;
    IsolationOnEveryRun(o, n, events);
    OrderOnEveryRun(o, n, events);
    assert PeerOk(o, r, c) && ClientOrder(r, n, c);
    NoFrameReachesAnotherClient(o, n, events, c);
    var handed, waiting := Handed(r.peers[c].out), Waiting(r.peers[n], c);
    HandedFor(r.peers[c].out, c);
    PartsFor(handed, waiting, c);
    SubTake(r.peers[n].received, FramesOf(net.up), net.log);
    SubTrans(handed + waiting, r.peers[n].received, net.log);
    SubOfSentFor(handed + waiting, net.log, c);
  }
}
