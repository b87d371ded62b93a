/**
 What a node reads from the relay: authorization requests and complete blocks
 `clientConnected, opaque frames, clientDisconnected`, one client to a block.
 */
module TunnelOutput {
  import opened Prelude
  import opened ForwardQueue
  import opened TunnelModel
  import opened TunnelPairing
  import opened Subsequence

  /** The state of a reader of the messages written to a node socket. */
  datatype Reading = Begin | Greeted | Outside | Inside(client: Sid, frames: seq<Frame>) | Bad

  function Next(st: Reading, m: Msg): Reading {
    match (st, m)
    case (Begin, Challenge) => Greeted
    case (Greeted, ReadyNotice) => Outside
    case (Outside, AuthorizeClient(_)) => Outside
    case (Outside, ClientConnected(c)) => Inside(c, [])
    case (Inside(c, fs), Opaque(f)) => Inside(c, fs + [f])
    case (Inside(_, _), ClientDisconnected) => Outside
    case (_, _) => Bad
  }

  function Read(out: seq<Msg>): Reading
    decreases |out|
  {
    if out == [] then Begin else Next(Read(out[..|out| - 1]), out[|out| - 1])
  }

  /** A block so far: the frames in it were received from the block's own client, in this order. */
  ghost predicate BlockOk(r: Relay, st: Reading) {
    && st != Bad
    && (st.Inside? ==>
      st.client in r.peers && r.peers[st.client].role == ClientRole && IsSub(st.frames, r.peers[st.client].received))
  }

  /** `BlockOk` at every prefix, so also for every block that is already complete. */
  ghost predicate PrefixesOk(r: Relay, out: seq<Msg>)
    decreases |out|
  {
    BlockOk(r, Read(out)) && (out == [] || PrefixesOk(r, out[..|out| - 1]))
  }

  /** The block a node is in is the block of the client it is paired with. */
  ghost predicate PhaseMatches(r: Relay, n: Sid)
    requires n in r.peers
  {
    var p := r.peers[n];
    var st := Read(p.out);
    match p.phase
    case Handshake => st == Greeted
    case Paired =>
      && p.client.Some? && p.client.value in r.peers && r.peers[p.client.value].queue.Some?
      && st.Inside? && st.client == p.client.value
      && IsSub(st.frames + r.peers[st.client].queue.value.frames, r.peers[st.client].received)
    case _ => st == Outside
  }

  ghost predicate NodeOutputOk(r: Relay, n: Sid)
    requires n in r.peers
  {
    r.peers[n].role == NodeRole ==>
      PrefixesOk(r, r.peers[n].out) && (r.peers[n].status == Open ==> PhaseMatches(r, n))
  }

  ghost predicate OutputInv(r: Relay) {
    forall n {:trigger NodeOutputOk(r, n)} :: n in r.peers ==> NodeOutputOk(r, n)
  }

  // ----- growing logs -----

  ghost predicate Grows(r: Relay, r': Relay) {
    forall s {:trigger r'.peers[s]} {:trigger s in r'.peers} :: s in r.peers ==>
      s in r'.peers && r'.peers[s].role == r.peers[s].role && r.peers[s].received <= r'.peers[s].received
  }

  lemma {:induction false} PrefixesGrow(r: Relay, r': Relay, out: seq<Msg>)
    requires PrefixesOk(r, out) && Grows(r, r')
    ensures PrefixesOk(r', out)
    decreases |out|
  {
    var st := Read(out);
    if st.Inside? {
      var old', new' := r.peers[st.client].received, r'.peers[st.client].received;
      SubExtend(st.frames, old', new'[|old'|..]);
      assert old' + new'[|old'|..] == new';
    }
    if out != [] {
      PrefixesGrow(r, r', out[..|out| - 1]);
    }
  }

  lemma ReadSnoc(out: seq<Msg>, m: Msg)
    ensures Read(out + [m]) == Next(Read(out), m)
  {
    assert (out + [m])[..|out|] == out;
  }

  lemma PrefixesSnoc(r: Relay, out: seq<Msg>, m: Msg)
    requires PrefixesOk(r, out) && BlockOk(r, Next(Read(out), m))
    ensures PrefixesOk(r, out + [m])
  {
    assert (out + [m])[..|out|] == out;
  }

  lemma AsMessagesSnoc(out: seq<Msg>, frames: seq<Frame>)
    requires frames != []
    ensures var n := |frames| - 1;
      out + AsMessages(frames) == (out + AsMessages(frames[..n])) + [Opaque(frames[n])]
  {
  }

  lemma PrefixesFrame(r: Relay, out: seq<Msg>, f: Frame)
    requires PrefixesOk(r, out) && Read(out).Inside?
    requires IsSub(Read(out).frames + [f], r.peers[Read(out).client].received)
    ensures PrefixesOk(r, out + [Opaque(f)])
    ensures Read(out + [Opaque(f)]) == Inside(Read(out).client, Read(out).frames + [f])
  {
    ReadSnoc(out, Opaque(f));
    PrefixesSnoc(r, out, Opaque(f));
  }

  /** Frames of the current block's client, written in order, extend the block. */
  lemma {:induction false} PrefixesFrames(r: Relay, out: seq<Msg>, frames: seq<Frame>)
    requires PrefixesOk(r, out) && Read(out).Inside?
    requires IsSub(Read(out).frames + frames, r.peers[Read(out).client].received)
    ensures PrefixesOk(r, out + AsMessages(frames))
    ensures Read(out + AsMessages(frames)) == Inside(Read(out).client, Read(out).frames + frames)
    decreases |frames|
  {
    var before, log := Read(out).frames, r.peers[Read(out).client].received;
    if frames == [] {
      assert out + AsMessages(frames) == out;
      assert before + frames == before;
    } else {
      var n := |frames| - 1;
      assert before + frames == (before + frames[..n]) + [frames[n]];
      SubTake(before + frames[..n], [frames[n]], log);
      PrefixesFrames(r, out, frames[..n]);
      PrefixesFrame(r, out + AsMessages(frames[..n]), frames[n]);
      AsMessagesSnoc(out, frames);
    }
  }

  /** Everything a node's output depends on is as before, or the sockets are closer to closed. */
  ghost predicate Quiet(a: Peer, b: Peer) {
    && a.role == b.role && a.client == b.client
    && (a.role == NodeRole ==> a.out == b.out)
    && a.received == b.received
    && (b.status == Open ==> a.status == Open)
    && (a.role == NodeRole && b.status == Open ==>
      a.phase == b.phase || (a.phase != Handshake && a.phase != Paired && b.phase != Handshake && b.phase != Paired))
    && (a.queue == b.queue || b.queue == Some(EMPTY_QUEUE))
    && (a.queue.Some? <==> b.queue.Some?)
  }

  ghost predicate Same(r: Relay, r': Relay, s: Sid) {
    s in r.peers && s in r'.peers && (r.peers[s] == r'.peers[s] || Quiet(r.peers[s], r'.peers[s]))
  }

  /** A node that is quiet itself, and whose client is quiet, is not affected by a step. */
  lemma BystanderKeeps(r: Relay, r': Relay, n: Sid)
    requires n in r.peers && NodeOutputOk(r, n) && Grows(r, r') && Same(r, r', n)
    requires
      r.peers[n].role == NodeRole && r.peers[n].status == Open && r.peers[n].phase == Paired &&
      r.peers[n].client.Some? ==>
        Same(r, r', r.peers[n].client.value)
    ensures NodeOutputOk(r', n)
  {
    if r'.peers[n].role == NodeRole {
      PrefixesGrow(r, r', r'.peers[n].out);
      if r'.peers[n].status == Open && r'.peers[n].phase == Paired {
        var c := r'.peers[n].client.value;
        var st := Read(r.peers[n].out);
        if r'.peers[c].queue.value.frames == [] {
          SubTake(st.frames, r.peers[c].queue.value.frames, r.peers[c].received);
          assert st.frames + [] == st.frames;
        }
      }
    }
  }

  lemma QuietKeeps(r: Relay, r': Relay)
    requires OutputInv(r) && r'.peers.Keys == r.peers.Keys
    requires forall s {:trigger r'.peers[s]} :: s in r.peers ==>
      r.peers[s] == r'.peers[s] || Quiet(r.peers[s], r'.peers[s])
    ensures OutputInv(r')
  {
    forall s | s in r'.peers
      ensures NodeOutputOk(r', s)
    {
      assert NodeOutputOk(r, s);
      BystanderKeeps(r, r', s);
    }
  }

  // ----- the queue -----

  /** `forward` sends or queues the new frame behind the waiting ones, or changes neither. */
  lemma ForwardOrder(o: Options, l: Link, f: Frame, throws: bool)
    requires l.target.sent == []
    ensures var fw := Forward(o, l, f, throws);
      fw.link.target.sent + fw.link.queue.frames == if fw.accepted then l.queue.frames + [f] else l.queue.frames
    ensures !l.target.open ==> Forward(o, l, f, throws).link == l
  {
  }

  /** The drain has sent the first of the frames and kept the last ones; what lies between, `lost`, went to a throw. */
  ghost predicate Splits(frames: seq<Frame>, d: Drained, lost: seq<Frame>) {
    && |lost| == (if d.threw then 1 else 0)
    && frames == d.link.target.sent + (lost + d.link.queue.frames)
  }

  /** `d` keeps or sends all of `frames`, in order, but for one that a throw took. */
  ghost predicate LosesOnlyTheThrown(frames: seq<Frame>, d: Drained) {
    exists lost :: Splits(frames, d, lost)
  }

  lemma {:induction false} DrainLoopSplits(o: Options, l: Link, failing: nat) returns (lost: seq<Frame>)
    requires l.target.open
    ensures Splits(l.target.sent + l.queue.frames, DrainLoop(o, l, failing), lost)
    decreases |l.queue.frames|
  {
    if l.queue.frames == [] || l.target.buffered >= o.highWaterBytes {
      lost := [];
      assert DrainLoop(o, l, failing) == Drained(l, false);
      assert lost + l.queue.frames == l.queue.frames;
    } else {
      var f, rest := l.queue.frames[0], l.queue.frames[1..];
      var l0 := l.(queue := l.queue.(frames := rest, accounted := l.queue.accounted - AccountedFrame(f)));
      DrainOne(o, l, failing);
      assert [f] + rest == l.queue.frames;
      if failing == 0 {
        lost := [f];
        assert DrainLoop(o, l, failing) == Drained(l0, true);
        assert Splits(l.target.sent + l.queue.frames, Drained(l0, true), lost);
      } else {
        var l1 := Send(l0, f, false).0;
        lost := DrainLoopSplits(o, l1, failing - 1);
        assert l.target.sent + ([f] + rest) == l1.target.sent + l1.queue.frames;
      }
    }
  }

  /** A drain sends waiting frames in order and loses none but the one whose send throws. */
  lemma DrainLoopOrder(o: Options, l: Link, failing: nat)
    requires l.target.open
    ensures var before, d := l.target.sent + l.queue.frames, DrainLoop(o, l, failing);
      var after := d.link.target.sent + d.link.queue.frames;
      && LosesOnlyTheThrown(before, d)
      && |after| == |before| - (if d.threw then 1 else 0)
      && IsSub(after, before)
  {
    var before, d := l.target.sent + l.queue.frames, DrainLoop(o, l, failing);
    var sent, waiting := d.link.target.sent, d.link.queue.frames;
    var lost := DrainLoopSplits(o, l, failing);
    assert LosesOnlyTheThrown(before, d);
    if d.threw {
      assert lost == [lost[0]];
      SubOmit(sent + waiting, before, sent, lost[0], waiting);
    } else {
      assert lost + waiting == waiting;
      SubRefl(before);
    }
  }

  /** The order alone. */
  lemma DrainSelects(o: Options, l: Link, failing: nat)
    requires l.target.open
    ensures var l' := DrainLoop(o, l, failing).link;
      IsSub(l'.target.sent + l'.queue.frames, l.target.sent + l.queue.frames)
  {
    DrainLoopOrder(o, l, failing);
  }

  // ----- steps -----

  lemma SafeCloseQuiet(r: Relay, s: Sid)
    requires OutputInv(r)
    ensures OutputInv(SafeClose(r, s))
  {
    var r' := SafeClose(r, s);
    forall x | x in r'.peers
      ensures NodeOutputOk(r', x)
    {
      assert NodeOutputOk(r, x);
      BystanderKeeps(r, r', x);
    }
  }

  /** A node stores its queue and writes frames to its client: no node output changes. */
  lemma NodePutLink(o: TunnelOptions, r: Relay, n: Sid, l: Link)
    requires PairingInv(o, r) && OutputInv(r) && CanForward(r, n)
    requires r.peers[n].role == NodeRole
    ensures OutputInv(PutLink(r, n, l))
  {
    var r' := PutLink(r, n, l);
    assert PeerOk(o, r, n) && PeerOk(o, r, r.peers[n].client.value);
    forall x | x in r'.peers
      ensures NodeOutputOk(r', x)
    {
      assert NodeOutputOk(r, x) && PeerOk(o, r, x);
      if r'.peers[x].role == NodeRole {
        PrefixesGrow(r, r', r.peers[x].out);
      }
    }
  }

  /**
   A client may store queue and written frames `l`: written and waiting frames together are still a selection
   of what the client sent.
   */
  ghost predicate CanPut(o: TunnelOptions, r: Relay, c: Sid, l: Link) {
    && PairingInv(o, r) && CanForward(r, c) && IsLive(r, c) && r.peers[c].role == ClientRole
    && var n := r.peers[c].node.value;
      && PrefixesOk(r, r.peers[n].out)
      && (r.peers[n].status == Open ==>
        var st := Read(r.peers[n].out);
        st.Inside? && st.client == c && IsSub(st.frames + (l.target.sent + l.queue.frames), r.peers[c].received))
  }

  lemma PutReachesNode(o: TunnelOptions, r: Relay, c: Sid, l: Link)
    requires CanPut(o, r, c, l)
    ensures NodeOutputOk(PutLink(r, c, l), r.peers[c].node.value)
  {
    var n := r.peers[c].node.value;
    var r' := PutLink(r, c, l);
    assert PeerOk(o, r, c) && PeerOk(o, r, n);
    if r.peers[n].status == Open {
      var st := Read(r.peers[n].out);
      assert st.frames + (l.target.sent + l.queue.frames) == (st.frames + l.target.sent) + l.queue.frames;
      SubTake(st.frames + l.target.sent, l.queue.frames, r.peers[c].received);
      PrefixesFrames(r, r.peers[n].out, l.target.sent);
    }
    PrefixesGrow(r, r', r'.peers[n].out);
  }

  lemma ClientPutLink(o: TunnelOptions, r: Relay, c: Sid, l: Link)
    requires CanPut(o, r, c, l)
    requires forall x {:trigger NodeOutputOk(r, x)} :: x in r.peers && x != r.peers[c].node.value ==> NodeOutputOk(r, x)
    ensures OutputInv(PutLink(r, c, l))
  {
    var n := r.peers[c].node.value;
    var r' := PutLink(r, c, l);
    PutReachesNode(o, r, c, l);
    forall x | x in r'.peers
      ensures NodeOutputOk(r', x)
    {
      if x != n && r'.peers[x].role == NodeRole {
        assert NodeOutputOk(r, x) && PeerOk(o, r, x) && PeerOk(o, r, c);
        PrefixesGrow(r, r', r.peers[x].out);
      }
    }
  }

  lemma NodeBinary(o: TunnelOptions, r: Relay, s: Sid, f: Frame, buffered: nat, throws: bool)
    requires PairingInv(o, r) && OutputInv(r) && IsLive(r, s) && r.peers[s].role == NodeRole
    requires r.peers[s].phase == Paired
    ensures OutputInv(DoBinary(o, r, s, f, buffered, throws))
  {
    var p := r.peers[s];
    var r0 := r.(peers := r.peers[s := p.(received := p.received + [f])]);
    SameShapeKeeps(o, r, r0);
    LoggedKeeps(o, r, s, f);
    if f.size > o.maxFrameBytes {
      SafeCloseQuiet(r0, s);
    } else if CanForward(r0, s) {
      var l := Forward(o.queue, LinkOf(r0, s, buffered), f, throws).link;
      NodePutLink(o, r0, s, l);
      SafeCloseQuiet(PutLink(r0, s, l), p.client.value);
    } else if p.client.Some? {
      SafeCloseQuiet(r0, p.client.value);
    }
  }

  lemma SelectsOneMore(written: seq<Frame>, waiting: seq<Frame>, log: seq<Frame>, f: Frame)
    requires IsSub(written + waiting, log)
    ensures IsSub(written + (waiting + [f]), log + [f])
  {
    SubSnoc(written + waiting, log, f);
    assert (written + waiting) + [f] == written + (waiting + [f]);
  }

  /** What was written, is written now, and waits is still a selection of the log, to which the frame was added. */
  lemma ForwardSelects(o: Options, l: Link, f: Frame, throws: bool, written: seq<Frame>, log: seq<Frame>)
    requires l.target.sent == []
    requires IsSub(written + l.queue.frames, log) && IsSub(written + l.queue.frames, log + [f])
    ensures var l' := Forward(o, l, f, throws).link;
      IsSub(written + (l'.target.sent + l'.queue.frames), log + [f])
  {
    ForwardOrder(o, l, f, throws);
    SelectsOneMore(written, l.queue.frames, log, f);
  }

  lemma ClientBinary(o: TunnelOptions, r: Relay, c: Sid, f: Frame, buffered: nat, throws: bool)
    requires PairingInv(o, r) && OutputInv(r) && IsLive(r, c) && r.peers[c].role == ClientRole
    requires r.peers[c].phase == Paired
    ensures OutputInv(DoBinary(o, r, c, f, buffered, throws))
  {
    assert PeerOk(o, r, c);
    var p := r.peers[c];
    var n := p.node.value;
    assert PeerOk(o, r, n) && NodeOutputOk(r, n);
    var r0 := r.(peers := r.peers[c := p.(received := p.received + [f])]);
    SameShapeKeeps(o, r, r0);
    LoggedKeeps(o, r, c, f);
    if f.size > o.maxFrameBytes || !CanForward(r0, c) {
      SafeCloseQuiet(r0, c);
    } else {
      var link := LinkOf(r0, c, buffered);
      var fw := Forward(o.queue, link, f, throws);
      assert NodeOutputOk(r0, n);
      if r.peers[n].status == Open {
        ForwardSelects(o.queue, link, f, throws, Read(r.peers[n].out).frames, p.received);
      }
      ClientPutLink(o, r0, c, fw.link);
      SafeCloseQuiet(PutLink(r0, c, fw.link), c);
    }
  }

  /** Logging a frame of a paired client keeps every block a selection of its client's log. */
  lemma LoggedKeeps(o: TunnelOptions, r: Relay, c: Sid, f: Frame)
    requires PairingInv(o, r) && OutputInv(r) && c in r.peers
    ensures OutputInv(r.(peers := r.peers[c := r.peers[c].(received := r.peers[c].received + [f])]))
  {
    var r0 := r.(peers := r.peers[c := r.peers[c].(received := r.peers[c].received + [f])]);
    forall x | x in r0.peers
      ensures NodeOutputOk(r0, x)
    {
      assert NodeOutputOk(r, x) && PeerOk(o, r, x);
      if r.peers[x].role == NodeRole {
        PrefixesGrow(r, r0, r.peers[x].out);
        if r.peers[x].status == Open && r.peers[x].phase == Paired && r.peers[x].client == Some(c) {
          SubExtend(Read(r.peers[x].out).frames + r.peers[c].queue.value.frames, r.peers[c].received, [f]);
        }
      }
    }
  }

  /** What a drain of the client's queue has written and left waiting is still a selection of what it sent. */
  lemma ClientDrains(o: Options, link: Link, failing: nat, written: seq<Frame>, log: seq<Frame>)
    requires link.target.sent == [] && link.target.open
    requires IsSub(written + link.queue.frames, log)
    ensures var l := Drain(o, link, failing).link;
      IsSub(written + (l.target.sent + l.queue.frames), log)
  {
    var l := Drain(o, link, failing).link;
    var q := link.queue.(timerArmed := false);
    DrainSelects(o, link.(queue := q), failing);
    assert [] + q.frames == q.frames;
    SubPrepend(written, l.target.sent + l.queue.frames, q.frames);
    SubTrans(written + (l.target.sent + l.queue.frames), written + q.frames, log);
  }

  lemma DrainOutput(o: TunnelOptions, r: Relay, s: Sid, buffered: nat, failing: nat)
    requires PairingInv(o, r) && OutputInv(r)
    ensures OutputInv(DoDrain(o, r, s, buffered, failing))
  {
    if CanForward(r, s) && r.peers[s].queue.value.timerArmed {
      var link := LinkOf(r, s, buffered);
      var l := Drain(o.queue, link, failing).link;
      assert PeerOk(o, r, s);
      if r.peers[s].role == NodeRole {
        NodePutLink(o, r, s, l);
      } else {
        var n := r.peers[s].node.value;
        assert PeerOk(o, r, n) && NodeOutputOk(r, n);
        if r.peers[n].status == Open {
          ClientDrains(o.queue, link, failing, Read(r.peers[n].out).frames, r.peers[s].received);
        }
        ClientPutLink(o, r, s, l);
      }
    }
  }

  predicate BecomesReady(r: Relay, s: Sid, result: LookupResult) {
    && s in r.peers && r.peers[s].lookup.Some? && result == DeviceMatches && r.peers[s].lookup.value !in r.nodes
    && r.peers[s].live && r.peers[s].phase == Handshake && r.peers[s].status == Open
  }

  lemma ReadyOutput(o: TunnelOptions, r: Relay, s: Sid, result: LookupResult)
    requires PairingInv(o, r) && OutputInv(r) && BecomesReady(r, s, result)
    ensures OutputInv(LookupResumed(r, s, result))
  {
    assert PeerOk(o, r, s) && NodeOutputOk(r, s);
    ReadSnoc(r.peers[s].out, ReadyNotice);
    PrefixesSnoc(r, r.peers[s].out, ReadyNotice);
    WriteKeeps(r, LookupResumed(r, s, result), s);
  }

  lemma LookupOutput(o: TunnelOptions, r: Relay, s: Sid, result: LookupResult)
    requires PairingInv(o, r) && OutputInv(r)
    ensures OutputInv(LookupResumed(r, s, result))
  {
    if BecomesReady(r, s, result) {
      ReadyOutput(o, r, s, result);
    } else if s in r.peers && r.peers[s].lookup.Some? {
      var r0 := r.(peers := r.peers[s := r.peers[s].(lookup := None)]);
      QuietKeeps(r, r0);
      SafeCloseQuiet(r0, s);
    }
  }

  /** Node `n` writes one message and changes phase; the rest of the relay keeps its shape. */
  lemma WriteKeeps(r: Relay, r': Relay, n: Sid)
    requires OutputInv(r) && n in r.peers && r.peers[n].role == NodeRole
    requires r'.peers.Keys == r.peers.Keys && r'.peers[n].role == NodeRole
    requires r'.peers[n].received == r.peers[n].received
    requires forall s {:trigger r'.peers[s]} :: s in r.peers && s != n ==>
      r.peers[s] == r'.peers[s] || Quiet(r.peers[s], r'.peers[s])
    requires PrefixesOk(r, r'.peers[n].out)
    requires r'.peers[n].status == Open ==> PhaseMatches(r', n)
    ensures OutputInv(r')
  {
    PrefixesGrow(r, r', r'.peers[n].out);
    forall x | x in r'.peers
      ensures NodeOutputOk(r', x)
    {
      assert NodeOutputOk(r, x);
      if x != n {
        BystanderKeeps(r, r', x);
      }
    }
  }

  lemma RequestOutput(o: TunnelOptions, r: Relay, c: Sid, id: NodeId, rid: Rid)
    requires PairingInv(o, r) && OutputInv(r) && IsLive(r, c) && r.peers[c].role == ClientRole
    ensures OutputInv(RequestPairing(r, c, id, rid))
  {
    if NodeAvailable(r, id) {
      var n := r.nodes[id];
      assert PeerOk(o, r, n) && NodeOutputOk(r, n);
      if r.peers[n].status == Open {
        ReadSnoc(r.peers[n].out, AuthorizeClient(rid));
        PrefixesSnoc(r, r.peers[n].out, AuthorizeClient(rid));
      }
      WriteKeeps(r, RequestPairing(r, c, id, rid), n);
    } else {
      SafeCloseQuiet(r, c);
    }
  }

  /** A client that no node is paired with gets its queue. */
  lemma NewClientKeeps(o: TunnelOptions, r: Relay, c: Sid, pc: Peer)
    requires PairingInv(o, r) && OutputInv(r) && IsLive(r, c) && r.peers[c].role == ClientRole
    requires r.peers[c].phase == Authorizing
    requires pc.role == ClientRole && pc.received == r.peers[c].received
    ensures OutputInv(r.(peers := r.peers[c := pc]))
  {
    var r' := r.(peers := r.peers[c := pc]);
    forall x | x in r'.peers
      ensures NodeOutputOk(r', x)
    {
      assert NodeOutputOk(r, x) && PeerOk(o, r, x);
      if x != c {
        BystanderKeeps(r, r', x);
      }
    }
  }

  lemma PairOutput(o: TunnelOptions, r: Relay, n: Sid, c: Sid)
    requires PairingInv(o, r) && OutputInv(r) && IsLive(r, n) && IsLive(r, c)
    requires r.peers[n].role == NodeRole && r.peers[n].phase == Ready
    requires r.peers[c].role == ClientRole && r.peers[c].phase == Authorizing
    ensures OutputInv(Pair(r, n, c))
  {
    var pn, pc := r.peers[n], r.peers[c].(timer := Off);
    if pn.status != Open || pc.status != Open {
      QuietKeeps(r, r.(peers := r.peers[c := Shut(pc)]));
    } else {
      var pc' := Emit(pc.(phase := Paired, node := Some(n), queue := Some(EMPTY_QUEUE)), [ReadyNotice]);
      var r1 := r.(peers := r.peers[c := pc']);
      NewClientKeeps(o, r, c, pc');
      PairedNodeOutput(r1, n, c);
      assert Pair(r, n, c).peers == r1.peers[n := Pair(r, n, c).peers[n]];
    }
  }

  lemma PairedNodeOutput(r: Relay, n: Sid, c: Sid)
    requires OutputInv(r) && n in r.peers && r.peers[n].role == NodeRole && r.peers[n].phase == Ready
    requires r.peers[n].status == Open
    requires c in r.peers && r.peers[c].role == ClientRole && r.peers[c].queue == Some(EMPTY_QUEUE)
    ensures var paired := r.peers[n].(phase := Paired, client := Some(c), queue := Some(EMPTY_QUEUE));
      OutputInv(r.(peers := r.peers[n := Emit(paired, [ClientConnected(c)])]))
  {
    var p' := Emit(r.peers[n].(phase := Paired, client := Some(c), queue := Some(EMPTY_QUEUE)), [ClientConnected(c)]);
    assert NodeOutputOk(r, n);
    ReadSnoc(r.peers[n].out, ClientConnected(c));
    PrefixesSnoc(r, r.peers[n].out, ClientConnected(c));
    assert IsSub<Frame>([] + [], r.peers[c].received);
    WriteKeeps(r, r.(peers := r.peers[n := p']), n);
  }

  lemma AnsweredOutput(o: TunnelOptions, r: Relay, n: Sid, rid: Rid, allow: bool)
    requires PairingInv(o, r) && OutputInv(r) && IsLive(r, n) && r.peers[n].role == NodeRole
    requires r.peers[n].phase == Authorizing
    ensures OutputInv(Answered(r, n, rid, allow))
  {
    var p := r.peers[n];
    assert PeerOk(o, r, n);
    if p.pending.value.rid == rid {
      var c := p.pending.value.client;
      var r0 := r.(peers := r.peers[n := p.(pending := None, phase := Ready)]);
      QuietKeeps(r, r0);
      if allow {
        WithdrawnKeeps(o, r, n);
        PairOutput(o, r0, n, c);
      } else {
        SafeCloseQuiet(r0, c);
      }
    }
  }

  /** A text that does not come out of turn, from a node. */
  lemma NodeTextOutput(o: TunnelOptions, r: Relay, s: Sid, text: Text)
    requires PairingInv(o, r) && OutputInv(r) && IsLive(r, s) && r.peers[s].role == NodeRole
    requires !(r.peers[s].phase == Paired || r.peers[s].processing || text.Oversized?)
    ensures OutputInv(DoText(r, s, text))
  {
    var p := r.peers[s];
    var r0 := r.(peers := r.peers[s := p.(processing := true)]);
    QuietKeeps(r, r0);
    if p.phase == Handshake && text.NodeAuth? {
      QuietKeeps(r, r.(peers := r.peers[s := p.(processing := true, lookup := Some(text.nodeId))]));
    } else if p.phase == Authorizing && text.AuthorizeResult? {
      SameShapeKeeps(o, r, r0);
      AnsweredOutput(o, r0, s, text.answered, text.allow);
    } else {
      assert PeerOk(o, r, s);
      SafeCloseQuiet(r0, s);
    }
  }

  lemma ClientTextOutput(o: TunnelOptions, r: Relay, s: Sid, text: Text)
    requires PairingInv(o, r) && OutputInv(r) && IsLive(r, s) && r.peers[s].role == ClientRole
    requires !(r.peers[s].phase == Paired || r.peers[s].processing || text.Oversized?)
    ensures OutputInv(DoText(r, s, text))
  {
    var p := r.peers[s];
    var r0 := r.(peers := r.peers[s := p.(processing := true)]);
    QuietKeeps(r, r0);
    if p.phase == Handshake && text.ClientAuth? {
      SameShapeKeeps(o, r, r0);
      RequestOutput(o, r0, s, text.target, text.rid);
    } else {
      SafeCloseQuiet(r0, s);
    }
  }

  lemma TextOutput(o: TunnelOptions, r: Relay, s: Sid, text: Text)
    requires PairingInv(o, r) && OutputInv(r) && IsLive(r, s)
    ensures OutputInv(DoText(r, s, text))
  {
    var p := r.peers[s];
    if p.phase == Paired || p.processing || text.Oversized? {
      SafeCloseQuiet(r, s);
    } else if p.role == NodeRole {
      NodeTextOutput(o, r, s, text);
    } else {
      ClientTextOutput(o, r, s, text);
    }
  }

  lemma ClientCloseOutput(o: TunnelOptions, r: Relay, c: Sid)
    requires PairingInv(o, r) && OutputInv(r) && IsLive(r, c) && r.peers[c].role == ClientRole
    ensures OutputInv(DoClose(r, c))
  {
    var node := r.peers[c].node;
    var r1 := r.(peers := r.peers[c := ClosedPeer(r.peers[c])]);
    QuietKeeps(r, r1);
    assert PeerOk(o, r, c);
    if node.Some? && IsLive(r, node.value) {
      assert PeerOk(o, r, node.value);
      ClientLeftOutput(r1, node.value, c);
    }
  }

  lemma ClientLeftOutput(r: Relay, n: Sid, c: Sid)
    requires OutputInv(r) && n in r.peers && r.peers[n].role == NodeRole
    requires r.peers[n].client == Some(c) ==> r.peers[n].phase == Paired && r.peers[n].pending.None?
    requires r.peers[n].pending.Some? ==> r.peers[n].phase == Authorizing
    ensures OutputInv(r.(peers := r.peers[n := ClientLeft(r.peers[n], c)]))
  {
    var r' := r.(peers := r.peers[n := ClientLeft(r.peers[n], c)]);
    assert NodeOutputOk(r, n);
    if r.peers[n].client == Some(c) {
      if r.peers[n].status == Open {
        ReadSnoc(r.peers[n].out, ClientDisconnected);
        PrefixesSnoc(r, r.peers[n].out, ClientDisconnected);
      }
      WriteKeeps(r, r', n);
    } else {
      QuietKeeps(r, r');
    }
  }

  lemma NodeCloseOutput(o: TunnelOptions, r: Relay, n: Sid)
    requires PairingInv(o, r) && OutputInv(r) && IsLive(r, n) && r.peers[n].role == NodeRole
    ensures OutputInv(DoClose(r, n))
  {
    var p := r.peers[n];
    assert PeerOk(o, r, n);
    var nodes := if p.nodeId.Some? then r.nodes - {p.nodeId.value} else r.nodes;
    var r1 := r.(peers := r.peers[n := ClosedPeer(p)], nodes := nodes);
    QuietKeeps(r, r1);
    var r2 := if p.client.Some? then SafeClose(r1, p.client.value) else r1;
    if p.client.Some? { SafeCloseQuiet(r1, p.client.value); }
    if p.pending.Some? { SafeCloseQuiet(r2, p.pending.value.client); }
  }

  lemma AcceptOutput(o: TunnelOptions, r: Relay, s: Sid, role: Role)
    requires PairingInv(o, r) && OutputInv(r)
    ensures OutputInv(DoAccept(r, s, role))
  {
    var r' := DoAccept(r, s, role);
    assert [Challenge] == [] + [Challenge];
    ReadSnoc([], Challenge);
    PrefixesSnoc(r', [], Challenge);
    forall x | x in r'.peers
      ensures NodeOutputOk(r', x)
    {
      if x in r.peers {
        assert NodeOutputOk(r, x) && PeerOk(o, r, x);
        BystanderKeeps(r, r', x);
      }
    }
  }

  /** The authorization timer of a client finds its request pending: node and client forget each other. */
  lemma WithdrawOutput(o: TunnelOptions, r: Relay, n: Sid, s: Sid)
    requires PairingInv(o, r) && OutputInv(r) && n in r.peers && s in r.peers && n != s
    requires r.peers[n].role == NodeRole && r.peers[s].role == ClientRole && r.peers[n].pending.Some?
    ensures OutputInv(r.(peers := r.peers[n := r.peers[n].(pending := None, phase := Ready)]
                                         [s := Shut(r.peers[s].(timer := Off, node := None))]))
  {
    assert PeerOk(o, r, n);
    var r1 := r.(peers := r.peers[n := r.peers[n].(pending := None, phase := Ready)]);
    QuietKeeps(r, r1);
    QuietKeeps(r1, r1.(peers := r1.peers[s := Shut(r.peers[s].(timer := Off, node := None))]));
  }

  /** Any other timer closes its socket. */
  lemma ExpireOutput(r: Relay, s: Sid)
    requires OutputInv(r) && s in r.peers
    ensures OutputInv(SafeClose(r.(peers := r.peers[s := r.peers[s].(timer := Off)]), s))
  {
    QuietKeeps(r, r.(peers := r.peers[s := r.peers[s].(timer := Off)]));
    SafeCloseQuiet(r.(peers := r.peers[s := r.peers[s].(timer := Off)]), s);
  }

  lemma TimerOutput(o: TunnelOptions, r: Relay, s: Sid)
    requires PairingInv(o, r) && OutputInv(r) && s in r.peers && r.peers[s].timer != Off
    ensures OutputInv(DoTimer(r, s))
  {
    assert PeerOk(o, r, s);
    if Withdraws(r, s) {
      WithdrawOutput(o, r, r.peers[s].timer.node, s);
    } else {
      ExpireOutput(r, s);
    }
  }

  lemma BinaryOutput(o: TunnelOptions, r: Relay, s: Sid, f: Frame, buffered: nat, throws: bool)
    requires PairingInv(o, r) && OutputInv(r) && IsLive(r, s)
    ensures OutputInv(DoBinary(o, r, s, f, buffered, throws))
  {
    if r.peers[s].phase != Paired {
      SafeCloseQuiet(r, s);
    } else if r.peers[s].role == NodeRole {
      NodeBinary(o, r, s, f, buffered, throws);
    } else {
      ClientBinary(o, r, s, f, buffered, throws);
    }
  }

  lemma PollOutput(r: Relay, active: Option<set<NodeId>>)
    requires OutputInv(r)
    ensures OutputInv(DoPollDone(r, active))
  {
    QuietKeeps(r, DoPollDone(r, active));
  }

  lemma StepKeepsOutput(o: TunnelOptions, r: Relay, e: Event)
    requires PairingInv(o, r) && OutputInv(r)
    ensures OutputInv(Step(o, r, e))
  {
    match e
    case Accept(s, role) => AcceptOutput(o, r, s, role);
    case TextMessage(s, text) =>
      if IsLive(r, s) && !(text.ClientAuth? && text.rid in r.requests) { TextOutput(o, r, s, text); }
    case BinaryMessage(s, f, buffered, throws) => if IsLive(r, s) { BinaryOutput(o, r, s, f, buffered, throws); }
    case LookupDone(s, result) => LookupOutput(o, r, s, result);
    case TimerFires(s) => if s in r.peers && r.peers[s].timer != Off { TimerOutput(o, r, s); }
    case DrainFires(s, buffered, failing) => DrainOutput(o, r, s, buffered, failing);
    case BeginClose(s) => SafeCloseQuiet(r, s);
    case CloseEvent(s) =>
      if IsLive(r, s) {
        if r.peers[s].role == ClientRole { ClientCloseOutput(o, r, s); } else { NodeCloseOutput(o, r, s); }
      }
    case PollDone(active) => PollOutput(r, active);
    case _ => QuietKeeps(r, Step(o, r, e));
  }

  /**
   Over every run, what each node reads is a sequence of authorization requests and blocks, the last
   one possibly cut off, and every block holds frames of its own client only, in the order sent.
   */
  lemma {:induction false} OutputParsesOnEveryRun(o: TunnelOptions, events: seq<Event>)
    ensures OutputInv(Run(o, events))
    decreases |events|
  {
    if events != [] {
      var n := |events| - 1;
      OutputParsesOnEveryRun(o, events[..n]);
      PairingHoldsOnEveryRun(o, events[..n]);
      StepKeepsOutput(o, Run(o, events[..n]), events[n]);
    }
  }

  /** The same, said of every prefix of a node's output. */
  lemma {:induction false} EveryPrefixIsWellFormed(o: TunnelOptions, events: seq<Event>, n: Sid, k: nat)
    requires n in Run(o, events).peers && Run(o, events).peers[n].role == NodeRole
    requires k <= |Run(o, events).peers[n].out|
    ensures BlockOk(Run(o, events), Read(Run(o, events).peers[n].out[..k]))
  {
    var r := Run(o, events);
    OutputParsesOnEveryRun(o, events);
    assert NodeOutputOk(r, n);
    PrefixOk(r, r.peers[n].out, k);
  }

  lemma {:induction false} PrefixOk(r: Relay, out: seq<Msg>, k: nat)
    requires PrefixesOk(r, out) && k <= |out|
    ensures BlockOk(r, Read(out[..k]))
    decreases |out|
  {
    if k == |out| {
      assert out[..k] == out;
    } else {
      PrefixOk(r, out[..|out| - 1], k);
      assert out[..|out| - 1][..k] == out[..k];
    }
  }
}
