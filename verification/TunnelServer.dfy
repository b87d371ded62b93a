/**
 The relay as the source writes it (apps/pi-tunnel/src/server.ts): connection records are shared objects
 that handlers and timers update in place, `states` and `nodes` are maps the handlers reassign. Every
 handler is proved against the step function of module TunnelModel.
 */
module TunnelServer {
  import opened Prelude
  import opened ForwardQueue
  import opened M = TunnelModel
  import opened TunnelPairing

  /**
   A connection state object together with its socket. The fields of the source's record are the
   fields of `state`; they are written in place, one record update at a time.
   */
  class Connection {
    const socket: Sid
    var state: Peer

    constructor (socket: Sid, state: Peer)
      ensures this.socket == socket && this.state == state
    {
      this.socket, this.state := socket, state;
    }
  }

  /** Writing a key twice is writing it once. */
  lemma Twice(m: map<Sid, Peer>, s: Sid, a: Peer, b: Peer)
    ensures m[s := a][s := b] == m[s := b]
  {
  }

  /** The same with writes to another key before and after. */
  lemma TwiceAround(m: map<Sid, Peer>, n: Sid, c: Sid, pn: Peer, pc: Peer, pn': Peer, pc': Peer)
    requires n != c
    ensures m[n := pn][c := pc][c := pc'][n := pn'] == m[c := pc'][n := pn']
  {
  }

  lemma Unwritten(m: map<Sid, Peer>, s: Sid)
    requires s in m
    ensures m[s := m[s]] == m
  {
  }

  ghost predicate IsPart(todo: map<NodeId, Sid>, snapshot: map<NodeId, Sid>) {
    todo.Keys <= snapshot.Keys && forall id :: id in todo ==> todo[id] == snapshot[id]
  }

  /** The sockets revoked by the part `done` of the snapshot are closing, the others are as in `r`. */
  ghost predicate PollProgress(r: Relay, r': Relay, done: map<NodeId, Sid>, active: Option<set<NodeId>>) {
    && r'.peers.Keys == r.peers.Keys
    && forall s {:trigger r'.peers[s]} :: s in r.peers ==>
         r'.peers[s] == if Revoked(r, done, active, s) then Shut(r.peers[s]) else r.peers[s]
  }

  lemma PollAdvances(r: Relay, before: Relay, after: Relay, snapshot: map<NodeId, Sid>, todo: map<NodeId, Sid>,
                     active: Option<set<NodeId>>, id: NodeId)
    requires IsPart(todo, snapshot) && id in todo && PollProgress(r, before, snapshot - todo.Keys, active)
    requires after == if id in r.nodes && r.nodes[id] == todo[id] && (active.None? || id !in active.value)
                      then M.SafeClose(before, todo[id]) else before
    ensures PollProgress(r, after, snapshot - (todo - {id}).Keys, active)
  {
    var done, done' := snapshot - todo.Keys, snapshot - (todo - {id}).Keys;
    assert done' == done[id := todo[id]];
    forall s | s in r.peers
      ensures after.peers[s] == if Revoked(r, done', active, s) then Shut(r.peers[s]) else r.peers[s]
    {
      assert Revoked(r, done', active, s) <==>
        Revoked(r, done, active, s)
        || (todo[id] == s && id in r.nodes && r.nodes[id] == s && (active.None? || id !in active.value)) by {
        forall x | x in done ensures x in done' && done'[x] == done[x] {}
        assert id in done';
      }
    }
  }

  lemma PollCompletes(r: Relay, r': Relay, active: Option<set<NodeId>>)
    requires r.poll.Some? && PollProgress(r, r', r.poll.value, active)
    ensures r'.peers == DoPollDone(r, active).peers
  {
  }

  // ----- consistency, said of the functions the handlers are proved equal to -----

  lemma AcceptConsistent(o: TunnelOptions, r: Relay, s: Sid, role: Role)
    ensures PairingInv(o, r) ==> PairingInv(o, DoAccept(r, s, role))
  {
    if PairingInv(o, r) { AcceptKeeps(o, r, s, role); }
  }

  lemma SafeCloseConsistent(o: TunnelOptions, r: Relay, s: Sid)
    ensures PairingInv(o, r) ==> PairingInv(o, M.SafeClose(r, s))
  {
    if PairingInv(o, r) { SafeCloseKeeps(o, r, s); }
  }

  lemma LookupConsistent(o: TunnelOptions, r: Relay, s: Sid, result: LookupResult)
    ensures PairingInv(o, r) ==> PairingInv(o, LookupResumed(r, s, result))
  {
    if PairingInv(o, r) { LookupKeeps(o, r, s, result); }
  }

  lemma SettleConsistent(o: TunnelOptions, r: Relay, s: Sid)
    ensures PairingInv(o, r) ==> PairingInv(o, DoSettle(r, s))
  {
    if PairingInv(o, r) { SameShapeKeeps(o, r, DoSettle(r, s)); }
  }

  lemma DrainConsistent(o: TunnelOptions, r: Relay, s: Sid, buffered: nat, failing: nat)
    ensures PairingInv(o, r) ==> PairingInv(o, DoDrain(o, r, s, buffered, failing))
  {
    if PairingInv(o, r) { DrainKeeps(o, r, s, buffered, failing); }
  }

  lemma TimerConsistent(o: TunnelOptions, r: Relay, s: Sid)
    ensures PairingInv(o, r) ==> PairingInv(o, DoTimer(r, s))
  {
    if PairingInv(o, r) { TimerKeeps(o, r, s); }
  }

  lemma CloseConsistent(o: TunnelOptions, r: Relay, s: Sid)
    ensures PairingInv(o, r) ==> PairingInv(o, DoClose(r, s))
  {
    if PairingInv(o, r) && IsLive(r, s) {
      if r.peers[s].role == ClientRole { ClientCloseKeeps(o, r, s); } else { NodeCloseKeeps(o, r, s); }
    }
  }

  lemma PollStartConsistent(o: TunnelOptions, r: Relay)
    ensures PairingInv(o, r) ==> PairingInv(o, Step(o, r, PollStart))
  {
    if PairingInv(o, r) { StepKeepsPairing(o, r, PollStart); }
  }

  lemma PollDoneConsistent(o: TunnelOptions, r: Relay, active: Option<set<NodeId>>)
    ensures PairingInv(o, r) ==> PairingInv(o, DoPollDone(r, active))
  {
    if PairingInv(o, r) { StepKeepsPairing(o, r, PollDone(active)); }
  }

  lemma BinaryConsistent(o: TunnelOptions, r: Relay, s: Sid, f: Frame, buffered: nat, throws: bool)
    requires IsLive(r, s)
    ensures PairingInv(o, r) ==> PairingInv(o, DoBinary(o, r, s, f, buffered, throws))
  {
    if PairingInv(o, r) { BinaryKeeps(o, r, s, f, buffered, throws); }
  }

  lemma TextConsistent(o: TunnelOptions, r: Relay, s: Sid, text: Text)
    requires IsLive(r, s)
    ensures PairingInv(o, r) && (text.ClientAuth? ==> text.rid !in r.requests) ==> PairingInv(o, DoText(r, s, text))
  {
    if PairingInv(o, r) && (text.ClientAuth? ==> text.rid !in r.requests) { TextKeeps(o, r, s, text); }
  }

  class Server {
    const options: TunnelOptions
    var states: map<Sid, Connection>
    var nodes: map<NodeId, Sid>
    var requests: map<Rid, Sid>
    var poll: Option<map<NodeId, Sid>>
    /** Every record ever created; timers and other records may still refer to one that left `states`. */
    var everyone: map<Sid, Connection>
    /** The state of the transition system; `Valid` ties it to the fields above. */
    ghost var model: Relay

    ghost predicate Agrees(s: Sid)
      requires s in everyone && s in model.peers
      reads this, everyone[s]
    {
      && everyone[s].socket == s
      && everyone[s].state == model.peers[s]
      && (s in states <==> everyone[s].state.live)
      && (s in states ==> states[s] == everyone[s])
    }

    ghost predicate Valid()
      reads this, everyone.Values
    {
      && everyone.Keys == model.peers.Keys
      && states.Keys <= everyone.Keys
      && model.nodes == nodes && model.requests == requests && model.poll == poll
      && forall s {:trigger Agrees(s)} {:trigger s in everyone} :: s in everyone ==> Agrees(s)
    }

    /** Maps and records agree on who is paired with whom. */
    ghost predicate Consistent()
      reads this
    {
      PairingInv(options, model)
    }

    /** What consistency says of the maps and records themselves. */
    lemma ConsistentFields()
      requires Valid() && Consistent()
      ensures forall id :: id in nodes ==>
        && nodes[id] in states
        && var node := states[nodes[id]].state;
           node.role == NodeRole && node.nodeId == Some(id) && node.phase != Handshake
      ensures forall n :: n in states && states[n].state.role == NodeRole && states[n].state.client.Some? ==>
        && states[n].state.phase == Paired
        && states[n].state.client.value in states
        && var client := states[states[n].state.client.value].state;
           client.role == ClientRole && client.phase == Paired && client.node == Some(n)
      ensures forall n :: n in states && states[n].state.role == NodeRole && states[n].state.pending.Some? ==>
        && states[n].state.phase == Authorizing
        && states[n].state.pending.value.client in states
        && var client := states[states[n].state.pending.value.client].state;
           client.role == ClientRole && client.phase == Authorizing && client.node == Some(n)
    {
      forall id | id in nodes
        ensures nodes[id] in states
          && var node := states[nodes[id]].state;
             node.role == NodeRole && node.nodeId == Some(id) && node.phase != Handshake
      {
        assert Agrees(nodes[id]) && PeerOk(options, model, nodes[id]);
      }
      forall n | n in states && states[n].state.role == NodeRole && states[n].state.client.Some?
        ensures states[n].state.phase == Paired && states[n].state.client.value in states
          && var client := states[states[n].state.client.value].state;
             client.role == ClientRole && client.phase == Paired && client.node == Some(n)
      {
        assert Agrees(n) && PeerOk(options, model, n) && Agrees(states[n].state.client.value);
      }
      forall n | n in states && states[n].state.role == NodeRole && states[n].state.pending.Some?
        ensures states[n].state.phase == Authorizing && states[n].state.pending.value.client in states
          && var client := states[states[n].state.pending.value.client].state;
             client.role == ClientRole && client.phase == Authorizing && client.node == Some(n)
      {
        assert Agrees(n) && PeerOk(options, model, n) && Agrees(states[n].state.pending.value.client);
      }
    }

    constructor (options: TunnelOptions)
      ensures this.options == options && Valid() && model == INITIAL && Consistent()
    {
      this.options := options;
      states, nodes, requests, poll, everyone := map[], map[], map[], None, map[];
      model := INITIAL;
    }

    /** Writes record `s` and keeps the model in step. */
    method Write(s: Sid, p: Peer)
      requires Valid() && s in everyone && (p.live <==> s in states)
      modifies this`model, everyone[s]
      ensures Valid() && model == old(model).(peers := old(model).peers[s := p])
    {
      everyone[s].state := p;
      model := model.(peers := model.peers[s := p]);
    }

    method SafeClose(s: Sid)
      requires Valid()
      modifies this`model, everyone.Values
      ensures Valid() && model == M.SafeClose(old(model), s)
      ensures old(Consistent()) ==> Consistent()
    {
      SafeCloseConsistent(options, model, s);
      if s in everyone {
        if everyone[s].state.status == Open {
          Write(s, everyone[s].state.(status := Closing));
        }
        assert model.peers == M.SafeClose(old(model), s).peers;
      }
    }

    method SendControl(s: Sid, m: Msg)
      requires Valid() && s in everyone
      modifies this`model, everyone[s]
      ensures Valid() && model == old(model).(peers := old(model).peers[s := Emit(old(model).peers[s], [m])])
    {
      if everyone[s].state.status == Open {
        Write(s, everyone[s].state.(out := everyone[s].state.out + [m]));
      }
      assert model.peers == old(model).peers[s := Emit(old(model).peers[s], [m])];
    }

    method AcceptSocket(s: Sid, role: Role)
      requires Valid() && s !in everyone
      modifies this
      ensures Valid() && model == DoAccept(old(model), s, role)
      ensures fresh(everyone.Values - old(everyone.Values))
      ensures old(Consistent()) ==> Consistent()
    {
      AcceptConsistent(options, model, s, role);
      var state := new Connection(s, NewPeer(role));
      states := states[s := state];
      everyone := everyone[s := state];
      model := model.(peers := model.peers[s := NewPeer(role)]);
    }

    /** `pair` when both sockets are open. */
    method PairOpenSockets(n: Sid, c: Sid)
      requires Valid() && n in everyone && c in everyone && n != c
      modifies this`model, everyone[n], everyone[c]
      ensures Valid()
      ensures var pn := old(model).peers[n].(phase := Paired, client := Some(c), queue := Some(EMPTY_QUEUE));
        var pc := old(model).peers[c].(phase := Paired, node := Some(n), queue := Some(EMPTY_QUEUE));
        model == old(model).(
          peers := old(model).peers[c := Emit(pc, [ReadyNotice])][n := Emit(pn, [ClientConnected(c)])])
    {
      ghost var r := model;
      assert Agrees(n) && Agrees(c);
      Write(n, everyone[n].state.(phase := Paired, client := Some(c), queue := Some(EMPTY_QUEUE)));
      Write(c, everyone[c].state.(phase := Paired, node := Some(n), queue := Some(EMPTY_QUEUE)));
      SendControl(c, ReadyNotice);
      SendControl(n, ClientConnected(c));
      ghost var pn := r.peers[n].(phase := Paired, client := Some(c), queue := Some(EMPTY_QUEUE));
      ghost var pc := r.peers[c].(phase := Paired, node := Some(n), queue := Some(EMPTY_QUEUE));
      TwiceAround(r.peers, n, c, pn, pc, Emit(pn, [ClientConnected(c)]), Emit(pc, [ReadyNotice]));
    }

    method PairSockets(n: Sid, c: Sid)
      requires Valid() && n in states && c in states && n != c
      modifies this`model, everyone.Values
      ensures Valid() && IsLive(old(model), n) && IsLive(old(model), c) && model == Pair(old(model), n, c)
    {
      ghost var r := model;
      assert Agrees(n) && Agrees(c);
      Write(c, everyone[c].state.(timer := Off));
      ghost var pc := r.peers[c].(timer := Off);
      if everyone[n].state.status != Open || everyone[c].state.status != Open {
        SafeClose(c);
        Twice(r.peers, c, pc, Shut(pc));
      } else {
        PairOpenSockets(n, c);
        Twice(r.peers, c, pc, Emit(pc.(phase := Paired, node := Some(n), queue := Some(EMPTY_QUEUE)), [ReadyNotice]));
      }
    }

    /** `handleNodeControl` in phase authorizing. */
    method HandleAuthorizationResult(n: Sid, rid: Rid, allow: bool)
      requires Valid() && n in states && everyone[n].state.role == NodeRole
      modifies this`model, everyone.Values
      ensures Valid() && IsLive(old(model), n) && model == Answered(old(model), n, rid, allow)
      ensures old(Consistent() && everyone[n].state.phase == Authorizing) ==> Consistent()
    {
      if Consistent() && everyone[n].state.phase == Authorizing { AnsweredKeeps(options, model, n, rid, allow); }
      assert Agrees(n);
      var pending := everyone[n].state.pending;
      if pending.None? || pending.value.rid != rid {
        return;
      }
      Write(n, everyone[n].state.(pending := None, phase := Ready));
      var c := pending.value.client;
      if c in everyone { assert Agrees(c); }
      if c !in states || everyone[c].state.role != ClientRole || everyone[c].state.phase != Authorizing {
        return;
      }
      if !allow {
        SafeClose(c);
      } else {
        PairSockets(n, c);
      }
    }

    /** `handleClientControl` once the node is known to be available. */
    method AskNode(c: Sid, n: Sid, id: NodeId, rid: Rid)
      requires Valid() && c in states && n in states
      modifies this`model, this`requests, everyone[c], everyone[n]
      ensures Valid()
      ensures var r := old(model);
        var pc := r.peers[c].(timer := AuthorizationTimer(rid, n), phase := Authorizing, nodeId := Some(id),
          node := Some(n));
        var pn := r.peers[n].(phase := Authorizing, pending := Some(Pending(rid, c)));
        model == r.(peers := r.peers[c := pc][n := Emit(pn, [AuthorizeClient(rid)])], requests := r.requests[rid := c])
    {
      assert Agrees(c) && Agrees(n);
      ghost var peers := model.peers;
      var asking := everyone[c].state.(timer := AuthorizationTimer(rid, n), phase := Authorizing, nodeId := Some(id),
        node := Some(n));
      var asked := everyone[n].state.(phase := Authorizing, pending := Some(Pending(rid, c)));
      requests := requests[rid := c];
      model := model.(requests := requests);
      Write(c, asking);
      Write(n, asked);
      SendControl(n, AuthorizeClient(rid));
      Twice(peers[c := asking], n, asked, Emit(asked, [AuthorizeClient(rid)]));
    }

    /** `handleClientControl`. */
    method HandleClientAuth(c: Sid, id: NodeId, rid: Rid)
      requires Valid() && c in states && everyone[c].state.role == ClientRole
      modifies this`model, this`requests, everyone.Values
      ensures Valid() && IsLive(old(model), c) && model == RequestPairing(old(model), c, id, rid)
      ensures old(Consistent() && everyone[c].state.phase == Handshake && rid !in requests) ==> Consistent()
    {
      if Consistent() && everyone[c].state.phase == Handshake && rid !in requests {
        RequestKeeps(options, model, c, id, rid);
      }
      assert Agrees(c);
      if id in nodes && nodes[id] in everyone { assert Agrees(nodes[id]); }
      if id in nodes && nodes[id] in states {
        var nodeState := everyone[nodes[id]].state;
        if nodeState.role == NodeRole && nodeState.phase == Ready && nodeState.client.None? && nodeState.pending.None? {
          AskNode(c, nodes[id], id, rid);
          return;
        }
      }
      SafeClose(c);
    }

    /** `handleMessage` for a text frame. */
    method HandleText(s: Sid, text: Text)
      requires Valid() && s in states
      modifies this`model, this`requests, everyone.Values
      ensures Valid() && IsLive(old(model), s) && model == DoText(old(model), s, text)
      ensures old(Consistent()) && (text.ClientAuth? ==> text.rid !in old(requests)) ==> Consistent()
    {
      assert Agrees(s);
      TextConsistent(options, model, s, text);
      var state := everyone[s].state;
      if state.phase == Paired || state.processing || text.Oversized? {
        SafeClose(s);
        return;
      }
      Write(s, state.(processing := true));
      if state.role == NodeRole && state.phase == Handshake && text.NodeAuth? {
        // the device lookup starts here and `HandleLookupDone` resumes after it
        Write(s, everyone[s].state.(lookup := Some(text.nodeId)));
        Twice(old(model).peers, s, state.(processing := true), state.(processing := true, lookup := Some(text.nodeId)));
      } else if state.role == NodeRole && state.phase != Handshake && text.AuthorizeResult? {
        if state.phase == Authorizing {
          HandleAuthorizationResult(s, text.answered, text.allow);
        } else if state.phase == Ready {
          return;
        }
      } else if state.role == ClientRole && state.phase == Handshake && text.ClientAuth? {
        HandleClientAuth(s, text.target, text.rid);
      } else {
        SafeClose(s);
      }
    }

    method HandleLookupDone(s: Sid, result: LookupResult)
      requires Valid() && s in everyone && everyone[s].state.lookup.Some?
      modifies this`model, this`nodes, everyone.Values
      ensures Valid() && model == LookupResumed(old(model), s, result)
      ensures old(Consistent()) ==> Consistent()
    {
      LookupConsistent(options, model, s, result);
      assert Agrees(s);
      var id := everyone[s].state.lookup.value;
      Write(s, everyone[s].state.(lookup := None));
      var state := everyone[s].state;
      if result == LookupFailed {
        SafeClose(s);
        return;
      }
      if s !in states || state.phase != Handshake || state.status != Open {
        return;
      }
      if result == DeviceMismatch || id in nodes {
        SafeClose(s);
        return;
      }
      Register(s, id);
      Twice(old(model).peers, s, state, Emit(state.(timer := Off, nodeId := Some(id), phase := Ready), [ReadyNotice]));
    }

    /** An identified node enters the registry. */
    method Register(s: Sid, id: NodeId)
      requires Valid() && s in everyone
      modifies this`model, this`nodes, everyone[s]
      ensures Valid()
      ensures var p := old(model).peers[s].(timer := Off, nodeId := Some(id), phase := Ready);
        model == old(model).(peers := old(model).peers[s := Emit(p, [ReadyNotice])], nodes := old(model).nodes[id := s])
    {
      assert Agrees(s);
      var ready := everyone[s].state.(timer := Off, nodeId := Some(id), phase := Ready);
      Write(s, ready);
      nodes := nodes[id := s];
      model := model.(nodes := nodes);
      SendControl(s, ReadyNotice);
      Twice(old(model).peers, s, ready, Emit(ready, [ReadyNotice]));
    }

    method HandleSettled(s: Sid)
      requires Valid() && s in everyone && everyone[s].state.lookup.None?
      modifies this`model, everyone.Values
      ensures Valid() && model == DoSettle(old(model), s)
      ensures old(Consistent()) ==> Consistent()
    {
      SettleConsistent(options, model, s);
      assert Agrees(s);
      Write(s, everyone[s].state.(processing := false));
    }

    /** Stores queue and writes of one `forward` or drain. */
    method ApplyLink(s: Sid, l: Link)
      requires Valid() && CanForward(model, s)
      modifies this`model, everyone.Values
      ensures Valid() && model == PutLink(old(model), s, l)
    {
      assert Agrees(s);
      var t := TargetOf(everyone[s].state).value;
      assert Agrees(t);
      var target := everyone[t].state;
      Write(s, everyone[s].state.(queue := Some(l.queue)));
      assert Agrees(t);
      Write(t, Emit(target, AsMessages(l.target.sent)));
    }

    method DropPairedClient(s: Sid, state: Peer)
      requires Valid()
      modifies this`model, everyone.Values
      ensures Valid() && model == DropClient(old(model), state, s)
    {
      if state.role == ClientRole {
        SafeClose(s);
      } else if state.client.Some? {
        SafeClose(state.client.value);
      }
    }

    /** `queue.forward(data)` for the queue of peer `s`. */
    method ForwardFrame(s: Sid, frame: Frame, buffered: nat, throws: bool) returns (accepted: bool)
      requires Valid() && CanForward(model, s)
      modifies this`model, everyone.Values
      ensures Valid()
      ensures var fw := Forward(options.queue, LinkOf(old(model), s, buffered), frame, throws);
        accepted == fw.accepted && model == PutLink(old(model), s, fw.link)
    {
      assert Agrees(s) && Agrees(TargetOf(everyone[s].state).value);
      var state := everyone[s].state;
      var target := everyone[TargetOf(state).value].state;
      var link := Link(state.queue.value, Target(target.status == Open, buffered, []));
      var forwarded := Forward(options.queue, link, frame, throws);
      ApplyLink(s, forwarded.link);
      accepted := forwarded.accepted;
    }

    /** `handleMessage` for a binary frame; `buffered` is the target's bufferedAmount. */
    method HandleBinary(s: Sid, frame: Frame, buffered: nat, throws: bool)
      requires Valid() && s in states
      modifies this`model, everyone.Values
      ensures Valid() && IsLive(old(model), s) && model == DoBinary(options, old(model), s, frame, buffered, throws)
      ensures old(Consistent()) ==> Consistent()
    {
      assert Agrees(s);
      BinaryConsistent(options, model, s, frame, buffered, throws);
      var state := everyone[s].state;
      if state.phase == Paired {
        Write(s, state.(received := state.received + [frame]));
        if frame.size > options.maxFrameBytes {
          SafeClose(s);
          return;
        }
        var accepted := false;
        if state.queue.Some? && TargetOf(state).Some? && TargetOf(state).value in everyone {
          accepted := ForwardFrame(s, frame, buffered, throws);
        }
        if !accepted {
          DropPairedClient(s, state);
        }
        return;
      }
      if state.role == NodeRole && (state.phase == Ready || state.phase == Authorizing) {
        return;
      }
      SafeClose(s);
    }

    method HandleDrain(s: Sid, buffered: nat, failing: nat)
      requires Valid()
      modifies this`model, everyone.Values
      ensures Valid() && model == DoDrain(options, old(model), s, buffered, failing)
      ensures old(Consistent()) ==> Consistent()
    {
      DrainConsistent(options, model, s, buffered, failing);
      if s !in everyone {
        return;
      }
      assert Agrees(s);
      var state := everyone[s].state;
      var target := TargetOf(state);
      if state.queue.None? || target.None? || target.value !in everyone || !state.queue.value.timerArmed {
        return;
      }
      assert Agrees(target.value);
      var link := Link(state.queue.value, Target(everyone[target.value].state.status == Open, buffered, []));
      ApplyLink(s, Drain(options.queue, link, failing).link);
    }

    /** The callbacks of `handshakeTimer`. */
    method HandleTimer(s: Sid)
      requires Valid() && s in everyone && everyone[s].state.timer != Off
      modifies this`model, everyone.Values
      ensures Valid() && model == DoTimer(old(model), s)
      ensures old(Consistent()) ==> Consistent()
    {
      TimerConsistent(options, model, s);
      assert Agrees(s);
      var state := everyone[s].state;
      if state.timer.AuthorizationTimer? && state.phase == Authorizing && state.timer.node in everyone {
        assert Agrees(state.timer.node);
        var pending := everyone[state.timer.node].state.pending;
        if pending.Some? && pending.value.rid == state.timer.rid {
          WithdrawRequest(state.timer.node, s);
          return;
        }
      }
      Write(s, state.(timer := Off));
      SafeClose(s);
      Twice(old(model).peers, s, state.(timer := Off), Shut(state.(timer := Off)));
    }

    /** The authorization timer of client `s` finds its request still pending at node `n`. */
    method WithdrawRequest(n: Sid, s: Sid)
      requires Valid() && n in everyone && s in everyone
      modifies this`model, everyone[n], everyone[s]
      ensures Valid()
      ensures var r := old(model);
        model == r.(peers := r.peers[n := r.peers[n].(pending := None, phase := Ready)]
                                    [s := Shut(r.peers[s].(timer := Off, node := None))])
    {
      assert Agrees(n) && Agrees(s);
      var client := everyone[s].state.(timer := Off, node := None);
      Write(n, everyone[n].state.(pending := None, phase := Ready));
      assert Agrees(s);
      Write(s, Shut(client));
    }

    /** The client branch of `cleanup`, after the closed client has left `states`. */
    method ForgetClient(n: Sid, c: Sid)
      requires Valid() && n in everyone
      modifies this`model, everyone[n]
      ensures Valid() && model == old(model).(peers := old(model).peers[n := ClientLeft(old(model).peers[n], c)])
    {
      assert Agrees(n);
      ghost var peers := model.peers;
      Unwritten(peers, n);
      if everyone[n].state.client == Some(c) {
        Write(n, everyone[n].state.(queue := None, client := None, phase := Ready));
        ghost var ready := everyone[n].state;
        SendControl(n, ClientDisconnected);
        Twice(peers, n, ready, Emit(ready, [ClientDisconnected]));
      }
      ghost var left := everyone[n].state;
      assert model.peers == peers[n := left];
      var pending := everyone[n].state.pending;
      if pending.Some? && pending.value.client == c {
        Write(n, everyone[n].state.(pending := None, phase := Ready));
        Twice(peers, n, left, left.(pending := None, phase := Ready));
      }
    }

    /** The common part of `cleanup`. */
    method LeaveStates(s: Sid)
      requires Valid() && s in states
      modifies this`model, this`states, everyone[s]
      ensures Valid() && states == old(states) - {s} && IsLive(old(model), s)
      ensures model == old(model).(peers := old(model).peers[s := ClosedPeer(old(model).peers[s])])
    {
      assert Agrees(s);
      states := states - {s};
      everyone[s].state := ClosedPeer(everyone[s].state);
      model := model.(peers := model.peers[s := everyone[s].state]);
    }

    /** The node branch of `cleanup`. */
    method ForgetNode(s: Sid, state: Peer)
      requires Valid()
      modifies this`model, this`nodes, everyone.Values
      ensures Valid()
      ensures var r0 := old(model);
        var r1 := if state.nodeId.Some? && state.nodeId.value in r0.nodes && r0.nodes[state.nodeId.value] == s
                  then r0.(nodes := r0.nodes - {state.nodeId.value}) else r0;
        var r2 := if state.client.Some? then M.SafeClose(r1, state.client.value) else r1;
        model == if state.pending.Some? then M.SafeClose(r2, state.pending.value.client) else r2
    {
      if state.nodeId.Some? && state.nodeId.value in nodes && nodes[state.nodeId.value] == s {
        nodes := nodes - {state.nodeId.value};
        model := model.(nodes := nodes);
      }
      if state.client.Some? {
        SafeClose(state.client.value);
      }
      if state.pending.Some? {
        SafeClose(state.pending.value.client);
      }
    }

    /** `cleanup`, the handler of the close event. */
    method Cleanup(s: Sid)
      requires Valid() && s in states
      modifies this`model, this`states, this`nodes, everyone.Values
      ensures Valid() && model == DoClose(old(model), s)
      ensures old(Consistent()) ==> Consistent()
    {
      CloseConsistent(options, model, s);
      assert Agrees(s);
      var state := everyone[s].state;
      LeaveStates(s);
      if state.role == NodeRole {
        ForgetNode(s, state);
      } else if state.node.Some? && state.node.value in everyone {
        var n := state.node.value;
        assert Agrees(n);
        if n in states && everyone[n].state.role == NodeRole {
          ForgetClient(n, s);
        }
      }
    }

    method StartPoll()
      requires Valid()
      modifies this`model, this`poll
      ensures Valid()
      ensures model == if old(model).poll.Some? then old(model) else old(model).(poll := Some(old(model).nodes))
      ensures old(Consistent()) ==> Consistent()
    {
      PollStartConsistent(options, model);
      if poll.None? {
        poll := Some(nodes);
        model := model.(poll := poll);
      }
    }

    /** Closes a node that is still registered under its id but no longer active. */
    method CloseRevoked(id: NodeId, socket: Sid, active: Option<set<NodeId>>)
      requires Valid()
      modifies this`model, everyone.Values
      ensures Valid()
      ensures model == if id in nodes && nodes[id] == socket && (active.None? || id !in active.value)
                       then M.SafeClose(old(model), socket) else old(model)
    {
      if id in nodes && nodes[id] == socket && (active.None? || id !in active.value) {
        SafeClose(socket);
      }
    }

    /** The loop over the nodes that were registered when the poll began. */
    method CloseAllRevoked(snapshot: map<NodeId, Sid>, active: Option<set<NodeId>>)
      requires Valid()
      modifies this`model, everyone.Values
      ensures Valid() && model == old(model).(peers := model.peers)
      ensures PollProgress(old(model), model, snapshot, active)
    {
      ghost var r := model;
      var todo := snapshot;
      while todo.Keys != {}
        invariant Valid() && IsPart(todo, snapshot)
        invariant model == r.(peers := model.peers) && PollProgress(r, model, snapshot - todo.Keys, active)
        decreases todo.Keys
      {
        var id :| id in todo;
        ghost var before := model;
        CloseRevoked(id, todo[id], active);
        PollAdvances(r, before, model, snapshot, todo, active, id);
        todo := todo - {id};
      }
      assert snapshot - todo.Keys == snapshot;
    }

    /** `pollRevocations` after the query; `active` is None when the query failed. */
    method FinishPoll(active: Option<set<NodeId>>)
      requires Valid()
      modifies this`model, this`poll, everyone.Values
      ensures Valid() && model == DoPollDone(old(model), active)
      ensures old(Consistent()) ==> Consistent()
    {
      PollDoneConsistent(options, model, active);
      if poll.None? {
        return;
      }
      CloseAllRevoked(poll.value, active);
      PollCompletes(old(model), model, active);
      poll := None;
      model := model.(poll := None);
    }
  }
}
