/**
 How the state of the relay came about. Every pairing goes back to a chain of four events: the node's proof, a
 lookup that found its device, the client's request for that node's id, and the node's allowing answer to it.
 */
module TunnelHistory {
  import opened Prelude
  import opened ForwardQueue
  import opened TunnelModel
  import opened TunnelPairing

  // ----- what one step may bring about -----

  /** The step from a to b starts no lookup, makes no request pending and pairs nobody. */
  ghost predicate Grants(a: Peer, b: Peer) {
    && b.role == a.role
    && (b.lookup == a.lookup || b.lookup.None?)
    && (b.pending == a.pending || b.pending.None?)
    && (b.phase == Paired ==> a.phase == Paired && b.node == a.node)
  }

  /** So for the socket s, as far as it is known, and for the registry. */
  ghost predicate GrantsNothing(r: Relay, r': Relay, s: Sid) {
    && r.peers.Keys <= r'.peers.Keys
    && (s in r.peers ==> Grants(r.peers[s], r'.peers[s]))
    && (forall id :: id in r'.nodes ==> id in r.nodes && r'.nodes[id] == r.nodes[id])
  }

  lemma GrantsNothingTwice(r: Relay, r1: Relay, r2: Relay, x: Sid)
    requires GrantsNothing(r, r1, x) && GrantsNothing(r1, r2, x)
    ensures GrantsNothing(r, r2, x)
  {
  }

  lemma SafeCloseGrantsNothing(r: Relay, s: Sid, x: Sid)
    ensures GrantsNothing(r, SafeClose(r, s), x)
  {
  }

  lemma PutLinkGrantsNothing(r: Relay, s: Sid, l: Link, x: Sid)
    requires CanForward(r, s)
    ensures GrantsNothing(r, PutLink(r, s, l), x)
  {
  }

  lemma DropGrantsNothing(r: Relay, p: Peer, s: Sid, x: Sid)
    ensures GrantsNothing(r, DropClient(r, p, s), x)
  {
    SafeCloseGrantsNothing(r, s, x);
    if p.client.Some? { SafeCloseGrantsNothing(r, p.client.value, x); }
  }

  lemma BinaryGrantsNothing(o: TunnelOptions, r: Relay, s: Sid, f: Frame, buffered: nat, throws: bool, x: Sid)
    requires IsLive(r, s)
    ensures GrantsNothing(r, DoBinary(o, r, s, f, buffered, throws), x)
  {
    var p := r.peers[s];
    var r0 := r.(peers := r.peers[s := p.(received := p.received + [f])]);
    SafeCloseGrantsNothing(r, s, x);
    if p.phase == Paired {
      assert GrantsNothing(r, r0, x);
      var r1 := if CanForward(r0, s) then PutLink(r0, s, Forward(o.queue, LinkOf(r0, s, buffered), f, throws).link)
                else r0;
      if CanForward(r0, s) {
        PutLinkGrantsNothing(r0, s, Forward(o.queue, LinkOf(r0, s, buffered), f, throws).link, x);
        GrantsNothingTwice(r, r0, r1, x);
      }
      DropGrantsNothing(r1, p, s, x);
      GrantsNothingTwice(r, r1, DropClient(r1, p, s), x);
      SafeCloseGrantsNothing(r0, s, x);
      GrantsNothingTwice(r, r0, SafeClose(r0, s), x);
    }
  }

  lemma DrainGrantsNothing(o: TunnelOptions, r: Relay, s: Sid, buffered: nat, failing: nat, x: Sid)
    ensures GrantsNothing(r, DoDrain(o, r, s, buffered, failing), x)
  {
    if CanForward(r, s) {
      PutLinkGrantsNothing(r, s, Drain(o.queue, LinkOf(r, s, buffered), failing).link, x);
    }
  }

  lemma CloseGrantsNothing(r: Relay, s: Sid, x: Sid)
    ensures GrantsNothing(r, DoClose(r, s), x)
  {
    if IsLive(r, s) {
      var p := r.peers[s];
      var r0 := r.(peers := r.peers[s := ClosedPeer(p)]);
      assert GrantsNothing(r, r0, x);
      if p.role == NodeRole {
        var r1 := if p.nodeId.Some? && p.nodeId.value in r0.nodes && r0.nodes[p.nodeId.value] == s
                  then r0.(nodes := r0.nodes - {p.nodeId.value}) else r0;
        assert GrantsNothing(r, r1, x);
        var r2 := if p.client.Some? then SafeClose(r1, p.client.value) else r1;
        if p.client.Some? { SafeCloseGrantsNothing(r1, p.client.value, x); }
        GrantsNothingTwice(r, r1, r2, x);
        if p.pending.Some? { SafeCloseGrantsNothing(r2, p.pending.value.client, x); }
        GrantsNothingTwice(r, r2, DoClose(r, s), x);
      } else if p.node.Some? && IsLive(r0, p.node.value) && r0.peers[p.node.value].role == NodeRole {
        var n := p.node.value;
        assert Grants(r0.peers[n], ClientLeft(r0.peers[n], s));
        assert GrantsNothing(r0, DoClose(r, s), x);
        GrantsNothingTwice(r, r0, DoClose(r, s), x);
      }
    }
  }

  lemma TimerGrantsNothing(r: Relay, s: Sid, x: Sid)
    ensures GrantsNothing(r, DoTimer(r, s), x)
  {
  }

  /** Everything but text messages and the resumption after a lookup. */
  lemma OthersGrantNothing(o: TunnelOptions, r: Relay, e: Event, x: Sid)
    requires !e.TextMessage? && !e.LookupDone?
    ensures GrantsNothing(r, Step(o, r, e), x)
  {
    match e
    case BinaryMessage(s, f, buffered, throws) =>
      if IsLive(r, s) { BinaryGrantsNothing(o, r, s, f, buffered, throws, x); }
    case DrainFires(s, buffered, failing) => DrainGrantsNothing(o, r, s, buffered, failing, x);
    case CloseEvent(s) => CloseGrantsNothing(r, s, x);
    case TimerFires(s) => TimerGrantsNothing(r, s, x);
    case _ =>
  }

  /** The client asks, under this request id, for the node that is registered under an id at that moment. */
  predicate Asks(r: Relay, e: Event, c: Sid, n: Sid, rid: Rid) {
    && e.TextMessage? && e.s == c && e.text.ClientAuth? && e.text.rid == rid
    && e.text.target in r.nodes && r.nodes[e.text.target] == n
  }

  /** Node n allows the request it has pending, which is that of client c. */
  predicate Allows(r: Relay, e: Event, n: Sid, c: Sid) {
    && e.TextMessage? && e.s == n && e.text.AuthorizeResult? && e.text.allow
    && n in r.peers && r.peers[n].pending == Some(Pending(e.text.answered, c))
  }

  /** What the record of s holds after event e, and did not hold before, is what e grants it. */
  ghost predicate GrantedBy(r: Relay, r': Relay, e: Event, s: Sid) {
    && r'.peers.Keys == r.peers.Keys
    && (s in r.peers ==>
      var p, p' := r.peers[s], r'.peers[s];
      && p'.role == p.role
      && (p'.lookup.Some? && p'.lookup != p.lookup ==> e == TextMessage(s, NodeAuth(p'.lookup.value)))
      && (p'.pending.Some? && p'.pending != p.pending ==> Asks(r, e, p'.pending.value.client, s, p'.pending.value.rid))
      && (p'.phase == Paired && p'.role == ClientRole ==>
        if p.phase == Paired then p'.node == p.node else p'.node.Some? && Allows(r, e, p'.node.value, s)))
  }

  /** What pairing does to the record of s. */
  lemma PairTouches(r: Relay, n: Sid, c: Sid, s: Sid)
    requires IsLive(r, n) && IsLive(r, c) && s in r.peers && r.peers[n].role == NodeRole && n != c
    ensures var r' := Pair(r, n, c);
      && r'.peers.Keys == r.peers.Keys && r'.nodes == r.nodes
      && var p, p' := r.peers[s], r'.peers[s];
      && p'.role == p.role && p'.lookup == p.lookup && p'.pending == p.pending
      && (p'.role == ClientRole ==> (p'.phase == p.phase && p'.node == p.node) || (s == c && p'.node == Some(n)))
  {
  }

  lemma AnswerGrants(o: TunnelOptions, r: Relay, n: Sid, rid: Rid, allow: bool, s: Sid)
    requires IsLive(r, n) && r.peers[n].role == NodeRole
    ensures var r' := DoText(r, n, AuthorizeResult(rid, allow));
      r'.nodes == r.nodes && GrantedBy(r, r', TextMessage(n, AuthorizeResult(rid, allow)), s)
  {
    var p := r.peers[n];
    if p.phase == Authorizing && !p.processing && s in r.peers {
      AnsweredGrants(r.(peers := r.peers[n := p.(processing := true)]), n, rid, allow, s);
    }
  }

  /** The answer itself, once the message is known to be one. */
  lemma AnsweredGrants(r: Relay, n: Sid, rid: Rid, allow: bool, s: Sid)
    requires IsLive(r, n) && r.peers[n].role == NodeRole && s in r.peers
    ensures var r' := Answered(r, n, rid, allow);
      && r'.peers.Keys == r.peers.Keys && r'.nodes == r.nodes
      && var p, p' := r.peers[s], r'.peers[s];
      && p'.role == p.role && p'.lookup == p.lookup && (p'.pending == p.pending || p'.pending.None?)
      && (p'.role == ClientRole ==>
           || (p'.phase == p.phase && p'.node == p.node)
           || (allow && r.peers[n].pending == Some(Pending(rid, s)) && p'.node == Some(n)))
  {
    var p := r.peers[n];
    if p.pending.Some? && p.pending.value.rid == rid {
      var c := p.pending.value.client;
      var r0 := r.(peers := r.peers[n := p.(pending := None, phase := Ready)]);
      if allow && IsLive(r0, c) && r0.peers[c].role == ClientRole { PairTouches(r0, n, c, s); }
    }
  }

  lemma RequestGrants(o: TunnelOptions, r: Relay, c: Sid, id: NodeId, rid: Rid, s: Sid)
    requires IsLive(r, c)
    ensures var r' := DoText(r, c, ClientAuth(id, rid));
      r'.nodes == r.nodes && GrantedBy(r, r', TextMessage(c, ClientAuth(id, rid)), s)
  {
  }

  lemma OtherTextGrants(o: TunnelOptions, r: Relay, x: Sid, text: Text, s: Sid)
    requires IsLive(r, x) && !text.ClientAuth?
    requires text.AuthorizeResult? ==> r.peers[x].role == ClientRole
    ensures var r' := DoText(r, x, text); r'.nodes == r.nodes && GrantedBy(r, r', TextMessage(x, text), s)
  {
  }

  lemma TextGrants(o: TunnelOptions, r: Relay, x: Sid, text: Text, s: Sid)
    requires IsLive(r, x)
    ensures var r' := DoText(r, x, text); r'.nodes == r.nodes && GrantedBy(r, r', TextMessage(x, text), s)
  {
    match text
    case ClientAuth(id, rid) => RequestGrants(o, r, x, id, rid, s);
    case AuthorizeResult(rid, allow) =>
      if r.peers[x].role == NodeRole {
        AnswerGrants(o, r, x, rid, allow, s);
      } else {
        OtherTextGrants(o, r, x, text, s);
      }
    case _ => OtherTextGrants(o, r, x, text, s);
  }

  lemma LookupGrants(o: TunnelOptions, r: Relay, x: Sid, result: LookupResult, s: Sid)
    ensures GrantedBy(r, LookupResumed(r, x, result), LookupDone(x, result), s)
  {
  }

  /**
   No step gives anybody a lookup, a pending request or a partner but the event that grants it: the node's own
   proof, a client's request for the node registered under the id it names, the node's allowing answer.
   */
  lemma NothingUngranted(o: TunnelOptions, r: Relay, e: Event, s: Sid)
    requires s in r.peers
    ensures r.peers.Keys <= Step(o, r, e).peers.Keys
    ensures var p, p' := r.peers[s], Step(o, r, e).peers[s];
      && p'.role == p.role
      && (p'.lookup.Some? && p'.lookup != p.lookup ==> e == TextMessage(s, NodeAuth(p'.lookup.value)))
      && (p'.pending.Some? && p'.pending != p.pending ==> Asks(r, e, p'.pending.value.client, s, p'.pending.value.rid))
      && (p'.phase == Paired && p'.role == ClientRole ==>
        if p.phase == Paired then p'.node == p.node else p'.node.Some? && Allows(r, e, p'.node.value, s))
  {
    match e
    case TextMessage(x, text) =>
      if IsLive(r, x) && !(text.ClientAuth? && text.rid in r.requests) { TextGrants(o, r, x, text, s); }
    case LookupDone(x, result) => LookupGrants(o, r, x, result, s);
    case _ => OthersGrantNothing(o, r, e, s);
  }

  /** A socket that appears has nothing granted. */
  lemma NewcomersHaveNothing(o: TunnelOptions, r: Relay, e: Event, s: Sid)
    requires s !in r.peers && s in Step(o, r, e).peers
    ensures var p := Step(o, r, e).peers[s]; p.lookup.None? && p.pending.None? && p.phase == Handshake
  {
    match e
    case TextMessage(x, text) => if IsLive(r, x) { TextGrants(o, r, x, text, x); }
    case LookupDone(x, result) => LookupGrants(o, r, x, result, x);
    case _ =>
  }

  /** Only the resumption after a matching lookup registers a node. */
  lemma RegisteredOnlyByLookup(o: TunnelOptions, r: Relay, e: Event, id: NodeId)
    requires id in Step(o, r, e).nodes
    ensures var s := Step(o, r, e).nodes[id];
      || (id in r.nodes && r.nodes[id] == s)
      || (e == LookupDone(s, DeviceMatches) && s in r.peers && r.peers[s].lookup == Some(id))
  {
    match e
    case TextMessage(x, text) => if IsLive(r, x) { TextGrants(o, r, x, text, x); }
    case LookupDone(_, _) =>
    case _ => OthersGrantNothing(o, r, e, 0);
  }

  // ----- what must have happened before -----

  /** The node has proved that it is `id`. */
  ghost predicate Proved(events: seq<Event>, n: Sid, id: NodeId) {
    exists g: nat :: g < |events| && events[g] == TextMessage(n, NodeAuth(id))
  }

  /** After that, a lookup has found the node's device. */
  ghost predicate Verified(events: seq<Event>, n: Sid, id: NodeId) {
    exists h: nat :: h < |events| && events[h] == LookupDone(n, DeviceMatches) && Proved(events[..h], n, id)
  }

  /** After that, while the node was registered under the id that the client names, the client has asked for it. */
  ghost predicate Asked(o: TunnelOptions, events: seq<Event>, c: Sid, n: Sid, rid: Rid) {
    exists i: nat :: i < |events| && Asks(Run(o, events[..i]), events[i], c, n, rid)
                     && Verified(events[..i], n, events[i].text.target)
  }

  /** After that, the node has allowed that very request of the client while it was pending. */
  ghost predicate Allowed(o: TunnelOptions, events: seq<Event>, c: Sid, n: Sid) {
    exists j: nat :: j < |events| && Allows(Run(o, events[..j]), events[j], n, c)
                     && Asked(o, events[..j], c, n, events[j].text.answered)
  }

  /** What has happened before goes on having happened. */
  lemma StaysSo(o: TunnelOptions, events: seq<Event>, k: nat, s: Sid, n: Sid, id: NodeId, rid: Rid)
    requires k <= |events|
    ensures Proved(events[..k], n, id) ==> Proved(events, n, id)
    ensures Verified(events[..k], n, id) ==> Verified(events, n, id)
    ensures Asked(o, events[..k], s, n, rid) ==> Asked(o, events, s, n, rid)
    ensures Allowed(o, events[..k], s, n) ==> Allowed(o, events, s, n)
  {
    forall h | 0 <= h < k ensures events[..k][..h] == events[..h] {}
  }

  predicate IsPaired(r: Relay, c: Sid) {
    c in r.peers && r.peers[c].role == ClientRole && r.peers[c].phase == Paired
  }

  ghost predicate HistoryOk(o: TunnelOptions, events: seq<Event>, s: Sid) {
    var r := Run(o, events);
    s in r.peers ==>
      var p := r.peers[s];
      && (p.lookup.Some? ==> Proved(events, s, p.lookup.value))
      && (p.pending.Some? ==> Asked(o, events, p.pending.value.client, s, p.pending.value.rid))
      && (IsPaired(r, s) ==> p.node.Some? && Allowed(o, events, s, p.node.value))
  }

  /** Whoever is registered under an id has proved it and has been found. */
  lemma {:induction false} RegisteredWasVerified(o: TunnelOptions, events: seq<Event>, id: NodeId)
    requires id in Run(o, events).nodes
    ensures Verified(events, Run(o, events).nodes[id], id)
    decreases |events|, 0
  {
    var n := |events| - 1;
    var r := Run(o, events[..n]);
    var s := Run(o, events).nodes[id];
    RegisteredOnlyByLookup(o, r, events[n], id);
    if id in r.nodes && r.nodes[id] == s {
      RegisteredWasVerified(o, events[..n], id);
      StaysSo(o, events, n, s, s, id, 0);
    } else {
      HistoryHolds(o, events[..n], s);
      assert Proved(events[..n], s, id);
    }
  }

  lemma {:induction false} HistoryHolds(o: TunnelOptions, events: seq<Event>, s: Sid)
    ensures HistoryOk(o, events, s)
    decreases |events|, 1
  {
    if events != [] && s in Run(o, events).peers {
      var n := |events| - 1;
      var r, e := Run(o, events[..n]), events[n];
      var p := Run(o, events).peers[s];
      if s !in r.peers {
        NewcomersHaveNothing(o, r, e, s);
      } else {
        HistoryHolds(o, events[..n], s);
        NothingUngranted(o, r, e, s);
        StepKeepsHistory(o, events, s);
      }
    }
  }

  lemma StepKeepsHistory(o: TunnelOptions, events: seq<Event>, s: Sid)
    requires events != [] && s in Run(o, events).peers && s in Run(o, events[..|events| - 1]).peers
    requires HistoryOk(o, events[..|events| - 1], s)
    ensures HistoryOk(o, events, s)
    decreases |events|, 0
  {
    var n := |events| - 1;
    var r, e := Run(o, events[..n]), events[n];
    var p, p' := r.peers[s], Run(o, events).peers[s];
    NothingUngranted(o, r, e, s);
    if p'.lookup.Some? {
      if p'.lookup == p.lookup { StaysSo(o, events, n, s, s, p'.lookup.value, 0); }
    }
    if p'.pending.Some? {
      var Pending(rid, c) := p'.pending.value;
      if p'.pending == p.pending {
        StaysSo(o, events, n, c, s, 0, rid);
      } else {
        RegisteredWasVerified(o, events[..n], e.text.target);
      }
    }
    if IsPaired(Run(o, events), s) {
      var m := p'.node.value;
      if p.phase == Paired {
        StaysSo(o, events, n, s, m, 0, 0);
      } else {
        HistoryHolds(o, events[..n], m);
      }
    }
  }

  /**
   No client is ever paired unless its node proved its id, was found to be the device of that id, was then asked
   by this very client under that id, and then allowed that very request while it was still pending.
   */
  lemma EveryPairingWasAllowed(o: TunnelOptions, events: seq<Event>, c: Sid)
    requires IsPaired(Run(o, events), c)
    ensures var n := Run(o, events).peers[c].node;
      n.Some? && Allowed(o, events, c, n.value)
  {
    HistoryHolds(o, events, c);
  }
}
