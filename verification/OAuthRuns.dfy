/** What every run of the OAuth operations keeps. */
module OAuthRuns {
  import opened OAuthSessions

  lemma {:induction false} InvHoldsFrom(ttl: nat, s: State, events: seq<Event>)
    requires Inv(s)
    ensures Inv(Run(ttl, s, events))
    decreases |events|
  {
    if events != [] {
      InvHoldsFrom(ttl, s, events[..|events| - 1]);
      StepKeepsInv(ttl, Run(ttl, s, events[..|events| - 1]), events[|events| - 1]);
    }
  }

  lemma InvHoldsOnEveryRun(ttl: nat, now: int, events: seq<Event>)
    ensures Inv(Run(ttl, Initial(now), events))
  {
    FromLocal(Initial(now));
    InvHoldsFrom(ttl, Initial(now), events);
  }

  /** A stored session of the provider that is still under way. */
  predicate LiveOf(s: State, provider: string, id: nat) {
    id in s.sessions && s.sessions[id].provider == provider && Live(s.sessions[id].phase)
  }

  /**
   Whenever a provider's lock is free, its live sessions are exactly the one its active entry names: none
   without an entry, that one and no other with an entry.
   */
  lemma ActiveEntryIsTheLiveSession(ttl: nat, now: int, events: seq<Event>, provider: string)
    ensures var s := Run(ttl, Initial(now), events);
      provider !in s.pending ==>
        forall id: nat :: LiveOf(s, provider, id) <==> provider in s.active && s.active[provider] == id
  {
    var s := Run(ttl, Initial(now), events);
    InvHoldsOnEveryRun(ttl, now, events);
    assert EntryOk(s, provider);
    forall id: nat | LiveOf(s, provider, id) ensures provider in s.active && s.active[provider] == id {
      assert SessionOk(s, id);
    }
  }

  /** No session's callback is forwarded twice. */
  lemma CallbackForwardedAtMostOnce(ttl: nat, now: int, events: seq<Event>, i: nat, j: nat)
    ensures var posted := Run(ttl, Initial(now), events).posted;
      i < j < |posted| ==> posted[i] != posted[j]
  {
    InvHoldsOnEveryRun(ttl, now, events);
  }

  /** No operation is waiting on the session. */
  ghost predicate Idle(s: State, id: nat) {
    forall p :: p in s.pending ==> s.pending[p].id != id
  }

  /** The session is stored as given or no longer stored at all, and nothing waits on it. */
  ghost predicate Settled(s: State, id: nat, session: Session) {
    id < s.next && (id in s.sessions ==> s.sessions[id] == session) && Idle(s, id)
  }

  lemma FinalIsSettled(s: State, id: nat)
    requires Inv(s) && id in s.sessions && !Live(s.sessions[id].phase)
    ensures Settled(s, id, s.sessions[id])
  {
    assert SessionOk(s, id);
    forall p | p in s.pending ensures s.pending[p].id != id {
      assert PendingOk(s, p) && EntryOk(s, p);
    }
  }

  lemma StepKeepsSettled(ttl: nat, s: State, e: Event, id: nat, session: Session)
    requires Inv(s) && Settled(s, id, session) && !Live(session.phase)
    ensures Settled(Step(ttl, s, e), id, session)
  {
    if e.StatusBegins? || e.SubmitBegins? { assert SessionOk(s, e.id); }
  }

  lemma {:induction false} SettledHolds(ttl: nat, s: State, events: seq<Event>, id: nat, session: Session)
    requires Inv(s) && Settled(s, id, session) && !Live(session.phase)
    ensures Settled(Run(ttl, s, events), id, session)
    decreases |events|
  {
    if events != [] {
      var before := events[..|events| - 1];
      SettledHolds(ttl, s, before, id, session);
      InvHoldsFrom(ttl, s, before);
      StepKeepsSettled(ttl, Run(ttl, s, before), events[|events| - 1], id, session);
    }
  }

  /** Ready and failed are final: whatever happens next, the session stays as it is until it is dropped. */
  lemma ReadyAndFailedAreFinal(ttl: nat, now: int, events: seq<Event>, later: seq<Event>, id: nat)
    requires var s := Run(ttl, Initial(now), events); id in s.sessions && !Live(s.sessions[id].phase)
    ensures var s := Run(ttl, Initial(now), events); var t := Run(ttl, s, later);
      id in t.sessions ==> t.sessions[id] == s.sessions[id]
  {
    var s := Run(ttl, Initial(now), events);
    InvHoldsOnEveryRun(ttl, now, events);
    FinalIsSettled(s, id);
    SettledHolds(ttl, s, later, id, s.sessions[id]);
  }

  /** An operation gets past its checks and works on the session, or ends having done so. */
  predicate Acts(s: State, e: Event, id: nat) {
    Enabled(s, e) && match e
      case SubmitBegins(p, i, actor, _) => i == id && Usable(s, id, actor, p)
      case StatusBegins(p, i, actor) => i == id && Usable(s, id, actor, p)
      case SubmitEnds(p, _) => s.pending[p].id == id
      case StatusEnds(p, _) => s.pending[p].id == id
      case _ => false
  }

  /** The session has expired or is gone, and is not about to be stored. */
  ghost predicate Over(s: State, id: nat) {
    && id < s.next
    && (id in s.sessions ==> Expired(s, id))
    && forall p :: p in s.pending && s.pending[p].Starting? ==> s.pending[p].id != id
  }

  /** Whoever waits on the session in `t` has been waiting on it since `s`. */
  ghost predicate NoNewWaiter(s: State, t: State, id: nat) {
    forall p :: p in t.pending && t.pending[p].id == id ==> p in s.pending && s.pending[p] == t.pending[p]
  }

  lemma StepKeepsOver(ttl: nat, s: State, e: Event, id: nat)
    requires Inv(s) && Over(s, id)
    ensures Over(Step(ttl, s, e), id) && NoNewWaiter(s, Step(ttl, s, e), id)
    ensures Acts(s, e, id) ==> e.SubmitEnds? || e.StatusEnds?
  {
    if e.StatusBegins? || e.SubmitBegins? { assert SessionOk(s, e.id); }
  }

  /**
   An expired session stays expired, and no operation begins to work on it. What can still act on it is only
   an operation that was waiting on it already when it expired, and that has been waiting ever since.
   */
  lemma {:induction false} ExpiredSessionsStayDead(ttl: nat, s: State, events: seq<Event>, id: nat, k: nat)
    requires Inv(s) && Over(s, id) && k <= |events|
    ensures Over(Run(ttl, s, events[..k]), id) && NoNewWaiter(s, Run(ttl, s, events[..k]), id)
    ensures k < |events| && Acts(Run(ttl, s, events[..k]), events[k], id) ==>
      && (events[k].SubmitEnds? || events[k].StatusEnds?)
      && var p := events[k].provider;
         forall i :: 0 <= i <= k ==>
           var t := Run(ttl, s, events[..i]); p in t.pending && p in s.pending && t.pending[p] == s.pending[p]
  {
    var t := Run(ttl, s, events[..k]);
    InvHoldsFrom(ttl, s, events[..k]);
    OverHolds(ttl, s, events, id, k);
    forall p | p in t.pending && t.pending[p].id == id ensures p in s.pending && s.pending[p] == t.pending[p] {
      WaitsSince(ttl, s, events, id, p, 0, k);
    }
    if k < |events| {
      StepKeepsOver(ttl, t, events[k], id);
      if Acts(t, events[k], id) {
        forall i | 0 <= i <= k
          ensures var u := Run(ttl, s, events[..i]); var p := events[k].provider;
            p in u.pending && p in s.pending && u.pending[p] == s.pending[p]
        {
          WaitsSince(ttl, s, events, id, events[k].provider, i, k);
        }
      }
    }
  }

  lemma RunNext(ttl: nat, s: State, events: seq<Event>, k: nat)
    requires k < |events|
    ensures Run(ttl, s, events[..k + 1]) == Step(ttl, Run(ttl, s, events[..k]), events[k])
  {
    assert events[..k + 1][..k] == events[..k];
  }

  /** Who waits on an expired session at some point of a run waited on it at every earlier point. */
  lemma {:induction false} WaitsSince(ttl: nat, s: State, events: seq<Event>, id: nat, p: string, i: nat, k: nat)
    requires Inv(s) && Over(s, id) && i <= k <= |events|
    requires var t := Run(ttl, s, events[..k]); p in t.pending && t.pending[p].id == id
    ensures var u := Run(ttl, s, events[..i]); var t := Run(ttl, s, events[..k]);
      && p in u.pending && u.pending[p] == t.pending[p]
      && p in s.pending && s.pending[p] == t.pending[p]
    decreases k
  {
    if k > 0 {
      InvHoldsFrom(ttl, s, events[..k - 1]);
      OverHolds(ttl, s, events, id, k - 1);
      RunNext(ttl, s, events, k - 1);
      StepKeepsOver(ttl, Run(ttl, s, events[..k - 1]), events[k - 1], id);
      WaitsSince(ttl, s, events, id, p, if i < k then i else k - 1, k - 1);
    }
  }

  lemma {:induction false} OverHolds(ttl: nat, s: State, events: seq<Event>, id: nat, k: nat)
    requires Inv(s) && Over(s, id) && k <= |events|
    ensures Over(Run(ttl, s, events[..k]), id)
    decreases k
  {
    if k > 0 {
      OverHolds(ttl, s, events, id, k - 1);
      InvHoldsFrom(ttl, s, events[..k - 1]);
      RunNext(ttl, s, events, k - 1);
      StepKeepsOver(ttl, Run(ttl, s, events[..k - 1]), events[k - 1], id);
    }
  }

  // ---- When a success meets an expired session

  /** With this event an operation on the session ends without an error. */
  predicate Succeeds(s: State, e: Event, id: nat) {
    Enabled(s, e) && match e
      case SubmitEnds(p, ok) => ok && s.pending[p].id == id
      case StatusEnds(p, verdict) => verdict != Broken && s.pending[p].id == id
      case StatusBegins(p, i, actor) => i == id && Usable(s, id, actor, p) && s.sessions[id].phase.Ready?
      case _ => false
  }

  /** The operation gets past its checks on the provider's session and starts its management call. */
  predicate Begins(s: State, e: Event, provider: string, id: nat) {
    Enabled(s, e) && match e
      case SubmitBegins(p, i, actor, urlOk) =>
        p == provider && i == id && Usable(s, id, actor, p) && s.sessions[id].phase.AwaitingCallback? && urlOk
      case StatusBegins(p, i, actor) => p == provider && i == id && Usable(s, id, actor, p)
        && Live(s.sessions[id].phase)
      case _ => false
  }

  /**
   The operation that holds the provider's lock after `events` got it with event j, found its session then, and
   has been waiting ever since.
   */
  ghost predicate WaitsFrom(ttl: nat, start: State, events: seq<Event>, j: nat, provider: string)
    requires j < |events|
  {
    var s, t := Run(ttl, start, events[..j]), Run(ttl, start, events);
    && provider in t.pending && t.pending[provider].id in t.sessions
    && var id := t.pending[provider].id;
    && Begins(s, events[j], provider, id)
    && (t.pending[provider].Submitting? <==> events[j].SubmitBegins?)
    && s.sessions[id] == t.sessions[id]
    && forall k :: j < k <= |events| ==>
         var u := Run(ttl, start, events[..k]); provider in u.pending && u.pending[provider] == t.pending[provider]
  }

  /** One step of an operation's wait: it began with this step, or it was waiting before, on the same session. */
  lemma WaitStep(ttl: nat, s: State, e: Event, provider: string)
    requires Inv(s)
    requires var t := Step(ttl, s, e); provider in t.pending && !t.pending[provider].Starting?
    ensures var t := Step(ttl, s, e); var id := t.pending[provider].id;
      && id in s.sessions && id in t.sessions && s.sessions[id] == t.sessions[id]
      && (|| (provider in s.pending && s.pending[provider] == t.pending[provider])
          || (Begins(s, e, provider, id) && (t.pending[provider].Submitting? <==> e.SubmitBegins?)))
  {
    var t := Step(ttl, s, e);
    var id := t.pending[provider].id;
    assert PendingOk(s, provider) && EntryOk(s, provider);
    StepKeepsInv(ttl, s, e);
    assert PendingOk(t, provider) && EntryOk(t, provider);
    match e
    case StartEnds(p, _) => assert PendingOk(s, p) && EntryOk(s, p) && SessionOk(s, id);
    case StartBegins(p, _) => assert EntryOk(s, p) && SessionOk(s, id);
    case SubmitEnds(p, _) => assert PendingOk(s, p);
    case StatusEnds(p, _) => assert PendingOk(s, p);
    case _ =>
  }

  /** Every operation that is waiting began with some event, before which its session was usable. */
  lemma {:induction false} WaitHasBegun(ttl: nat, now: int, events: seq<Event>, provider: string) returns (j: nat)
    requires var t := Run(ttl, Initial(now), events); provider in t.pending && !t.pending[provider].Starting?
    ensures j < |events| && WaitsFrom(ttl, Initial(now), events, j, provider)
    decreases |events|
  {
    var start := Initial(now);
    var n := |events| - 1;
    var before := events[..n];
    var s := Run(ttl, start, before);
    InvHoldsOnEveryRun(ttl, now, before);
    WaitStep(ttl, s, events[n], provider);
    assert events[..|events|] == events;
    if provider in s.pending && s.pending[provider] == Run(ttl, start, events).pending[provider] {
      j := WaitHasBegun(ttl, now, before, provider);
      forall k | j < k <= n ensures before[..k] == events[..k] {}
      assert before[..j] == events[..j];
    } else {
      j := n;
    }
  }

  /**
   Every success on a session began while the session was unexpired, and so it meets an expired session exactly
   when the clock passes the session's expiry between the operation's check and the end of its management call.
   */
  lemma {:induction false} SuccessIsLateExactlyWhen(ttl: nat, now: int, events: seq<Event>, e: Event, id: nat)
    requires Succeeds(Run(ttl, Initial(now), events), e, id)
    ensures var s := Run(ttl, Initial(now), events);
      id in s.sessions && if e.StatusBegins? then !Expired(s, id) else
        exists j: nat :: j < |events| && WaitsFrom(ttl, Initial(now), events, j, e.provider)
          && (Expired(s, id) <==> Run(ttl, Initial(now), events[..j]).now < s.sessions[id].expiresAt <= s.now)
  {
    if !e.StatusBegins? {
      var j := WaitHasBegun(ttl, now, events, e.provider);
    }
  }

  lemma RunSnoc(ttl: nat, s: State, events: seq<Event>, e: Event)
    ensures Run(ttl, s, events + [e]) == Step(ttl, Run(ttl, s, events), e)
  {
    assert (events + [e])[..|events|] == events;
  }

  /** A run to the point where a new session's operation waits for its management call. */
  function ToWaiting(provider: string, actor: string, submit: bool): (events: seq<Event>)
    ensures |events| == 3
  {
    [StartBegins(provider, actor), StartEnds(provider, true)]
    + [if submit then SubmitBegins(provider, 0, actor, true) else StatusBegins(provider, 0, actor)]
  }

  lemma WaitingRun(ttl: nat, now: int, provider: string, actor: string, submit: bool)
    requires ttl > 0
    ensures Run(ttl, Initial(now), ToWaiting(provider, actor, submit))
         == State(now, 1, map[0 := Session(provider, actor, now + ttl, AwaitingCallback)], map[provider := 0],
                  map[provider := if submit then Submitting(0) else Checking(0)], if submit then [0] else [])
  {
    var none: seq<Event> := [];
    var started := [StartBegins(provider, actor)];
    var both := started + [StartEnds(provider, true)];
    var waiting := ToWaiting(provider, actor, submit);
    assert none + [StartBegins(provider, actor)] == started;
    RunSnoc(ttl, Initial(now), none, StartBegins(provider, actor));
    RunSnoc(ttl, Initial(now), started, StartEnds(provider, true));
    RunSnoc(ttl, Initial(now), both, waiting[2]);
    assert both + [waiting[2]] == waiting;
    assert Run(ttl, Initial(now), none) == Initial(now);
    assert Run(ttl, Initial(now), both)
        == State(now, 1, map[0 := Session(provider, actor, now + ttl, AwaitingCallback)],
                 map[provider := 0], map[], []);
  }

  /**
   Expiry is checked when an operation gets the lock, not when it ends: whatever the session's life time, a
   callback under way is accepted, and a credential under way is bound, `late` after the session has expired.
   */
  lemma AcceptedHoweverLate(ttl: nat, now: int, late: nat, provider: string, actor: string)
    requires ttl > 0
    ensures var events := ToWaiting(provider, actor, true) + [Tick(now + ttl + late)];
      var s, t := Run(ttl, Initial(now), events), Run(ttl, Initial(now), events + [SubmitEnds(provider, true)]);
      && Succeeds(s, SubmitEnds(provider, true), 0) && Expired(s, 0)
      && 0 in t.sessions && t.sessions[0].phase == CallbackAccepted && t.active == map[provider := 0]
    ensures var events := ToWaiting(provider, actor, false) + [Tick(now + ttl + late)];
      var s, t := Run(ttl, Initial(now), events), Run(ttl, Initial(now), events + [StatusEnds(provider, Bound)]);
      && Succeeds(s, StatusEnds(provider, Bound), 0) && Expired(s, 0)
      && 0 in t.sessions && t.sessions[0].phase == Ready && t.active == map[]
  {
    var tick := Tick(now + ttl + late);
    WaitingRun(ttl, now, provider, actor, true);
    RunSnoc(ttl, Initial(now), ToWaiting(provider, actor, true), tick);
    RunSnoc(ttl, Initial(now), ToWaiting(provider, actor, true) + [tick], SubmitEnds(provider, true));
    WaitingRun(ttl, now, provider, actor, false);
    RunSnoc(ttl, Initial(now), ToWaiting(provider, actor, false), tick);
    RunSnoc(ttl, Initial(now), ToWaiting(provider, actor, false) + [tick], StatusEnds(provider, Bound));
  }
}
