/**
 What every OAuth operation decides, and how each session came to be what it is: who started it, when it will
 expire, and which callback or login brought it to its phase.
 */
module OAuthHistory {
  import opened OAuthRuns
  import opened OAuthSessions

  // ---- What an operation decides

  /** The provider's lock is free again, and no other provider's session or entry has changed. */
  predicate Released(s: State, t: State, p: string, id: nat) {
    && t.pending == s.pending - {p} && t.posted == s.posted && t.now == s.now && t.next == s.next
    && t.sessions - {id} == s.sessions - {id} && t.active - {p} == s.active - {p}
  }

  /** What an operation makes of the session it waited on. */
  function Reached(e: Event, phase: Phase): Phase
    requires e.SubmitEnds? || e.StatusEnds?
  {
    match e
    case SubmitEnds(_, ok) => if ok then CallbackAccepted else Failed
    case StatusEnds(_, verdict) => match verdict case Bound => Ready case Broken => Failed case StillPending => phase
  }

  /**
   The outcome of the management call decides: an accepted callback moves the session on and a bound credential
   makes it ready; a refused callback or a broken login fails it; a login still pending leaves it alone. A session
   that is ready or failed frees its provider, any other keeps it.
   */
  lemma EndDecides(ttl: nat, s: State, e: Event)
    requires Inv(s) && Enabled(s, e) && (e.SubmitEnds? || e.StatusEnds?)
    ensures var p := e.provider; var id := s.pending[p].id; var t := Step(ttl, s, e);
      && Released(s, t, p, id)
      && id in t.sessions && t.sessions[id] == s.sessions[id].(phase := Reached(e, s.sessions[id].phase))
      && if t.sessions[id].phase == Ready || t.sessions[id].phase == Failed then p !in t.active
         else p in t.active && t.active[p] == id
  {
    var p := e.provider;
    assert EntryOk(s, p) && PendingOk(s, p) && SessionOk(s, s.pending[p].id);
  }

  /** The session is stored, belongs to this provider and this actor, and has not expired. */
  predicate Serves(s: State, id: nat, actor: string, p: string) {
    && id in s.sessions && s.sessions[id].provider == p && s.sessions[id].actor == actor
    && s.now < s.sessions[id].expiresAt
  }

  /** The state after an operation that was turned away: a session that its own actor found expired is gone. */
  ghost predicate TurnedAway(s: State, t: State, id: nat, actor: string, p: string) {
    && t.pending == s.pending && t.posted == s.posted && t.now == s.now && t.next == s.next
    && if id in s.sessions && s.sessions[id].provider == p && s.sessions[id].actor == actor
          && s.sessions[id].expiresAt <= s.now then
         && t.sessions == s.sessions - {id}
         && (p in t.active ==> t.active[p] != id)
       else t == s
  }

  /** A callback is forwarded exactly once it is certain whose session it is for, that it awaits one, and in time. */
  lemma SubmitDecides(ttl: nat, s: State, p: string, id: nat, actor: string, urlOk: bool)
    requires p !in s.pending
    ensures var t := Step(ttl, s, SubmitBegins(p, id, actor, urlOk));
      if Serves(s, id, actor, p) && s.sessions[id].phase == AwaitingCallback && urlOk
      then t == s.(pending := s.pending[p := Submitting(id)], posted := s.posted + [id])
      else TurnedAway(s, t, id, actor, p)
  {
  }

  /** A login is asked about exactly while the session is the caller's, in time, and neither ready nor failed. */
  lemma StatusDecides(ttl: nat, s: State, p: string, id: nat, actor: string)
    requires p !in s.pending
    ensures var t := Step(ttl, s, StatusBegins(p, id, actor));
      if Serves(s, id, actor, p) && s.sessions[id].phase != Ready && s.sessions[id].phase != Failed
      then t == s.(pending := s.pending[p := Checking(id)])
      else TurnedAway(s, t, id, actor, p)
  {
  }

  /** A session may be started exactly when the provider has none under way that is still in time. */
  lemma StartDecides(ttl: nat, now: int, events: seq<Event>, p: string, actor: string)
    requires p !in Run(ttl, Initial(now), events).pending
    ensures var s := Run(ttl, Initial(now), events); var t := Step(ttl, s, StartBegins(p, actor));
      if exists id: nat :: LiveOf(s, p, id) && s.now < s.sessions[id].expiresAt then t == s
      else
        && t.pending == s.pending[p := Starting(s.next, actor)] && t.next == s.next + 1
        && p in t.active && t.active[p] == s.next
        && forall id :: id in s.sessions && !LiveOf(s, p, id) ==> id in t.sessions && t.sessions[id] == s.sessions[id]
  {
    ActiveEntryIsTheLiveSession(ttl, now, events, p);
    InvHoldsOnEveryRun(ttl, now, events);
    assert EntryOk(Run(ttl, Initial(now), events), p);
  }

  /** Only an answer stores the session, from now on for `ttl`; otherwise the provider is free again. */
  lemma StartEndDecides(ttl: nat, s: State, p: string, ok: bool)
    requires Inv(s) && Enabled(s, StartEnds(p, ok))
    ensures var t := Step(ttl, s, StartEnds(p, ok)); var Starting(id, actor) := s.pending[p];
      && Released(s, t, p, id)
      && if ok then
           && id in t.sessions && t.sessions[id] == Session(p, actor, s.now + ttl, AwaitingCallback)
           && p in t.active && t.active[p] == id
         else id !in t.sessions && p !in t.active
  {
    assert PendingOk(s, p) && EntryOk(s, p);
  }

  // ---- What must have happened before

  /** The actor has begun to start session `id` of this provider, with event i. */
  ghost predicate StartedAt(ttl: nat, now: int, events: seq<Event>, i: nat, p: string, id: nat, actor: string) {
    && i < |events| && events[i] == StartBegins(p, actor)
    && p !in Run(ttl, Initial(now), events[..i]).pending && Run(ttl, Initial(now), events[..i]).next == id
  }

  ghost predicate Started(ttl: nat, now: int, events: seq<Event>, p: string, id: nat, actor: string) {
    exists i: nat :: StartedAt(ttl, now, events, i, p, id, actor)
  }

  /** With event j the management API answered that start, and the session's time began to run. */
  ghost predicate BornAt(ttl: nat, now: int, events: seq<Event>, j: nat, id: nat, p: string, actor: string,
          expiresAt: int)
  {
    && j < |events| && events[j] == StartEnds(p, true)
    && Started(ttl, now, events[..j], p, id, actor)
    && expiresAt == Run(ttl, Initial(now), events[..j]).now + ttl
  }

  ghost predicate Born(ttl: nat, now: int, events: seq<Event>, id: nat, p: string, actor: string, expiresAt: int) {
    exists j: nat :: BornAt(ttl, now, events, j, id, p, actor, expiresAt)
  }

  /** With event k an operation that waited on the session brought it to the phase. */
  ghost predicate BroughtAt(ttl: nat, now: int, events: seq<Event>, k: nat, p: string, id: nat, phase: Phase) {
    && k < |events|
    && var s := Run(ttl, Initial(now), events[..k]);
    && p in s.pending && s.pending[p].id == id
    && match phase
       case AwaitingCallback => false
       case CallbackAccepted => s.pending[p].Submitting? && events[k] == SubmitEnds(p, true)
       case Ready => s.pending[p].Checking? && events[k] == StatusEnds(p, Bound)
       case Failed => || (s.pending[p].Submitting? && events[k] == SubmitEnds(p, false))
                      || (s.pending[p].Checking? && events[k] == StatusEnds(p, Broken))
  }

  ghost predicate Brought(ttl: nat, now: int, events: seq<Event>, p: string, id: nat, phase: Phase) {
    phase == AwaitingCallback || exists k: nat :: BroughtAt(ttl, now, events, k, p, id, phase)
  }

  /** The session's actor has begun the operation that now waits on the session, in time. */
  ghost predicate BegunAt(ttl: nat, now: int, events: seq<Event>, k: nat, p: string, id: nat, submit: bool) {
    && k < |events|
    && var s := Run(ttl, Initial(now), events[..k]);
    && id in s.sessions && s.now < s.sessions[id].expiresAt
    && Born(ttl, now, events[..k], id, p, s.sessions[id].actor, s.sessions[id].expiresAt)
    && if submit then events[k] == SubmitBegins(p, id, s.sessions[id].actor, true)
       else events[k] == StatusBegins(p, id, s.sessions[id].actor)
  }

  ghost predicate Begun(ttl: nat, now: int, events: seq<Event>, p: string, id: nat, submit: bool) {
    exists k: nat :: BegunAt(ttl, now, events, k, p, id, submit)
  }

  /** The operation that waits for `w` has begun as it must. */
  ghost predicate WasBegun(ttl: nat, now: int, events: seq<Event>, p: string, w: Pending) {
    match w
    case Starting(id, actor) => Started(ttl, now, events, p, id, actor)
    case Submitting(id) => Begun(ttl, now, events, p, id, true)
    case Checking(id) => Begun(ttl, now, events, p, id, false)
  }

  lemma BegunBefore(ttl: nat, now: int, events: seq<Event>, n: nat, p: string, w: Pending)
    requires n <= |events| && WasBegun(ttl, now, events[..n], p, w)
    ensures WasBegun(ttl, now, events, p, w)
  {
    match w
    case Starting(id, actor) => StartedStays(ttl, now, events, n, p, id, actor);
    case Submitting(id) => BegunStays(ttl, now, events, n, p, id, true);
    case Checking(id) => BegunStays(ttl, now, events, n, p, id, false);
  }

  lemma StartedStays(ttl: nat, now: int, events: seq<Event>, n: nat, p: string, id: nat, actor: string)
    requires n <= |events| && Started(ttl, now, events[..n], p, id, actor)
    ensures Started(ttl, now, events, p, id, actor)
  {
    var i: nat :| StartedAt(ttl, now, events[..n], i, p, id, actor);
    assert events[..n][..i] == events[..i];
    assert StartedAt(ttl, now, events, i, p, id, actor);
  }

  lemma BornStays(ttl: nat, now: int, events: seq<Event>, n: nat, id: nat, p: string, actor: string, expiresAt: int)
    requires n <= |events| && Born(ttl, now, events[..n], id, p, actor, expiresAt)
    ensures Born(ttl, now, events, id, p, actor, expiresAt)
  {
    var j: nat :| BornAt(ttl, now, events[..n], j, id, p, actor, expiresAt);
    assert events[..n][..j] == events[..j];
    assert BornAt(ttl, now, events, j, id, p, actor, expiresAt);
  }

  lemma BroughtStays(ttl: nat, now: int, events: seq<Event>, n: nat, p: string, id: nat, phase: Phase)
    requires n <= |events| && Brought(ttl, now, events[..n], p, id, phase)
    ensures Brought(ttl, now, events, p, id, phase)
  {
    if phase != AwaitingCallback {
      var k: nat :| BroughtAt(ttl, now, events[..n], k, p, id, phase);
      assert events[..n][..k] == events[..k];
      assert BroughtAt(ttl, now, events, k, p, id, phase);
    }
  }

  lemma BegunStays(ttl: nat, now: int, events: seq<Event>, n: nat, p: string, id: nat, submit: bool)
    requires n <= |events| && Begun(ttl, now, events[..n], p, id, submit)
    ensures Begun(ttl, now, events, p, id, submit)
  {
    var k: nat :| BegunAt(ttl, now, events[..n], k, p, id, submit);
    assert events[..n][..k] == events[..k];
    assert BegunAt(ttl, now, events, k, p, id, submit);
  }

  /** What one step may do to a stored session. */
  lemma SessionStep(ttl: nat, s: State, e: Event, id: nat)
    requires Inv(s) && id in Step(ttl, s, e).sessions
    ensures var session := Step(ttl, s, e).sessions[id];
      if id !in s.sessions then
        && Enabled(s, e) && e == StartEnds(session.provider, true)
        && s.pending[session.provider] == Starting(id, session.actor)
        && session.expiresAt == s.now + ttl && session.phase == AwaitingCallback
      else
        && session == s.sessions[id].(phase := session.phase)
        && (session.phase != s.sessions[id].phase ==>
             && Enabled(s, e) && (e.SubmitEnds? || e.StatusEnds?)
             && e.provider == session.provider && s.pending[e.provider].id == id
             && session.phase == Reached(e, s.sessions[id].phase))
  {
    match e
    case StartEnds(p, _) => assert PendingOk(s, p) && EntryOk(s, p);
    case SubmitEnds(p, _) => assert PendingOk(s, p);
    case StatusEnds(p, _) => assert PendingOk(s, p);
    case _ =>
  }

  /** What one step may make a provider wait for. */
  lemma PendingStep(ttl: nat, s: State, e: Event, p: string)
    requires p in Step(ttl, s, e).pending
    ensures var w := Step(ttl, s, e).pending[p];
      || (p in s.pending && s.pending[p] == w)
      || (p !in s.pending && match w
            case Starting(id, actor) => e == StartBegins(p, actor) && id == s.next
            case Submitting(id) => exists actor :: e == SubmitBegins(p, id, actor, true) && Serves(s, id, actor, p)
            case Checking(id) => exists actor :: e == StatusBegins(p, id, actor) && Serves(s, id, actor, p))
  {
  }

  /** Whatever a provider waits for, its operation has begun as it must. */
  lemma {:induction false} WaitWasBegun(ttl: nat, now: int, events: seq<Event>, p: string)
    requires p in Run(ttl, Initial(now), events).pending
    ensures WasBegun(ttl, now, events, p, Run(ttl, Initial(now), events).pending[p])
    decreases |events|, 0
  {
    var n := |events| - 1;
    var s, e := Run(ttl, Initial(now), events[..n]), events[n];
    var w := Run(ttl, Initial(now), events).pending[p];
    PendingStep(ttl, s, e, p);
    if p in s.pending && s.pending[p] == w {
      WaitWasBegun(ttl, now, events[..n], p);
      BegunBefore(ttl, now, events, n, p, w);
    } else {
      match w
      case Starting(id, actor) => assert StartedAt(ttl, now, events, n, p, id, actor);
      case Submitting(id) =>
        SessionWasBorn(ttl, now, events[..n], id);
        assert BegunAt(ttl, now, events, n, p, id, true);
      case Checking(id) =>
        SessionWasBorn(ttl, now, events[..n], id);
        assert BegunAt(ttl, now, events, n, p, id, false);
    }
  }

  /**
   Every stored session goes back to the actor it names, who started it with its provider, and expires `ttl` after
   the management API answered; and it is in its phase because an operation that waited on it brought it there: a
   forwarded callback that was accepted, a login that was bound, or one of the two that failed.
   */
  lemma {:induction false} SessionWasBorn(ttl: nat, now: int, events: seq<Event>, id: nat)
    requires id in Run(ttl, Initial(now), events).sessions
    ensures var session := Run(ttl, Initial(now), events).sessions[id];
      && Born(ttl, now, events, id, session.provider, session.actor, session.expiresAt)
      && Brought(ttl, now, events, session.provider, id, session.phase)
    decreases |events|, 1
  {
    var n := |events| - 1;
    var s, e := Run(ttl, Initial(now), events[..n]), events[n];
    var session := Run(ttl, Initial(now), events).sessions[id];
    InvHoldsOnEveryRun(ttl, now, events[..n]);
    SessionStep(ttl, s, e, id);
    if id in s.sessions {
      SessionWasBorn(ttl, now, events[..n], id);
      BornStays(ttl, now, events, n, id, session.provider, session.actor, session.expiresAt);
      if session.phase == s.sessions[id].phase {
        BroughtStays(ttl, now, events, n, session.provider, id, session.phase);
      } else {
        assert BroughtAt(ttl, now, events, n, session.provider, id, session.phase);
      }
    } else {
      WaitWasBegun(ttl, now, events[..n], session.provider);
      assert BornAt(ttl, now, events, n, id, session.provider, session.actor, session.expiresAt);
    }
  }
}
