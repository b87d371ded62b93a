/** The OAuth operations on the service's own maps and session objects (apps/cliproxy-control/src/service.ts). */
module OAuthService {
  import opened Prelude
  import M = OAuthSessions

  class OAuthSession {
    const sessionId: nat
    const provider: string
    const actor: string
    const expiresAt: int
    var phase: M.Phase

    constructor (sessionId: nat, provider: string, actor: string, expiresAt: int)
      ensures this.sessionId == sessionId && this.provider == provider && this.actor == actor
      ensures this.expiresAt == expiresAt
      ensures phase == M.AwaitingCallback
    {
      this.sessionId, this.provider, this.actor, this.expiresAt := sessionId, provider, actor, expiresAt;
      phase := M.AwaitingCallback;
    }
  }

  datatype SessionError = SessionNotFound | SessionExpired

  class CliProxyControlService {
    var oauthSessions: map<nat, OAuthSession>
    var activeOAuthProviders: map<string, nat>
    const ttl: nat
    ghost var model: M.State

    ghost predicate Agrees(id: nat)
      requires id in oauthSessions && id in model.sessions
      reads this, oauthSessions[id]
    {
      var o := oauthSessions[id];
      o.sessionId == id && M.Session(o.provider, o.actor, o.expiresAt, o.phase) == model.sessions[id]
    }

    ghost predicate Valid()
      reads this, oauthSessions.Values
    {
      && oauthSessions.Keys == model.sessions.Keys
      && (forall id :: id in oauthSessions ==> Agrees(id))
      && activeOAuthProviders == model.active
    }

    constructor (ttl: nat, ghost now: int)
      ensures Valid() && model == M.Initial(now) && this.ttl == ttl
    {
      this.ttl := ttl;
      oauthSessions, activeOAuthProviders, model := map[], map[], M.Initial(now);
    }

    /** The stored session, unless it is unknown, somebody else's, or expired; an expired one is dropped. */
    method RequiredOAuthSession(id: nat, actor: string, provider: string, now: int)
      returns (r: Result<OAuthSession, SessionError>)
      requires Valid() && now == model.now
      modifies this
      ensures Valid() && model == M.Required(old(model), id, actor, provider)
      ensures r.Ok? <==> M.Usable(old(model), id, actor, provider)
      ensures r.Ok? ==> id in oauthSessions && r.value == oauthSessions[id] && model == old(model)
    {
      if id !in oauthSessions || oauthSessions[id].provider != provider || oauthSessions[id].actor != actor {
        return Err(SessionNotFound);
      }
      var session := oauthSessions[id];
      assert Agrees(id);
      if session.expiresAt <= now {
        model := M.Required(model, id, actor, provider);
        oauthSessions := oauthSessions - {id};
        if provider in activeOAuthProviders && activeOAuthProviders[provider] == id {
          activeOAuthProviders := activeOAuthProviders - {provider};
        }
        forall i | i in oauthSessions ensures Agrees(i) { assert old(Agrees(i)); }
        return Err(SessionExpired);
      }
      return Ok(session);
    }

    method ReleaseExpiredOAuthProvider(provider: string, now: int)
      requires Valid() && now == model.now
      modifies this
      ensures Valid() && model == M.ReleaseExpired(old(model), provider)
      ensures oauthSessions.Keys <= old(oauthSessions.Keys)
      ensures forall id :: id in oauthSessions ==> oauthSessions[id] == old(oauthSessions[id])
    {
      if provider !in activeOAuthProviders { return; }
      var id := activeOAuthProviders[provider];
      assert id in oauthSessions ==> Agrees(id);
      if id !in oauthSessions || oauthSessions[id].expiresAt <= now {
        model := M.ReleaseExpired(model, provider);
        activeOAuthProviders := activeOAuthProviders - {provider};
        if id in oauthSessions { oauthSessions := oauthSessions - {id}; }
        assert model.sessions.Keys == old(model.sessions.Keys) - {id};
        forall i | i in oauthSessions ensures Agrees(i) { assert old(Agrees(i)); }
      }
    }

    /** Moves a stored session on; the others are untouched. */
    method SetPhase(session: OAuthSession, phase: M.Phase)
      requires Valid() && session.sessionId in oauthSessions && oauthSessions[session.sessionId] == session
      modifies session, this`model
      ensures Valid() && model == M.SetPhase(old(model), session.sessionId, phase)
    {
      assert Agrees(session.sessionId);
      session.phase := phase;
      model := M.SetPhase(model, session.sessionId, phase);
      forall i | i in oauthSessions ensures Agrees(i) {
        assert old(Agrees(i));
        assert i != session.sessionId ==> oauthSessions[i] != session;
      }
    }

    method FailOAuthSession(session: OAuthSession)
      requires Valid() && session.sessionId in oauthSessions && oauthSessions[session.sessionId] == session
      modifies session, this`model, this`activeOAuthProviders
      ensures Valid() && model == M.Fail(old(model), session.provider, session.sessionId)
    {
      SetPhase(session, M.Failed);
      if session.provider in activeOAuthProviders && activeOAuthProviders[session.provider] == session.sessionId {
        activeOAuthProviders := activeOAuthProviders - {session.provider};
      }
      model := M.Fail(old(model), session.provider, session.sessionId);
      forall i | i in oauthSessions ensures Agrees(i) {
        assert i != session.sessionId ==> old(Agrees(i));
      }
    }

    /** The session is ready, and its provider is free for another one. */
    method FinishOAuthSession(session: OAuthSession)
      requires Valid() && session.sessionId in oauthSessions && oauthSessions[session.sessionId] == session
      modifies session, this`model, this`activeOAuthProviders
      ensures Valid()
      ensures var ready := M.SetPhase(old(model), session.sessionId, M.Ready);
        model == ready.(active := ready.active - {session.provider})
    {
      SetPhase(session, M.Ready);
      ghost var ready := model;
      activeOAuthProviders := activeOAuthProviders - {session.provider};
      model := model.(active := model.active - {session.provider});
      forall i | i in oauthSessions ensures Agrees(i) { assert model.sessions == ready.sessions; }
    }

    /** `startOAuth` up to its call of the management API; `newId` is the new session id. */
    method StartBegins(provider: string, actor: string, newId: nat, now: int) returns (sessionId: Option<nat>)
      requires Valid() && now == model.now && newId == model.next && provider !in model.pending
      modifies this
      ensures Valid() && model == M.Step(ttl, old(model), M.StartBegins(provider, actor))
      ensures sessionId.Some? <==> provider in model.pending
    {
      ReleaseExpiredOAuthProvider(provider, now);
      if provider in activeOAuthProviders { return None; }
      activeOAuthProviders := activeOAuthProviders[provider := newId];
      ghost var released := model;
      model := M.StartBegin(old(model), provider, actor);
      forall i | i in oauthSessions ensures Agrees(i) { assert model.sessions == released.sessions; }
      return Some(newId);
    }

    /** The rest of `startOAuth`, once the management API has answered or failed. */
    method StartEnds(provider: string, sessionId: nat, actor: string, now: int, ok: bool)
      requires Valid() && now == model.now
      requires provider in model.pending && model.pending[provider] == M.Starting(sessionId, actor)
      modifies this
      ensures Valid() && model == M.Step(ttl, old(model), M.StartEnds(provider, ok))
    {
      if ok {
        var session := new OAuthSession(sessionId, provider, actor, now + ttl);
        oauthSessions := oauthSessions[sessionId := session];
      } else {
        activeOAuthProviders := activeOAuthProviders - {provider};
      }
      model := M.Step(ttl, model, M.StartEnds(provider, ok));
      forall i | i in oauthSessions ensures Agrees(i) {
        assert i in old(oauthSessions) ==> old(Agrees(i));
      }
    }

    /** `submitOAuthCallback` up to the forwarding of the callback. */
    method SubmitBegins(provider: string, id: nat, actor: string, urlOk: bool, now: int)
      returns (session: Option<OAuthSession>)
      requires Valid() && now == model.now && provider !in model.pending
      modifies this
      ensures Valid() && model == M.Step(ttl, old(model), M.SubmitBegins(provider, id, actor, urlOk))
      ensures session.Some? <==> provider in model.pending
      ensures session.Some? ==> id in oauthSessions && session.value == oauthSessions[id]
    {
      var r := RequiredOAuthSession(id, actor, provider, now);
      if r.Err? { return None; }
      assert Agrees(id);
      if !r.value.phase.AwaitingCallback? || !urlOk { return None; }
      model := M.Step(ttl, old(model), M.SubmitBegins(provider, id, actor, urlOk));
      forall i | i in oauthSessions ensures Agrees(i) { assert model.sessions == old(model.sessions); }
      return Some(r.value);
    }

    method SubmitEnds(provider: string, session: OAuthSession, ok: bool)
      requires Valid() && session.sessionId in oauthSessions && oauthSessions[session.sessionId] == session
      requires session.provider == provider
      requires provider in model.pending && model.pending[provider] == M.Submitting(session.sessionId)
      modifies session, this
      ensures Valid() && model == M.Step(ttl, old(model), M.SubmitEnds(provider, ok))
    {
      Unlock(provider);
      if ok { SetPhase(session, M.CallbackAccepted); } else { FailOAuthSession(session); }
    }

    /** The lock's own release, which the service's maps do not see. */
    ghost method Unlock(provider: string)
      requires Valid()
      modifies this`model
      ensures Valid() && model == M.Unlock(old(model), provider)
    {
      model := M.Unlock(model, provider);
      forall i | i in oauthSessions ensures Agrees(i) { assert old(Agrees(i)); }
    }

    /** `oauthStatus` up to its first call of the management API; None when it ends at once. */
    method StatusBegins(provider: string, id: nat, actor: string, now: int) returns (session: Option<OAuthSession>)
      requires Valid() && now == model.now && provider !in model.pending
      modifies this
      ensures Valid() && model == M.Step(ttl, old(model), M.StatusBegins(provider, id, actor))
      ensures session.Some? <==> provider in model.pending
      ensures session.Some? ==> id in oauthSessions && session.value == oauthSessions[id]
    {
      var r := RequiredOAuthSession(id, actor, provider, now);
      if r.Err? { return None; }
      assert Agrees(id);
      if r.value.phase.Ready? || r.value.phase.Failed? { return None; }
      model := M.Step(ttl, old(model), M.StatusBegins(provider, id, actor));
      forall i | i in oauthSessions ensures Agrees(i) { assert model.sessions == old(model.sessions); }
      return Some(r.value);
    }

    method StatusEnds(provider: string, session: OAuthSession, verdict: M.Verdict)
      requires Valid() && session.sessionId in oauthSessions && oauthSessions[session.sessionId] == session
      requires session.provider == provider
      requires provider in model.pending && model.pending[provider] == M.Checking(session.sessionId)
      modifies session, this
      ensures Valid() && model == M.Step(ttl, old(model), M.StatusEnds(provider, verdict))
    {
      Unlock(provider);
      match verdict
      case StillPending =>
      case Bound =>
        FinishOAuthSession(session);
      case Broken => FailOAuthSession(session);
    }
  }
}
