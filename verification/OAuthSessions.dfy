/**
 OAuth sessions of the control service (apps/cliproxy-control/src/service.ts). Operations on one provider run under
 that provider's lock; each is split at its calls to the management API, so that operations on different
 providers, and the passing of time, interleave with it.
 */
module OAuthSessions {

  datatype Phase = AwaitingCallback | CallbackAccepted | Ready | Failed

  predicate Live(phase: Phase) {
    phase.AwaitingCallback? || phase.CallbackAccepted?
  }

  datatype Session = Session(provider: string, actor: string, expiresAt: int, phase: Phase)

  /** What the holder of a provider's lock is waiting for. */
  datatype Pending = Starting(id: nat, actor: string) | Submitting(id: nat) | Checking(id: nat)

  /** Session ids below `next` have been handed out; `posted` lists the sessions whose callback was forwarded. */
  datatype State = State(
    now: int,
    next: nat,
    sessions: map<nat, Session>,
    active: map<string, nat>,
    pending: map<string, Pending>,
    posted: seq<nat>)

  datatype Verdict = StillPending | Bound | Broken

  datatype Event =
    | Tick(now: int)
    | StartBegins(provider: string, actor: string)
    | StartEnds(provider: string, ok: bool)
    | SubmitBegins(provider: string, id: nat, actor: string, urlOk: bool)
    | SubmitEnds(provider: string, ok: bool)
    | StatusBegins(provider: string, id: nat, actor: string)
    | StatusEnds(provider: string, verdict: Verdict)

  function Initial(now: int): State {
    State(now, 0, map[], map[], map[], [])
  }

  predicate Owned(s: State, id: nat, actor: string, provider: string) {
    id in s.sessions && s.sessions[id].provider == provider && s.sessions[id].actor == actor
  }

  predicate Expired(s: State, id: nat) {
    id in s.sessions && s.sessions[id].expiresAt <= s.now
  }

  /** Forget the session, and the provider's active entry when it names it. */
  function Drop(s: State, provider: string, id: nat): State {
    s.(sessions := s.sessions - {id},
       active := if provider in s.active && s.active[provider] == id then s.active - {provider} else s.active)
  }

  /** Looking a session up drops it once it has expired. */
  function Required(s: State, id: nat, actor: string, provider: string): State {
    if Owned(s, id, actor, provider) && Expired(s, id) then Drop(s, provider, id) else s
  }

  predicate Usable(s: State, id: nat, actor: string, provider: string) {
    Owned(s, id, actor, provider) && !Expired(s, id)
  }

  function ReleaseExpired(s: State, provider: string): State {
    if provider in s.active && (s.active[provider] !in s.sessions || Expired(s, s.active[provider]))
    then Drop(s, provider, s.active[provider])
    else s
  }

  function SetPhase(s: State, id: nat, phase: Phase): State
    requires id in s.sessions
  {
    s.(sessions := s.sessions[id := s.sessions[id].(phase := phase)])
  }

  function Fail(s: State, provider: string, id: nat): State
    requires id in s.sessions
  {
    SetPhase(s, id, Failed).(
      active := if provider in s.active && s.active[provider] == id then s.active - {provider} else s.active)
  }

  function Unlock(s: State, provider: string): State {
    s.(pending := s.pending - {provider})
  }

  function StartBegin(s: State, provider: string, actor: string): State {
    var r := ReleaseExpired(s, provider);
    if provider in r.active then r
    else r.(next := r.next + 1, active := r.active[provider := r.next],
      pending := r.pending[provider := Starting(r.next, actor)])
  }

  function StartEnd(ttl: nat, s: State, provider: string, ok: bool): State
    requires provider in s.pending && s.pending[provider].Starting?
  {
    var p := s.pending[provider];
    var u := Unlock(s, provider);
    if ok then u.(sessions := u.sessions[p.id := Session(provider, p.actor, u.now + ttl, AwaitingCallback)])
    else u.(active := u.active - {provider})
  }

  function SubmitBegin(s: State, provider: string, id: nat, actor: string, urlOk: bool): State {
    if Usable(s, id, actor, provider) && s.sessions[id].phase.AwaitingCallback? && urlOk
    then s.(pending := s.pending[provider := Submitting(id)], posted := s.posted + [id])
    else Required(s, id, actor, provider)
  }

  function SubmitEnd(s: State, provider: string, ok: bool): State
    requires provider in s.pending && s.pending[provider].Submitting? && s.pending[provider].id in s.sessions
  {
    var id := s.pending[provider].id;
    var u := Unlock(s, provider);
    if ok then SetPhase(u, id, CallbackAccepted) else Fail(u, provider, id)
  }

  function StatusBegin(s: State, provider: string, id: nat, actor: string): State {
    if Usable(s, id, actor, provider) && Live(s.sessions[id].phase)
    then s.(pending := s.pending[provider := Checking(id)])
    else Required(s, id, actor, provider)
  }

  function StatusEnd(s: State, provider: string, verdict: Verdict): State
    requires provider in s.pending && s.pending[provider].Checking? && s.pending[provider].id in s.sessions
  {
    var id := s.pending[provider].id;
    var u := Unlock(s, provider);
    match verdict
    case StillPending => u
    case Bound => SetPhase(u, id, Ready).(active := u.active - {provider})
    case Broken => Fail(u, provider, id)
  }

  /** Operations begin only while their provider's lock is free, and end only while they hold it. */
  predicate Enabled(s: State, e: Event) {
    match e
    case Tick(now) => s.now <= now
    case StartBegins(p, _) => p !in s.pending
    case SubmitBegins(p, _, _, _) => p !in s.pending
    case StatusBegins(p, _, _) => p !in s.pending
    case StartEnds(p, _) => p in s.pending && s.pending[p].Starting?
    case SubmitEnds(p, _) => p in s.pending && s.pending[p].Submitting? && s.pending[p].id in s.sessions
    case StatusEnds(p, _) => p in s.pending && s.pending[p].Checking? && s.pending[p].id in s.sessions
  }

  function Step(ttl: nat, s: State, e: Event): State {
    if !Enabled(s, e) then s
    else match e
      case Tick(now) => s.(now := now)
      case StartBegins(p, actor) => StartBegin(s, p, actor)
      case StartEnds(p, ok) => StartEnd(ttl, s, p, ok)
      case SubmitBegins(p, id, actor, urlOk) => SubmitBegin(s, p, id, actor, urlOk)
      case SubmitEnds(p, ok) => SubmitEnd(s, p, ok)
      case StatusBegins(p, id, actor) => StatusBegin(s, p, id, actor)
      case StatusEnds(p, verdict) => StatusEnd(s, p, verdict)
  }

  function Run(ttl: nat, s: State, events: seq<Event>): State
    decreases |events|
  {
    if events == [] then s
    else Step(ttl, Run(ttl, s, events[..|events| - 1]), events[|events| - 1])
  }

  // ---- The invariant

  /** A provider's active entry names its live session, or the one being started. */
  predicate EntryOk(s: State, p: string) {
    p in s.active ==>
      var id := s.active[p];
      && id < s.next
      && if p in s.pending && s.pending[p].Starting? then s.pending[p].id == id && id !in s.sessions
         else id in s.sessions && s.sessions[id].provider == p && Live(s.sessions[id].phase)
  }

  /** A live session is the one its provider's active entry names. */
  predicate SessionOk(s: State, id: nat) {
    id in s.sessions ==>
      && id < s.next
      && (Live(s.sessions[id].phase) ==> s.sessions[id].provider in s.active && s.active[s.sessions[id].provider] == id)
  }

  /** The session an operation waits for is still there, in the phase the operation found it in. */
  predicate PendingOk(s: State, p: string) {
    p in s.pending ==>
      match s.pending[p]
      case Starting(id, _) => p in s.active && s.active[p] == id && id !in s.posted
      case Submitting(id) => id in s.sessions && s.sessions[id].provider == p && s.sessions[id].phase.AwaitingCallback?
      case Checking(id) => id in s.sessions && s.sessions[id].provider == p && Live(s.sessions[id].phase)
  }

  /** A session that awaits its callback has had none forwarded, unless that is happening right now. */
  predicate PostOk(s: State, id: nat) {
    && (id in s.posted ==> id < s.next)
    && (id in s.posted && id in s.sessions && s.sessions[id].phase.AwaitingCallback? ==>
          s.sessions[id].provider in s.pending && s.pending[s.sessions[id].provider] == Submitting(id))
  }

  ghost predicate Once(posted: seq<nat>) {
    forall i, j :: 0 <= i < j < |posted| ==> posted[i] != posted[j]
  }

  /** Different providers have different sessions under way. */
  predicate Apart(s: State, p: string, q: string) {
    p in s.active && q in s.active && p != q ==> s.active[p] != s.active[q]
  }

  ghost predicate Inv(s: State) {
    && (forall p, q {:trigger Apart(s, p, q)} :: Apart(s, p, q))
    && (forall p {:trigger EntryOk(s, p)} :: EntryOk(s, p))
    && (forall id: nat {:trigger SessionOk(s, id)} :: SessionOk(s, id))
    && (forall p {:trigger PendingOk(s, p)} :: PendingOk(s, p))
    && (forall id: nat {:trigger PostOk(s, id)} :: PostOk(s, id))
    && Once(s.posted)
  }

  /** What the invariant says about one provider and one session. */
  predicate Local(s: State, p: string, id: nat) {
    EntryOk(s, p) && PendingOk(s, p) && SessionOk(s, id) && PostOk(s, id)
  }

  /** The invariant follows from what it says of each provider and session, one at a time. */
  lemma FromLocal(s: State)
    requires forall p, id: nat {:trigger Local(s, p, id)} :: Local(s, p, id)
    requires forall p, q {:trigger Apart(s, p, q)} :: Apart(s, p, q)
    requires Once(s.posted)
    ensures Inv(s)
  {
    forall p ensures EntryOk(s, p) && PendingOk(s, p) { assert Local(s, p, 0); }
    forall id: nat ensures SessionOk(s, id) && PostOk(s, id) { assert Local(s, "", id); }
  }

  /** Dropping a session of a provider whose lock is free. */
  lemma DropKeeps(s: State, q: string, dropped: nat)
    requires Inv(s) && q !in s.pending && dropped in s.sessions && s.sessions[dropped].provider == q
    ensures Inv(Drop(s, q, dropped))
  {
    var t := Drop(s, q, dropped);
    forall p, id: nat ensures Local(t, p, id) {
      assert EntryOk(s, p) && PendingOk(s, p) && SessionOk(s, id) && PostOk(s, id);
      assert EntryOk(s, q) && SessionOk(s, dropped);
    }
    forall p, r ensures Apart(t, p, r) { assert Apart(s, p, r); }
    FromLocal(t);
  }

  lemma StartBeginKeeps(s: State, q: string, actor: string)
    requires Inv(s) && q !in s.pending
    ensures Inv(StartBegin(s, q, actor))
  {
    assert EntryOk(s, q);
    var r := ReleaseExpired(s, q);
    if r != s { DropKeeps(s, q, s.active[q]); }
    if q !in r.active {
      var t := StartBegin(s, q, actor);
      assert SessionOk(r, r.next) && PostOk(r, r.next);
      forall p, id: nat ensures Local(t, p, id) {
        assert EntryOk(r, p) && PendingOk(r, p) && SessionOk(r, id) && PostOk(r, id);
      }
      forall p, o ensures Apart(t, p, o) { assert Apart(r, p, o) && EntryOk(r, p) && EntryOk(r, o); }
      FromLocal(t);
    }
  }

  lemma StartEndKeeps(ttl: nat, s: State, q: string, ok: bool)
    requires Inv(s) && Enabled(s, StartEnds(q, ok))
    ensures Inv(StartEnd(ttl, s, q, ok))
  {
    var t := StartEnd(ttl, s, q, ok);
    assert EntryOk(s, q) && PendingOk(s, q);
    forall p, id: nat ensures Local(t, p, id) {
      assert EntryOk(s, p) && PendingOk(s, p) && SessionOk(s, id) && PostOk(s, id) && Apart(s, p, q);
    }
    forall p, r ensures Apart(t, p, r) { assert Apart(s, p, r); }
    FromLocal(t);
  }

  lemma LookupKeeps(s: State, id: nat, actor: string, q: string)
    requires Inv(s) && q !in s.pending
    ensures Inv(Required(s, id, actor, q))
  {
    if Owned(s, id, actor, q) { DropKeeps(s, q, id); }
  }

  lemma BeginKeeps(s: State, q: string, waited: nat, submit: bool)
    requires Inv(s) && q !in s.pending && waited in s.sessions && s.sessions[waited].provider == q
    requires Live(s.sessions[waited].phase)
    requires submit ==> s.sessions[waited].phase.AwaitingCallback?
    ensures submit ==> Inv(s.(pending := s.pending[q := Submitting(waited)], posted := s.posted + [waited]))
    ensures !submit ==> Inv(s.(pending := s.pending[q := Checking(waited)]))
  {
    var t := if submit then s.(pending := s.pending[q := Submitting(waited)], posted := s.posted + [waited])
             else s.(pending := s.pending[q := Checking(waited)]);
    assert EntryOk(s, q) && SessionOk(s, waited) && PostOk(s, waited);
    forall p, id: nat ensures Local(t, p, id) {
      assert EntryOk(s, p) && PendingOk(s, p) && SessionOk(s, id) && PostOk(s, id);
    }
    forall p, r ensures Apart(t, p, r) { assert Apart(s, p, r); }
    FromLocal(t);
  }

  /** Ending an operation that waited for a session: unlock, and move the session on or leave it. */
  lemma EndKeeps(s: State, q: string, t: State)
    requires Inv(s) && q in s.pending && !s.pending[q].Starting? && s.pending[q].id in s.sessions
    requires var id := s.pending[q].id; var u := Unlock(s, q);
      || t == Fail(u, q, id)
      || t == SetPhase(u, id, Ready).(active := u.active - {q})
      || (s.pending[q].Submitting? && t == SetPhase(u, id, CallbackAccepted))
      || (s.pending[q].Checking? && t == u)
    ensures Inv(t)
  {
    var moved := s.pending[q].id;
    assert EntryOk(s, q) && PendingOk(s, q) && SessionOk(s, moved) && PostOk(s, moved);
    forall p, id: nat ensures Local(t, p, id) {
      assert EntryOk(s, p) && PendingOk(s, p) && SessionOk(s, id) && PostOk(s, id) && Apart(s, p, q);
    }
    forall p, r ensures Apart(t, p, r) { assert Apart(s, p, r); }
    FromLocal(t);
  }

  lemma StepKeepsInv(ttl: nat, s: State, e: Event)
    requires Inv(s)
    ensures Inv(Step(ttl, s, e))
  {
    if Enabled(s, e) {
      match e
      case Tick(now) =>
        var t := s.(now := now);
        forall p, id: nat ensures Local(t, p, id) {
          assert EntryOk(s, p) && PendingOk(s, p) && SessionOk(s, id) && PostOk(s, id);
        }
        forall p, r ensures Apart(t, p, r) { assert Apart(s, p, r); }
        FromLocal(t);
      case StartBegins(p, actor) => StartBeginKeeps(s, p, actor);
      case StartEnds(p, ok) => StartEndKeeps(ttl, s, p, ok);
      case SubmitBegins(p, id, actor, urlOk) =>
        LookupKeeps(s, id, actor, p);
        if Usable(s, id, actor, p) && s.sessions[id].phase.AwaitingCallback? { BeginKeeps(s, p, id, true); }
      case SubmitEnds(p, ok) => EndKeeps(s, p, SubmitEnd(s, p, ok));
      case StatusBegins(p, id, actor) =>
        LookupKeeps(s, id, actor, p);
        if Usable(s, id, actor, p) && Live(s.sessions[id].phase) { BeginKeeps(s, p, id, false); }
      case StatusEnds(p, verdict) => EndKeeps(s, p, StatusEnd(s, p, verdict));
    }
  }
}
