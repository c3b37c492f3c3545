/**
 Login sessions whose refresh token is replaced each time it is used.
 A session is one family of refresh tokens; only its newest token is good.
 */
module AuthSessions {
  import opened Options

  type UserId = nat
  type SessionId = nat

  const WEEK := 7 * 24 * 60 * 60

  /** A signed refresh token. `expires` counts seconds, like the `exp` of the token. */
  datatype Token = Token(user: UserId, session: SessionId, jti: nat, expires: nat)

  /** `expiresAt` counts milliseconds. */
  datatype Session = Session(user: UserId, token: Token, expiresAt: nat, provider: string)

  /**
   The tables and the clock, in milliseconds. `issued` holds the tokens signed so far: the
   signature of a token verifies exactly when it is one of them.
   */
  datatype World = World(
    now: nat, users: set<UserId>, sessions: map<SessionId, Session>, cached: set<UserId>, issued: set<Token>,
    nextSession: SessionId, nextJti: nat)

  const START := World(0, {}, map[], {}, {}, 0, 0)

  datatype Event =
    | Login(user: UserId, provider: string)
    | Refresh(token: Token)
    | Logout(user: UserId, presented: Option<Token>)
    | AddUser(user: UserId)
    | RemoveUser(user: UserId)
    | Tick(ms: nat)

  datatype Denial = BadToken | BadSession | Reused | NoUser

  datatype Reply = Issued(token: Token) | Denied(reason: Denial) | Done

  // ----- One step ----------------------------------------------------------------------------

  predicate Expired(token: Token, now: nat) { now / 1000 >= token.expires }

  function Sign(w: World, user: UserId, session: SessionId): Token {
    Token(user, session, w.nextJti, w.now / 1000 + WEEK)
  }

  /** Stores a fresh token in the session, made or kept, and caches the user. */
  function Granted(w: World, user: UserId, provider: string, session: SessionId): World {
    var token := Sign(w, user, session);
    w.(sessions := w.sessions[session := Session(user, token, w.now + WEEK * 1000, provider)],
       cached := w.cached + {user}, issued := w.issued + {token}, nextJti := w.nextJti + 1)
  }

  /** Why a refresh is refused, if it is. */
  function Refusal(w: World, token: Token): Option<Denial> {
    if token !in w.issued || Expired(token, w.now) then Some(BadToken)
    else if token.session !in w.sessions then Some(BadSession)
    else
      var session := w.sessions[token.session];
      if session.user != token.user || session.expiresAt < w.now then Some(BadSession)
      else if session.token != token then Some(Reused)
      else if token.user !in w.users then Some(NoUser)
      else None
  }

  function Next(w: World, e: Event): (World, Reply) {
    match e
    case Login(user, provider) =>
      if user !in w.users then (w, Denied(NoUser))
      else
        var id := w.nextSession;
        (Granted(w, user, provider, id).(nextSession := id + 1), Issued(Sign(w, user, id)))
    case Refresh(token) =>
      (match Refusal(w, token)
       case Some(reason) =>
         (if reason == Reused then w.(sessions := w.sessions - {token.session}) else w, Denied(reason))
       case None =>
         (Granted(w, token.user, w.sessions[token.session].provider, token.session),
          Issued(Sign(w, token.user, token.session))))
    // Ending a session that is not there fails in the table, and logout swallows that.
    case Logout(user, presented) =>
      var kept := if presented.Some? && presented.value in w.issued then w.sessions - {presented.value.session}
                  else w.sessions;
      (w.(sessions := kept, cached := w.cached - {user}), Done)
    case AddUser(user) => (w.(users := w.users + {user}), Done)
    case RemoveUser(user) => (w.(users := w.users - {user}), Done)
    case Tick(ms) => (w.(now := w.now + ms), Done)
  }

  function Run(w: World, events: seq<Event>): World
    decreases |events|
  {
    if events == [] then w else Run(Next(w, events[0]).0, events[1..])
  }

  // ----- What every run keeps ------------------------------------------------------------------

  /** The session's token is its newest, and the session outlives every token it was given. */
  ghost predicate SessionOk(w: World, id: SessionId)
    requires id in w.sessions
  {
    var s := w.sessions[id];
    && id < w.nextSession
    && s.token in w.issued && s.token.session == id
    && forall t | t in w.issued && t.session == id ::
         t.user == s.user && t.jti <= s.token.jti && t.expires <= s.expiresAt / 1000
  }

  ghost predicate Inv(w: World) {
    && (forall t | t in w.issued ::
          t.session < w.nextSession && t.jti < w.nextJti && t.expires <= w.now / 1000 + WEEK)
    && (forall t, u | t in w.issued && u in w.issued && t.jti == u.jti :: t == u)
    && (forall id | id in w.sessions :: SessionOk(w, id))
  }

  lemma {:induction false} GrantedOk(w: World, user: UserId, provider: string, id: SessionId, next: SessionId)
    requires Inv(w) && w.nextSession <= next && id < next
    requires forall t | t in w.issued && t.session == id :: t.user == user
    ensures Inv(Granted(w, user, provider, id).(nextSession := next))
  {
    var u := Granted(w, user, provider, id).(nextSession := next);
    var token := Sign(w, user, id);
    assert u.issued == w.issued + {token};
    forall i | i in u.sessions ensures SessionOk(u, i) {
      if i == id {
        assert u.sessions[i].expiresAt / 1000 == w.now / 1000 + WEEK;
      } else {
        assert SessionOk(w, i);
      }
    }
  }

  /** Ending sessions, and time, harm nothing. */
  lemma {:induction false} FewerOk(w: World, u: World)
    requires Inv(w) && u.issued == w.issued && u.nextSession == w.nextSession && u.nextJti == w.nextJti
    requires w.now <= u.now && forall id | id in u.sessions :: id in w.sessions && u.sessions[id] == w.sessions[id]
    ensures Inv(u)
  {
    forall i | i in u.sessions ensures SessionOk(u, i) { assert SessionOk(w, i); }
  }

  lemma {:induction false} RefreshKeepsInv(w: World, token: Token)
    requires Inv(w)
    ensures Inv(Next(w, Refresh(token)).0)
  {
    var u := Next(w, Refresh(token)).0;
    if Refusal(w, token).None? {
      assert SessionOk(w, token.session);
      GrantedOk(w, token.user, w.sessions[token.session].provider, token.session, w.nextSession);
      assert u == u.(nextSession := w.nextSession);
    } else {
      FewerOk(w, u);
    }
  }

  lemma {:induction false} NextKeepsInv(w: World, e: Event)
    requires Inv(w)
    ensures Inv(Next(w, e).0)
  {
    match e
    case Login(user, provider) =>
      if user in w.users { GrantedOk(w, user, provider, w.nextSession, w.nextSession + 1); }
    case Refresh(token) => RefreshKeepsInv(w, token);
    case _ => FewerOk(w, Next(w, e).0);
  }

  lemma {:induction false} RunKeepsInv(w: World, events: seq<Event>)
    requires Inv(w)
    ensures Inv(Run(w, events))
    decreases |events|
  {
    if events != [] {
      NextKeepsInv(w, events[0]);
      RunKeepsInv(Next(w, events[0]).0, events[1..]);
    }
  }

  // ----- Which tokens are good ------------------------------------------------------------------

  ghost predicate Newest(w: World, token: Token) {
    token in w.issued && forall t | t in w.issued && t.session == token.session :: t.jti <= token.jti
  }

  /**
   A refresh succeeds exactly for the newest token of a session that has not been ended, before
   the token runs out, while its user is there. The session's own expiry never matters.
   */
  lemma {:induction false} AcceptsOnlyNewest(events: seq<Event>, token: Token)
    ensures
      var w := Run(START, events);
      Next(w, Refresh(token)).1.Issued? <==>
        Newest(w, token) && token.session in w.sessions && !Expired(token, w.now) && token.user in w.users
  {
    RunKeepsInv(START, events);
    var w := Run(START, events);
    if token in w.issued && token.session in w.sessions {
      assert SessionOk(w, token.session);
      var s := w.sessions[token.session];
      assert Newest(w, token) <==> s.token == token;
      assert !Expired(token, w.now) ==> s.expiresAt >= w.now;
    }
  }

  /** An issued token that is no longer, and so never again, its session's token. */
  ghost predicate Stale(w: World, token: Token) {
    token in w.issued && (token.session in w.sessions ==> w.sessions[token.session].token != token)
  }

  ghost predicate Ended(w: World, id: SessionId) { id < w.nextSession && id !in w.sessions }

  lemma {:induction false} StaleNext(w: World, e: Event, token: Token)
    requires Inv(w) && Stale(w, token)
    ensures Stale(Next(w, e).0, token) && Next(w, Refresh(token)).1.Denied?
  {}

  lemma {:induction false} EndedNext(w: World, e: Event, id: SessionId)
    requires Inv(w) && Ended(w, id)
    ensures Ended(Next(w, e).0, id)
  {}

  lemma {:induction false} StaleForGood(w: World, events: seq<Event>, token: Token)
    requires Inv(w) && Stale(w, token)
    ensures Stale(Run(w, events), token) && Next(Run(w, events), Refresh(token)).1.Denied?
    decreases |events|
  {
    if events == [] {
      StaleNext(w, Tick(0), token);
    } else {
      NextKeepsInv(w, events[0]);
      StaleNext(w, events[0], token);
      StaleForGood(Next(w, events[0]).0, events[1..], token);
    }
  }

  lemma {:induction false} EndedForGood(w: World, events: seq<Event>, id: SessionId)
    requires Inv(w) && Ended(w, id)
    ensures Ended(Run(w, events), id)
    decreases |events|
  {
    if events != [] {
      NextKeepsInv(w, events[0]);
      EndedNext(w, events[0], id);
      EndedForGood(Next(w, events[0]).0, events[1..], id);
    }
  }

  lemma {:induction false} RunSplits(w: World, first: seq<Event>, rest: seq<Event>)
    ensures Run(w, first + rest) == Run(Run(w, first), rest)
    decreases |first|
  {
    if first == [] {
      assert first + rest == rest;
    } else {
      assert (first + rest)[1..] == first[1..] + rest;
      RunSplits(Next(w, first[0]).0, first[1..], rest);
    }
  }

  /** Replies to the events of a run. */
  function Replies(w: World, events: seq<Event>): (r: seq<Reply>)
    ensures |r| == |events|
    decreases |events|
  {
    if events == [] then [] else [Next(w, events[0]).1] + Replies(Next(w, events[0]).0, events[1..])
  }

  lemma {:induction false} ReplyAt(w: World, events: seq<Event>, i: nat)
    requires i < |events|
    ensures Replies(w, events)[i] == Next(Run(w, events[..i]), events[i]).1
    ensures Run(w, events[..i + 1]) == Next(Run(w, events[..i]), events[i]).0
    decreases |events|
  {
    if i > 0 {
      ReplyAt(Next(w, events[0]).0, events[1..], i - 1);
      assert events[..i][1..] == events[1..][..i - 1] && events[..i + 1][1..] == events[1..][..i];
    } else {
      assert events[..1][1..] == [];
    }
  }

  lemma {:induction false} AcceptedIsStale(w: World, token: Token, rest: seq<Event>)
    requires Inv(w) && Next(w, Refresh(token)).1.Issued?
    ensures Next(Run(Next(w, Refresh(token)).0, rest), Refresh(token)).1.Denied?
  {
    var u := Next(w, Refresh(token)).0;
    NextKeepsInv(w, Refresh(token));
    assert u.sessions[token.session].token == Sign(w, token.user, token.session) != token;
    StaleForGood(u, rest, token);
  }

  /** Over every run, a refresh token is accepted at most once. */
  lemma {:induction false} SingleUse(events: seq<Event>, i: nat, j: nat, token: Token)
    requires i < j < |events| && events[i] == events[j] == Refresh(token)
    requires Replies(START, events)[i].Issued?
    ensures Replies(START, events)[j].Denied?
  {
    var w := Run(START, events[..i]);
    RunKeepsInv(START, events[..i]);
    ReplyAt(START, events, i);
    ReplyAt(START, events, j);
    AcceptedIsStale(w, token, events[i + 1..j]);
    assert events[..j] == events[..i + 1] + events[i + 1..j];
    RunSplits(START, events[..i + 1], events[i + 1..j]);
  }

  /** No token of an ended session is accepted again, whoever holds it. */
  lemma {:induction false} EndedSessionIsDead(first: seq<Event>, rest: seq<Event>, token: Token)
    requires Ended(Run(START, first), token.session)
    ensures Next(Run(START, first + rest), Refresh(token)).1.Denied?
  {
    RunKeepsInv(START, first);
    RunSplits(START, first, rest);
    EndedForGood(Run(START, first), rest, token.session);
  }

  /**
   Presenting a replaced token is always refused. It ends the session exactly when that token
   itself has not run out; after its own week a replaced token goes by unnoticed.
   */
  lemma {:induction false} ReuseEndsSessionIff(events: seq<Event>, token: Token)
    requires Stale(Run(START, events), token) && token.session in Run(START, events).sessions
    ensures
      var w := Run(START, events);
      var (u, reply) := Next(w, Refresh(token));
      && reply.Denied?
      && (Ended(u, token.session) <==> !Expired(token, w.now))
      && (!Ended(u, token.session) ==> u == w)
      && (forall id | id != token.session :: id in u.sessions <==> id in w.sessions)
  {
    RunKeepsInv(START, events);
    assert SessionOk(Run(START, events), token.session);
  }

  /** Login, refresh a day later; after the first token's week it is presented again, and the session goes on. */
  lemma {:induction false} LateReuseGoesUnnoticed()
    ensures
      var old0, new0 := Token(7, 0, 0, WEEK), Token(7, 0, 1, WEEK + 86400);
      var (w1, reply1) := Next(Next(START, AddUser(7)).0, Login(7, "local"));
      var (w2, reply2) := Next(Next(w1, Tick(86400000)).0, Refresh(old0));
      var (w3, reply3) := Next(Next(w2, Tick(518400000)).0, Refresh(old0));
      && reply1 == Issued(old0) && reply2 == Issued(new0) && reply3 == Denied(BadToken)
      && Next(w3, Refresh(new0)).1.Issued?
  {
    var old0, new0 := Token(7, 0, 0, WEEK), Token(7, 0, 1, WEEK + 86400);
    var w0 := Next(START, AddUser(7)).0;
    assert w0 == START.(users := {7}) && Sign(w0, 7, 0) == old0;
    var w1 := Next(w0, Login(7, "local")).0;
    assert w1 == World(0, {7}, map[0 := Session(7, old0, WEEK * 1000, "local")], {7}, {old0}, 1, 1);
    var t1 := Next(w1, Tick(86400000)).0;
    assert t1 == w1.(now := 86400000) && Refusal(t1, old0).None? && Sign(t1, 7, 0) == new0;
    var w2 := Next(t1, Refresh(old0)).0;
    assert w2.sessions[0] == Session(7, new0, t1.now + WEEK * 1000, "local") && new0 in w2.issued;
    var t2 := Next(w2, Tick(518400000)).0;
    assert t2 == w2.(now := 604800000);
    assert Refusal(t2, old0) == Some(BadToken) && Refusal(t2, new0).None?;
  }

  /** Logging out with a token, run out or not, ends that token's session and no other. */
  lemma {:induction false} LogoutEnds(events: seq<Event>, user: UserId, token: Token)
    ensures
      var w := Run(START, events);
      var u := Next(w, Logout(user, Some(token))).0;
      && (token in w.issued ==> Ended(u, token.session))
      && (forall id | id != token.session || token !in w.issued :: id in u.sessions <==> id in w.sessions)
      && u.issued == w.issued
  {
    RunKeepsInv(START, events);
  }

  // ----- What each request does, told from the tables -----------------------------------------------

  /** A fresh token for the session, good for seven days, is the session's token; nothing else changes. */
  ghost predicate TokenGiven(w: World, u: World, user: UserId, session: SessionId, provider: string, token: Token) {
    && token !in w.issued && u.issued == w.issued + {token} && token.user == user && token.session == session
    && token.expires == w.now / 1000 + 604800
    && u.sessions == w.sessions[session := Session(user, token, w.now + 604800000, provider)]
    && u.cached == w.cached + {user} && u.now == w.now && u.users == w.users
  }

  /** A login gives the first token of a session of its own, exactly when the user is there. */
  lemma {:induction false} LoginMeaning(w: World, user: UserId, provider: string)
    requires Inv(w)
    ensures
      var (u, reply) := Next(w, Login(user, provider));
      if user !in w.users then u == w && reply == Denied(NoUser)
      else
        && reply.Issued? && reply.token.session !in w.sessions
        && (forall t | t in w.issued :: t.session != reply.token.session)
        && TokenGiven(w, u, user, reply.token.session, provider, reply.token)
  {}

  /** A refresh gives the next token of the same session, or is refused for the first of these reasons. */
  lemma {:induction false} RefreshMeaning(events: seq<Event>, token: Token)
    ensures
      var w := Run(START, events);
      var (u, reply) := Next(w, Refresh(token));
      var signed, there := token in w.issued && w.now / 1000 < token.expires, token.session in w.sessions;
      && (reply == Denied(BadToken) <==> !signed) && (reply == Denied(BadSession) <==> signed && !there)
      && (reply == Denied(Reused) <==> signed && there && !Newest(w, token))
      && (reply == Denied(NoUser) <==> signed && there && Newest(w, token) && token.user !in w.users)
      && (reply == Denied(Reused) ==> u == w.(sessions := w.sessions - {token.session}))
      && (reply.Denied? && reply != Denied(Reused) ==> u == w) && reply != Done
      && (reply.Issued? ==>
            signed && there && w.sessions[token.session].user == token.user &&
            TokenGiven(w, u, token.user, token.session, w.sessions[token.session].provider, reply.token))
  {
    RunKeepsInv(START, events);
    var w := Run(START, events);
    if token in w.issued && token.session in w.sessions {
      assert SessionOk(w, token.session);
      assert Newest(w, token) <==> w.sessions[token.session].token == token;
    }
  }

  /** A logout forgets the user, ends the session of a genuine token, and does nothing else. */
  lemma LogoutMeaning(w: World, user: UserId, presented: Option<Token>)
    ensures
      var (u, reply) := Next(w, Logout(user, presented));
      && reply == Done && u == w.(sessions := u.sessions, cached := u.cached)
      && (forall i :: i in u.cached <==> i in w.cached && i != user)
      && (forall id :: id in u.sessions <==>
            id in w.sessions && !(presented.Some? && presented.value in w.issued && presented.value.session == id))
      && (forall id | id in u.sessions :: u.sessions[id] == w.sessions[id])
  {}

  /** The token of a login is good for the seven days that follow, to the second, and no longer. */
  lemma {:induction false} GoodForAWeek(events: seq<Event>, user: UserId, provider: string, ms: nat)
    requires user in Run(START, events).users
    ensures
      var w := Run(START, events);
      var (u, reply) := Next(w, Login(user, provider));
      && reply.Issued?
      && (Next(Next(u, Tick(ms)).0, Refresh(reply.token)).1.Issued? <==> (w.now + ms) / 1000 < w.now / 1000 + 604800)
  {
    var w := Run(START, events);
    RunKeepsInv(START, events);
    LoginMeaning(w, user, provider);
    var (u, reply) := Next(w, Login(user, provider));
    var later := Next(u, Tick(ms)).0;
    assert later.sessions[reply.token.session] == Session(user, reply.token, w.now + 604800000, provider);
    assert (w.now + ms) / 1000 < w.now / 1000 + 604800 ==> w.now + ms <= w.now + 604800000;
  }

  // ----- The service ----------------------------------------------------------------------------

  class AuthService {
    var now: nat
    var users: set<UserId>
    var sessions: map<SessionId, Session>
    var cached: set<UserId>
    var issued: set<Token>
    var nextSession: SessionId
    var nextJti: nat

    constructor ()
      ensures State() == START
    {
      now, users, sessions, cached, issued, nextSession, nextJti := 0, {}, map[], {}, {}, 0, 0;
    }

    function State(): World
      reads this
    {
      World(now, users, sessions, cached, issued, nextSession, nextJti)
    }

    method GenerateAuthResponse(user: UserId, provider: string, existing: Option<SessionId>) returns (token: Token)
      requires existing.Some? ==>
        existing.value in sessions
        && sessions[existing.value].user == user && sessions[existing.value].provider == provider
      modifies this
      ensures
        var id := if existing.Some? then existing.value else old(nextSession);
        && token == Sign(old(State()), user, id)
        && State() == Granted(old(State()), user, provider, id).(
             nextSession := if existing.Some? then old(nextSession) else old(nextSession) + 1)
    {
      var id := nextSession;
      if existing.Some? { id := existing.value; } else { nextSession := nextSession + 1; }
      token := Token(user, id, nextJti, now / 1000 + WEEK);
      nextJti, issued := nextJti + 1, issued + {token};
      var expiresAt := now + 7 * 24 * 60 * 60 * 1000;
      if existing.Some? {
        sessions := sessions[id := sessions[id].(token := token, expiresAt := expiresAt)];
      } else {
        sessions := sessions[id := Session(user, token, expiresAt, provider)];
      }
      cached := cached + {user};
    }

    method LoginUser(user: UserId, provider: string) returns (reply: Reply)
      modifies this
      ensures (State(), reply) == Next(old(State()), Login(user, provider))
    {
      if user !in users { return Denied(NoUser); }
      var token := GenerateAuthResponse(user, provider, None);
      return Issued(token);
    }

    method RefreshToken(token: Token) returns (reply: Reply)
      modifies this
      ensures (State(), reply) == Next(old(State()), Refresh(token))
    {
      if token !in issued || now / 1000 >= token.expires { return Denied(BadToken); }
      if token.session !in sessions { return Denied(BadSession); }
      var session := sessions[token.session];
      if session.user != token.user || session.expiresAt < now { return Denied(BadSession); }
      if session.token != token {
        sessions := sessions - {token.session};
        return Denied(Reused);
      }
      if token.user !in users { return Denied(NoUser); }
      var renewed := GenerateAuthResponse(token.user, session.provider, Some(token.session));
      return Issued(renewed);
    }

    method LogoutUser(user: UserId, presented: Option<Token>)
      modifies this
      ensures (State(), Done) == Next(old(State()), Logout(user, presented))
    {
      if presented.Some? && presented.value in issued {
        sessions := sessions - {presented.value.session};
      }
      cached := cached - {user};
    }
  }
}
