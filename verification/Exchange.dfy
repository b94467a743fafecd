// The handlers that turn a link from the game into a credential, the player's WebSocket
// and the admin's in-game login, and a ticket into an admin feed. The portal's exchange
// is in Settings, with the players' table.
module Exchange {
  import opened Options
  import opened Uuids
  import opened OneTimeKeys
  import opened RedisServer

  datatype Reply =
    | Upgrade(player: string, jwt: Claims)
    | AdminUpgrade
    | Token(jwt: Claims)
    | BadRequest
    | Unauthorized
    | ServerError

  // An audio link opens one session, for its own player, with that player's credential.
  method WsHandler(
    redis: Redis, token: Option<string>, outcome: Outcome, signOk: bool, lifetime: nat, ghost s: State
  ) returns (r: Reply)
    requires Represents(redis, s)
    modifies redis`keys
    ensures r == BadRequest <==> token.None? || token.value == ""
    ensures r == BadRequest ==> redis.keys == old(redis.keys)
    ensures r != BadRequest ==>
      Represents(redis, Consumed(s, AudioOtt, token.value, outcome, r.Upgrade?, lifetime))
    ensures r.Upgrade? ==>
      var grants := Consumed(s, AudioOtt, token.value, outcome, true, lifetime).grants;
      && |grants| == |s.grants| + 1
      && CredentialOf(grants[|s.grants|]) == Some(r.jwt) && r.player == r.jwt.sub
    ensures r.Upgrade? <==>
      token.Some? && token.value != "" && outcome == Done && signOk && Presented(s, AudioOtt, token.value).Some?
    ensures r == Unauthorized <==>
      token.Some? && token.value != "" && outcome == Done && Lookup(s.keys, Key(AudioOtt, token.value), s.now).None?
    ensures r.Upgrade? || r == BadRequest || r == Unauthorized || r == ServerError
    ensures r.Upgrade? ==> r.jwt == Claims(r.player, redis.now + lifetime, redis.now, None)
  {
    if token.None? || token.value == "" {
      return BadRequest;
    }
    var ott := ValidateOtt(redis, token.value, outcome, s);
    AnswerIsGrant(s, AudioOtt, token.value, outcome, ott, lifetime);
    PresentedSubject(s, AudioOtt, token.value);
    hide Print, Step, Presented;
    if ott == Absent {
      return Unauthorized;
    }
    if ott == RedisError || ott == MalformedUuid {
      return ServerError;
    }
    var playerUuid := ott.subject.uuid;
    if !signOk {
      return ServerError;
    }
    r := Upgrade(Print(playerUuid), Sign(playerUuid, redis.now, lifetime));
  }

  method AdminOttLogin(
    redis: Redis, token: string, outcome: Outcome, signOk: bool, lifetime: nat, ghost s: State
  ) returns (r: Reply)
    requires Represents(redis, s)
    modifies redis`keys
    ensures Represents(redis, Consumed(s, AdminOtt, token, outcome, r.Token?, lifetime))
    ensures r == Unauthorized <==> outcome == Done && Presented(s, AdminOtt, token).None?
    ensures r.Token? <==> outcome == Done && signOk && Presented(s, AdminOtt, token).Some?
    ensures outcome.Lost? ==> r == ServerError
    ensures r.Token? ==>
      var grants := Consumed(s, AdminOtt, token, outcome, true, lifetime).grants;
      && |grants| == |s.grants| + 1
      && CredentialOf(grants[|s.grants|]) == Some(r.jwt)
      && r.jwt.iat == redis.now && r.jwt.exp == redis.now + lifetime && r.jwt.role == Some("admin")
    ensures r.Token? || r == Unauthorized || r == ServerError
  {
    var ott := ValidateAdminOtt(redis, token, outcome, s);
    AnswerIsGrant(s, AdminOtt, token, outcome, ott, lifetime);
    PresentedSubject(s, AdminOtt, token);
    hide Print, Step, Presented;
    if ott == Absent {
      return Unauthorized;
    }
    if ott == RedisError {
      return ServerError;
    }
    if !signOk {
      return ServerError;
    }
    r := Token(SignAdmin(ott.subject.uuid, redis.now, lifetime));
  }

  // A ticket opens one admin feed.
  method AdminWsHandler(redis: Redis, ticket: Option<string>, outcome: Outcome, ghost s: State) returns (r: Reply)
    requires Represents(redis, s)
    modifies redis`keys
    ensures r == BadRequest <==> ticket.None? || ticket.value == ""
    ensures r == BadRequest ==> redis.keys == old(redis.keys)
    ensures r != BadRequest ==>
      && Represents(redis, Consumed(s, AdminTicket, ticket.value, outcome, r == AdminUpgrade, 0))
      && (r == AdminUpgrade <==> outcome == Done && Presented(s, AdminTicket, ticket.value) == Some(FeedTicket))
      && (r == Unauthorized <==> outcome == Done && Presented(s, AdminTicket, ticket.value).None?)
      && (r == ServerError <==> outcome.Lost?)
  {
    if ticket.None? || ticket.value == "" {
      return BadRequest;
    }
    PresentedSubject(s, AdminTicket, ticket.value);
    var valid := ValidateTicket(redis, ticket.value, outcome, s);
    if valid.None? {
      return ServerError;
    }
    r := if valid.value then AdminUpgrade else Unauthorized;
  }
}
