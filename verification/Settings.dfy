// Player accounts and preferences: the `user_settings` table, changed by partial updates
// of the admin API and of the player API; the `players` table, changed by portal logins;
// and the default-client key in Redis, changed from the portal and in game.
module Settings {
  import opened Options
  import opened Uuids
  import opened KeyedStore
  import opened RedisServer
  import Keys = OneTimeKeys

  // ------------------------------------------------------------------
  // Statements
  // ------------------------------------------------------------------

  datatype Preferences = Preferences(volume: real, enabled: bool, updatedAt: nat)

  // Absent fields keep their value.
  datatype Update = Update(volume: Option<real>, enabled: Option<bool>)

  datatype StampedUpdate = StampedUpdate(update: Update, at: nat)

  datatype Player = Player(username: string, firstSeen: nat, lastSeen: nat)

  datatype PortalLogin = PortalLogin(username: string, at: nat)

  function Or<T>(x: Option<T>, otherwise: T): T {
    if x.Some? then x.value else otherwise
  }

  // INSERT ... ON CONFLICT DO UPDATE on `user_settings`.
  function Upsert(was: Option<Preferences>, c: StampedUpdate): Option<Preferences> {
    match was
    case None => Some(Preferences(Or(c.update.volume, 1.0), Or(c.update.enabled, true), c.at))
    case Some(p) => Some(Preferences(Or(c.update.volume, p.volume), Or(c.update.enabled, p.enabled), c.at))
  }

  // The same on `players`.
  function Register(was: Option<Player>, l: PortalLogin): Option<Player> {
    match was
    case None => Some(Player(l.username, l.at, l.at))
    case Some(p) => Some(p.(username := l.username, lastSeen := l.at))
  }

  // SET in Redis.
  function Overwrite(was: Option<string>, value: string): Option<string> {
    Some(value)
  }

  predicate IsClient(c: string) {
    c == "lite" || c == "portal"
  }

  // ------------------------------------------------------------------
  // The system
  // ------------------------------------------------------------------

  datatype State = State(
    now: nat,
    settings: map<string, Preferences>, players: map<string, Player>, defaults: map<string, string>,
    // History: what took effect, in order.
    updates: seq<Op<string, StampedUpdate>>,
    logins: seq<Op<string, PortalLogin>>,
    choices: seq<Op<string, string>>)

  datatype Label =
    | Tick(seconds: nat)
    // An admin's update, under whatever text the request gave for the player.
    | PutSettings(uuid: string, update: Update, effect: bool)
    // A player's own; `ok` is the database's reply, `stored` whether Redis took the choice.
    | PutPlayerSettings(sub: string, update: Update, client: Option<string>, effect: bool, ok: bool, stored: bool)
    | Callback(player: Uuid, username: string, effect: bool)
    | SetDefault(player: Uuid, portal: bool)

  function Updated(s: State, uuid: string, update: Update): State {
    var c := StampedUpdate(update, s.now);
    s.(settings := Put(s.settings, uuid, Upsert(Get(s.settings, uuid), c)), updates := s.updates + [Op(uuid, c)])
  }

  function Chosen(s: State, uuid: string, client: string): State {
    s.(defaults := Put(s.defaults, uuid, Overwrite(Get(s.defaults, uuid), client)),
       choices := s.choices + [Op(uuid, client)])
  }

  function LoggedIn(s: State, uuid: string, username: string): State {
    var l := PortalLogin(username, s.now);
    s.(players := Put(s.players, uuid, Register(Get(s.players, uuid), l)), logins := s.logins + [Op(uuid, l)])
  }

  function Step(s: State, l: Label): State {
    match l
    case Tick(seconds) => s.(now := s.now + seconds)
    case PutSettings(uuid, update, effect) => if effect then Updated(s, uuid, update) else s
    case PutPlayerSettings(sub, update, client, effect, ok, stored) =>
      if client.Some? && !IsClient(client.value) then s
      else
        var s' := if effect || ok then Updated(s, sub, update) else s;
        if ok && client.Some? && stored then Chosen(s', sub, client.value) else s'
    case Callback(player, username, effect) =>
      if effect then LoggedIn(s, Print(player), username) else s
    case SetDefault(player, portal) => Chosen(s, Print(player), if portal then "portal" else "lite")
  }

  function Run(ls: seq<Label>): State {
    if ls == [] then State(0, map[], map[], map[], [], [], [])
    else Step(Run(ls[..|ls| - 1]), ls[|ls| - 1])
  }

  // ------------------------------------------------------------------
  // Reading
  // ------------------------------------------------------------------

  datatype Profile = Profile(
    uuid: string, username: string, firstSeen: nat, lastSeen: nat,
    volume: real, enabled: bool, defaultClient: string)

  // Admin route.
  function ReadSettings(s: State, uuid: string): Preferences {
    if uuid in s.settings then s.settings[uuid] else Preferences(1.0, true, s.now)
  }

  function DefaultClient(s: State, uuid: string, redisOk: bool): string {
    if redisOk && uuid in s.defaults then s.defaults[uuid] else "lite"
  }

  // Player route: `players LEFT JOIN user_settings`.
  function ReadProfile(s: State, sub: string, redisOk: bool): Profile {
    var client := DefaultClient(s, sub, redisOk);
    match Get(s.players, sub)
    case None => Profile(sub, "", s.now, s.now, 1.0, true, client)
    case Some(p) =>
      var own := Get(s.settings, sub);
      Profile(sub, p.username, p.firstSeen, p.lastSeen,
              if own.Some? then own.value.volume else 1.0, if own.Some? then own.value.enabled else true, client)
  }

  // In game, `/audio` gives a portal link or a lite one.
  function OpensPortal(s: State, player: Uuid): bool {
    Get(s.defaults, Print(player)) == Some("portal")
  }

  // ------------------------------------------------------------------
  // What a history of changes amounts to
  // ------------------------------------------------------------------

  function LastVolume(cs: seq<StampedUpdate>): Option<real> {
    if cs == [] then None
    else if cs[|cs| - 1].update.volume.Some? then cs[|cs| - 1].update.volume
    else LastVolume(cs[..|cs| - 1])
  }

  function LastEnabled(cs: seq<StampedUpdate>): Option<bool> {
    if cs == [] then None
    else if cs[|cs| - 1].update.enabled.Some? then cs[|cs| - 1].update.enabled
    else LastEnabled(cs[..|cs| - 1])
  }

  lemma {:induction false} UpsertFold(cs: seq<StampedUpdate>)
    ensures Fold(Upsert, cs) ==
      if cs == [] then None
      else Some(Preferences(Or(LastVolume(cs), 1.0), Or(LastEnabled(cs), true), cs[|cs| - 1].at))
  {
    if cs != [] {
      UpsertFold(cs[..|cs| - 1]);
    }
  }

  lemma {:induction false} RegisterFold(cs: seq<PortalLogin>)
    ensures Fold(Register, cs) ==
      if cs == [] then None else Some(Player(cs[|cs| - 1].username, cs[0].at, cs[|cs| - 1].at))
  {
    if cs != [] {
      RegisterFold(cs[..|cs| - 1]);
    }
  }

  ghost predicate Good(s: State) {
    && s.settings == Apply(Upsert, s.updates)
    && s.players == Apply(Register, s.logins)
    && s.defaults == Apply(Overwrite, s.choices)
    && forall i :: 0 <= i < |s.choices| ==> IsClient(s.choices[i].change)
  }

  lemma {:induction false} UpdatedGood(s: State, uuid: string, update: Update)
    requires Good(s)
    ensures Good(Updated(s, uuid, update))
  {
    ApplyMore(Upsert, s.updates, Op(uuid, StampedUpdate(update, s.now)));
    hide Put, Get, Upsert, Apply;
  }

  lemma {:induction false} ChosenGood(s: State, uuid: string, client: string)
    requires Good(s) && IsClient(client)
    ensures Good(Chosen(s, uuid, client))
  {
    ApplyMore(Overwrite, s.choices, Op(uuid, client));
    hide Put, Get, Apply;
  }

  lemma {:induction false} LoggedInGood(s: State, uuid: string, username: string)
    requires Good(s)
    ensures Good(LoggedIn(s, uuid, username))
  {
    ApplyMore(Register, s.logins, Op(uuid, PortalLogin(username, s.now)));
    hide Put, Get, Register, Apply;
  }

  lemma {:induction false} StepGood(s: State, l: Label)
    requires Good(s)
    ensures Good(Step(s, l))
  {
    hide Updated, Chosen, LoggedIn, Apply, Print;
    match l
    case Tick(_) =>
    case PutSettings(uuid, update, _) => UpdatedGood(s, uuid, update);
    case PutPlayerSettings(sub, update, client, effect, ok, _) =>
      UpdatedGood(s, sub, update);
      if client.Some? && IsClient(client.value) {
        ChosenGood(if effect || ok then Updated(s, sub, update) else s, sub, client.value);
      }
    case Callback(player, username, _) => LoggedInGood(s, Print(player), username);
    case SetDefault(player, portal) => ChosenGood(s, Print(player), if portal then "portal" else "lite");
  }

  lemma {:induction false} RunGood(ls: seq<Label>)
    ensures Good(Run(ls))
  {
    if ls != [] {
      RunGood(ls[..|ls| - 1]);
      StepGood(Run(ls[..|ls| - 1]), ls[|ls| - 1]);
    }
  }

  // ------------------------------------------------------------------
  // What holds in every run
  // ------------------------------------------------------------------

  // However the updates of admins and players interleave, each field an admin reads for
  // a player is the one last provided for that player, or the default when none was.
  lemma {:induction false} SettingsAreLastProvided(ls: seq<Label>, uuid: string)
    ensures var s := Run(ls);
      var cs := Changes(s.updates, uuid);
      && ReadSettings(s, uuid).volume == Or(LastVolume(cs), 1.0)
      && ReadSettings(s, uuid).enabled == Or(LastEnabled(cs), true)
      && ReadSettings(s, uuid).updatedAt == (if cs == [] then s.now else cs[|cs| - 1].at)
  {
    RunGood(ls);
    ApplyAt(Upsert, Run(ls).updates, uuid);
    UpsertFold(Changes(Run(ls).updates, uuid));
  }

  // ------------------------------------------------------------------
  // The same, read off the requests of the run
  // ------------------------------------------------------------------

  function Seconds(ls: seq<Label>): nat {
    if ls == [] then 0
    else Seconds(ls[..|ls| - 1]) + if ls[|ls| - 1].Tick? then ls[|ls| - 1].seconds else 0
  }

  // The update a request makes under a text, if it takes effect there.
  function UpdateBy(l: Label, uuid: string): Option<Update> {
    match l
    case PutSettings(text, update, effect) => if text == uuid && effect then Some(update) else None
    case PutPlayerSettings(sub, update, client, effect, ok, _) =>
      if sub == uuid && (effect || ok) && (client.None? || client.value == "lite" || client.value == "portal")
      then Some(update) else None
    case _ => None
  }

  function VolumeIn(ls: seq<Label>, uuid: string): Option<real> {
    if ls == [] then None
    else match UpdateBy(ls[|ls| - 1], uuid)
      case Some(Update(Some(volume), _)) => Some(volume)
      case _ => VolumeIn(ls[..|ls| - 1], uuid)
  }

  function EnabledIn(ls: seq<Label>, uuid: string): Option<bool> {
    if ls == [] then None
    else match UpdateBy(ls[|ls| - 1], uuid)
      case Some(Update(_, Some(enabled))) => Some(enabled)
      case _ => EnabledIn(ls[..|ls| - 1], uuid)
  }

  // When the last update under the text was made.
  function UpdatedIn(ls: seq<Label>, uuid: string): Option<nat> {
    if ls == [] then None
    else if UpdateBy(ls[|ls| - 1], uuid).Some? then Some(Seconds(ls[..|ls| - 1]))
    else UpdatedIn(ls[..|ls| - 1], uuid)
  }

  // The name a portal login gives a player, if the row is written.
  function LoginBy(l: Label, uuid: string): Option<string> {
    match l
    case Callback(player, username, effect) => if Print(player) == uuid && effect then Some(username) else None
    case _ => None
  }

  function NameIn(ls: seq<Label>, uuid: string): Option<string> {
    if ls == [] then None
    else if LoginBy(ls[|ls| - 1], uuid).Some? then LoginBy(ls[|ls| - 1], uuid)
    else NameIn(ls[..|ls| - 1], uuid)
  }

  function FirstLoginIn(ls: seq<Label>, uuid: string): Option<nat> {
    if ls == [] then None
    else if FirstLoginIn(ls[..|ls| - 1], uuid).Some? then FirstLoginIn(ls[..|ls| - 1], uuid)
    else if LoginBy(ls[|ls| - 1], uuid).Some? then Some(Seconds(ls[..|ls| - 1])) else None
  }

  function LastLoginIn(ls: seq<Label>, uuid: string): Option<nat> {
    if ls == [] then None
    else if LoginBy(ls[|ls| - 1], uuid).Some? then Some(Seconds(ls[..|ls| - 1]))
    else LastLoginIn(ls[..|ls| - 1], uuid)
  }

  // The client a request chooses, if Redis takes it.
  function ChoiceBy(l: Label, uuid: string): Option<string> {
    match l
    case PutPlayerSettings(sub, _, Some(client), _, ok, stored) =>
      if sub == uuid && ok && stored && (client == "lite" || client == "portal") then Some(client) else None
    case SetDefault(player, portal) =>
      if Print(player) == uuid then Some(if portal then "portal" else "lite") else None
    case _ => None
  }

  function ChoiceIn(ls: seq<Label>, uuid: string): Option<string> {
    if ls == [] then None
    else if ChoiceBy(ls[|ls| - 1], uuid).Some? then ChoiceBy(ls[|ls| - 1], uuid)
    else ChoiceIn(ls[..|ls| - 1], uuid)
  }

  ghost predicate AsRequested(s: State, ls: seq<Label>, uuid: string) {
    && s.now == Seconds(ls)
    && Get(s.settings, uuid) == (match UpdatedIn(ls, uuid)
         case None => None
         case Some(at) => Some(Preferences(Or(VolumeIn(ls, uuid), 1.0), Or(EnabledIn(ls, uuid), true), at)))
    && (UpdatedIn(ls, uuid).None? ==> VolumeIn(ls, uuid).None? && EnabledIn(ls, uuid).None?)
    && Get(s.players, uuid) == (match NameIn(ls, uuid)
         case None => None
         case Some(name) => Some(Player(name, Or(FirstLoginIn(ls, uuid), 0), Or(LastLoginIn(ls, uuid), 0))))
    && (NameIn(ls, uuid).None? <==> FirstLoginIn(ls, uuid).None?)
    && (NameIn(ls, uuid).None? <==> LastLoginIn(ls, uuid).None?)
    && Get(s.defaults, uuid) == ChoiceIn(ls, uuid)
  }

  lemma {:induction false} UpdatedUnder(s: State, text: string, update: Update, uuid: string)
    ensures var t := Updated(s, text, update);
      && t.now == s.now && t.players == s.players && t.defaults == s.defaults
      && Get(t.settings, uuid) ==
         if text == uuid then Upsert(Get(s.settings, uuid), StampedUpdate(update, s.now)) else Get(s.settings, uuid)
  {
    hide Upsert;
  }

  lemma {:induction false} ChosenUnder(s: State, text: string, client: string, uuid: string)
    ensures var t := Chosen(s, text, client);
      && t.now == s.now && t.settings == s.settings && t.players == s.players
      && Get(t.defaults, uuid) == if text == uuid then Some(client) else Get(s.defaults, uuid)
  {
  }

  lemma {:induction false} LoggedInUnder(s: State, text: string, username: string, uuid: string)
    ensures var t := LoggedIn(s, text, username);
      && t.now == s.now && t.settings == s.settings && t.defaults == s.defaults
      && Get(t.players, uuid) ==
         if text == uuid then Register(Get(s.players, uuid), PortalLogin(username, s.now)) else Get(s.players, uuid)
  {
    hide Register;
  }

  // One step, on the three values kept under a text.
  lemma {:induction false} StepUnder(s: State, l: Label, uuid: string)
    ensures var t := Step(s, l);
      && t.now == s.now + (if l.Tick? then l.seconds else 0)
      && Get(t.settings, uuid) == (match UpdateBy(l, uuid)
           case None => Get(s.settings, uuid)
           case Some(update) => Upsert(Get(s.settings, uuid), StampedUpdate(update, s.now)))
      && Get(t.players, uuid) == (match LoginBy(l, uuid)
           case None => Get(s.players, uuid)
           case Some(username) => Register(Get(s.players, uuid), PortalLogin(username, s.now)))
      && Get(t.defaults, uuid) == (match ChoiceBy(l, uuid)
           case None => Get(s.defaults, uuid)
           case Some(client) => Some(client))
  {
    hide Print, Upsert, Register, Updated, Chosen, LoggedIn, Get;
    match l
    case Tick(_) =>
    case PutSettings(text, update, _) => UpdatedUnder(s, text, update, uuid);
    case PutPlayerSettings(sub, update, client, effect, ok, _) =>
      UpdatedUnder(s, sub, update, uuid);
      if client.Some? {
        ChosenUnder(if effect || ok then Updated(s, sub, update) else s, sub, client.value, uuid);
      }
    case Callback(player, username, _) => LoggedInUnder(s, Print(player), username, uuid);
    case SetDefault(player, portal) => ChosenUnder(s, Print(player), if portal then "portal" else "lite", uuid);
  }

  lemma {:induction false} RunAsRequested(ls: seq<Label>, uuid: string)
    ensures AsRequested(Run(ls), ls, uuid)
  {
    if ls != [] {
      var n := |ls| - 1;
      RunAsRequested(ls[..n], uuid);
      StepUnder(Run(ls[..n]), ls[n], uuid);
      hide Step, UpdateBy, LoginBy, ChoiceBy;
    }
  }

  // What each reader is shown, in terms of the requests alone.
  lemma {:induction false} ReadersShowRequests(ls: seq<Label>, uuid: string)
    ensures var s := Run(ls);
      && ReadSettings(s, uuid).volume == Or(VolumeIn(ls, uuid), 1.0)
      && ReadSettings(s, uuid).enabled == Or(EnabledIn(ls, uuid), true)
      && ReadSettings(s, uuid).updatedAt == Or(UpdatedIn(ls, uuid), Seconds(ls))
      && var p := ReadProfile(s, uuid, true);
      && p.uuid == uuid
      && p.username == Or(NameIn(ls, uuid), "")
      && p.firstSeen == Or(FirstLoginIn(ls, uuid), Seconds(ls))
      && p.lastSeen == Or(LastLoginIn(ls, uuid), Seconds(ls))
      && p.volume == (if NameIn(ls, uuid).Some? then Or(VolumeIn(ls, uuid), 1.0) else 1.0)
      && p.enabled == (if NameIn(ls, uuid).Some? then Or(EnabledIn(ls, uuid), true) else true)
      && p.defaultClient == Or(ChoiceIn(ls, uuid), "lite")
  {
    RunAsRequested(ls, uuid);
    hide Run, VolumeIn, EnabledIn, UpdatedIn, NameIn, FirstLoginIn, LastLoginIn, ChoiceIn, Seconds;
  }

  // An update belongs to a text. One an admin makes under the text t is among those a
  // player reads, whose own routes use the canonical form, exactly when t is that form;
  // under any other spelling of the same identifier it leaves the player's row alone.
  lemma {:induction false} UpdateReachesExactly(s: State, t: string, update: Update, player: Uuid)
    ensures var s' := Step(s, PutSettings(t, update, true));
      && (Changes(s'.updates, Print(player)) == Changes(s.updates, Print(player)) + [StampedUpdate(update, s.now)]
          <==> t == Print(player))
      && (t != Print(player) ==> Get(s'.settings, Print(player)) == Get(s.settings, Print(player)))
  {
    hide Print, Upsert;
    var op := Op(t, StampedUpdate(update, s.now));
    assert (s.updates + [op])[..|s.updates|] == s.updates;
  }

  // Only the order of the updates for each one player matters.
  lemma {:induction false} SettingsConfluence(ls: seq<Label>, other: seq<Label>)
    requires forall uuid :: Changes(Run(ls).updates, uuid) == Changes(Run(other).updates, uuid)
    ensures Run(ls).settings == Run(other).settings
  {
    RunGood(ls);
    RunGood(other);
    Confluent(Upsert, Run(ls).updates, Run(other).updates);
  }

  // The profile shows the first and the last portal login and the name given at the last.
  lemma {:induction false} ProfileShowsLogins(ls: seq<Label>, sub: string, redisOk: bool)
    ensures var s := Run(ls);
      var cs := Changes(s.logins, sub);
      var p := ReadProfile(s, sub, redisOk);
      if cs == [] then p.username == "" && p.firstSeen == s.now && p.lastSeen == s.now
      else p.username == cs[|cs| - 1].username && p.firstSeen == cs[0].at && p.lastSeen == cs[|cs| - 1].at
  {
    RunGood(ls);
    ApplyAt(Register, Run(ls).logins, sub);
    RegisterFold(Changes(Run(ls).logins, sub));
  }

  // Both routes show a player the same preferences exactly when the player has logged in
  // to the portal or the stored preferences are the default ones.
  lemma {:induction false} ReadersAgreeExactly(ls: seq<Label>, uuid: string, redisOk: bool)
    ensures var s := Run(ls);
      var p, q := ReadProfile(s, uuid, redisOk), ReadSettings(s, uuid);
      (p.volume == q.volume && p.enabled == q.enabled)
      <==> Changes(s.logins, uuid) != [] || (q.volume == 1.0 && q.enabled)
  {
    RunGood(ls);
    ApplyAt(Register, Run(ls).logins, uuid);
    RegisterFold(Changes(Run(ls).logins, uuid));
  }

  // A player who never opened the portal sets the volume and is shown the default.
  lemma {:induction false} ListenerSeesDefaults(player: Uuid)
    ensures var s := Run([PutPlayerSettings(Print(player), Update(Some(0.5), None), None, true, true, true)]);
      && ReadSettings(s, Print(player)).volume == 0.5
      && ReadProfile(s, Print(player), true).volume == 1.0
  {
    var l := PutPlayerSettings(Print(player), Update(Some(0.5), None), None, true, true, true);
    assert [l][..0] == [];
    hide Print;
    assert Run([l]) == Step(Run([]), l);
  }

  // The client shown to the player and the link given in game follow the choice stored
  // last, wherever it was made: always one of the two, and the lite one when none was.
  lemma {:induction false} DefaultClientIsLastChoice(ls: seq<Label>, player: Uuid)
    ensures var s := Run(ls);
      var cs := Changes(s.choices, Print(player));
      && DefaultClient(s, Print(player), true) == (if cs == [] then "lite" else cs[|cs| - 1])
      && IsClient(DefaultClient(s, Print(player), true))
      && (OpensPortal(s, player) <==> DefaultClient(s, Print(player), true) == "portal")
  {
    RunGood(ls);
    var s := Run(ls);
    var cs := Changes(s.choices, Print(player));
    assert "lite" != "portal" by {
      assert |"lite"| == 4;
    }
    ApplyAt(Overwrite, s.choices, Print(player));
    ChoicesAreClients(s.choices, Print(player));
    hide Run, Print, Changes, Apply;
    assert cs != [] ==> Fold(Overwrite, cs) == Some(cs[|cs| - 1]);
  }

  lemma {:induction false} ChoicesAreClients(ops: seq<Op<string, string>>, key: string)
    requires forall i :: 0 <= i < |ops| ==> IsClient(ops[i].change)
    ensures forall i :: 0 <= i < |Changes(ops, key)| ==> IsClient(Changes(ops, key)[i])
  {
    if ops != [] {
      ChoicesAreClients(ops[..|ops| - 1], key);
    }
  }

  // ------------------------------------------------------------------
  // The handlers, in place
  // ------------------------------------------------------------------

  datatype Response =
    | Settings(preferences: Preferences)
    | OwnSettings(preferences: Preferences, defaultClient: string)
    | Me(profile: Profile)
    | Token(claims: Keys.Claims)
    | BadRequest
    | Unauthorized
    | ServerError

  class Accounts {
    var settings: map<string, Preferences>
    var players: map<string, Player>
    var defaults: map<string, string>

    ghost predicate Represents(s: State)
      reads this
    {
      settings == s.settings && players == s.players && defaults == s.defaults
    }

    constructor ()
      ensures Represents(Run([]))
    {
      settings, players, defaults := map[], map[], map[];
    }

    method UpsertSettings(uuid: string, body: Update, now: nat) returns (row: Preferences)
      modifies this`settings
      ensures Some(row) == Upsert(Get(old(settings), uuid), StampedUpdate(body, now))
      ensures settings == old(settings)[uuid := row]
    {
      if uuid in settings {
        var was := settings[uuid];
        row := Preferences(Or(body.volume, was.volume), Or(body.enabled, was.enabled), now);
      } else {
        row := Preferences(Or(body.volume, 1.0), Or(body.enabled, true), now);
      }
      settings := settings[uuid := row];
    }

    // The admin is answered with what any later reader will be shown.
    method HandlePutSettings(uuid: string, body: Update, now: nat, effect: bool, ok: bool, ghost s: State)
      returns (r: Response)
      requires Represents(s) && now == s.now
      modifies this`settings
      ensures var s' := Step(s, PutSettings(uuid, body, effect || ok));
        && Represents(s')
        && r == (if ok then Settings(ReadSettings(s', uuid)) else ServerError)
    {
      if effect || ok {
        var row := UpsertSettings(uuid, body, now);
        r := if ok then Settings(row) else ServerError;
      } else {
        r := ServerError;
      }
    }

    method HandleGetSettings(uuid: string, now: nat, dbOk: bool, ghost s: State) returns (r: Response)
      requires Represents(s) && now == s.now
      ensures r == if dbOk then Settings(ReadSettings(s, uuid)) else ServerError
    {
      if !dbOk {
        return ServerError;
      }
      r := Settings(if uuid in settings then settings[uuid] else Preferences(1.0, true, now));
    }

    method HandlePutPlayerSettings(
      sub: string, body: Update, client: Option<string>, now: nat,
      effect: bool, ok: bool, stored: bool, redisOk: bool, ghost s: State
    ) returns (r: Response)
      requires Represents(s) && now == s.now
      modifies this`settings, this`defaults
      ensures var s' := Step(s, PutPlayerSettings(sub, body, client, effect, ok, stored));
        && Represents(s')
        && (client.Some? && !IsClient(client.value) ==> r == BadRequest && s' == s)
        && (client.None? || IsClient(client.value) ==>
              r == if ok then OwnSettings(ReadSettings(s', sub), DefaultClient(s', sub, redisOk)) else ServerError)
    {
      if client.Some? {
        var dc := client.value;
        if dc != "lite" && dc != "portal" {
          return BadRequest;
        }
      }
      if effect || ok {
        var row := UpsertSettings(sub, body, now);
        r := OwnSettings(row, "lite");
      }
      if !ok {
        return ServerError;
      }
      if client.Some? && stored {
        defaults := defaults[sub := client.value];
      }
      var shown := if redisOk && sub in defaults then defaults[sub] else "lite";
      r := OwnSettings(r.preferences, shown);
    }

    method HandleGetMe(sub: string, now: nat, dbOk: bool, redisOk: bool, ghost s: State) returns (r: Response)
      requires Represents(s) && now == s.now
      ensures r == if dbOk then Me(ReadProfile(s, sub, redisOk)) else ServerError
    {
      if !dbOk {
        return ServerError;
      }
      var player, volume, enabled := Player("", now, now), 1.0, true;
      if sub in players {
        player := players[sub];
        if sub in settings {
          volume, enabled := settings[sub].volume, settings[sub].enabled;
        }
      }
      var client := if redisOk && sub in defaults then defaults[sub] else "lite";
      r := Me(Profile(sub, player.username, player.firstSeen, player.lastSeen, volume, enabled, client));
    }

    method UpsertPlayer(uuid: Uuid, username: string, now: nat, ghost s: State)
      requires Represents(s) && now == s.now
      modifies this`players
      ensures Represents(Step(s, Callback(uuid, username, true))) && Print(uuid) in players
    {
      var id := Print(uuid);
      players := players[id := if id in players
        then players[id].(username := username, lastSeen := now)
        else Player(username, now, now)];
    }

    // A token is given out only for a link that was just consumed, to the player and
    // name of that link, and only once the player's row is there.
    method PlayerCallback(
      redis: Redis, token: string, lifetime: nat, outcome: Outcome, effect: bool, ok: bool, signOk: bool,
      ghost s: State, ghost keys: Keys.State
    ) returns (r: Response)
      requires Represents(s) && Keys.Represents(redis, keys) && redis.now == s.now
      modifies this`players, redis`keys
      ensures Keys.Represents(redis, Keys.Consumed(keys, Keys.PortalOtt, token, outcome, r.Token?, lifetime))
      ensures r.Token? || r == Unauthorized || r == ServerError
      ensures var link := Keys.Presented(keys, Keys.PortalOtt, token);
        && (r == Unauthorized <==> outcome == Done && link.None?)
        && (r.Token? <==> outcome == Done && link.Some? && ok && signOk)
        && (outcome.Lost? ==> r == ServerError)
        && Represents(
             if outcome == Done && link.Some?
             then Step(s, Callback(link.value.uuid, link.value.username, effect || ok)) else s)
      ensures r.Token? ==>
        var grants := Keys.Consumed(keys, Keys.PortalOtt, token, outcome, true, lifetime).grants;
        && |grants| == |keys.grants| + 1
        && Keys.CredentialOf(grants[|keys.grants|]) == Some(r.claims)
        && r.claims == Keys.Claims(r.claims.sub, redis.now + lifetime, redis.now, None)
        && r.claims.sub in players
    {
      var ott := Keys.ValidatePlayerOtt(redis, token, outcome, keys);
      Keys.AnswerIsGrant(keys, Keys.PortalOtt, token, outcome, ott, lifetime);
      Keys.PresentedSubject(keys, Keys.PortalOtt, token);
      Keys.SameKeysLeft(keys, Keys.PortalOtt, token, outcome, ott.Valid?, 0, true, lifetime);
      Keys.SameKeysLeft(keys, Keys.PortalOtt, token, outcome, ott.Valid?, 0, false, lifetime);
      hide Print, LoggedIn, Keys.Step, Keys.Presented, Keys.Consumed;
      if ott == Keys.Absent {
        return Unauthorized;
      }
      if ott == Keys.RedisError {
        return ServerError;
      }
      var uuid, username := ott.subject.uuid, ott.subject.username;
      if effect || ok {
        UpsertPlayer(uuid, username, redis.now, s);
      }
      if !ok {
        return ServerError;
      }
      if !signOk {
        return ServerError;
      }
      r := Token(Keys.Sign(uuid, redis.now, lifetime));
    }
  }
}
