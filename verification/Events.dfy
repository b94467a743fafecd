// The events the plugin publishes on `audio:events`, the text they are published as,
// and what the relay makes of that text for one player.
module Events {
  import opened Options
  import opened Uuids
  import opened Json
  import opened JsonTemplate
  import opened QuoteFree

  datatype Event =
    | RegionEnter(player: Uuid, regionId: string, action: string)
    | AudioPlay(player: Uuid, src: string, hundredths: nat, loop: bool)
    | AudioStop(player: Uuid)
    | PlayerConnect(player: Uuid, username: string)
    | ServerSwitch(player: Uuid, server: string)
    | PlayerDisconnect(player: Uuid)

  // ------------------------------------------------------------------
  // Writing
  // ------------------------------------------------------------------

  function EventName(e: Event): string {
    match e
    case RegionEnter(_, _, _) => "region_enter"
    case AudioPlay(_, _, _, _) => "audio_play"
    case AudioStop(_) => "audio_stop"
    case PlayerConnect(_, _) => "player_connect"
    case ServerSwitch(_, _) => "server_switch"
    case PlayerDisconnect(_) => "player_disconnect"
  }

  function Particulars(e: Event): seq<Field> {
    match e
    case RegionEnter(_, regionId, action) =>
      [Field("region_id", Text(regionId)), Field("action", Text(action))]
    case AudioPlay(_, src, hundredths, loop) =>
      [Field("src", Text(src)), Field("volume", Fixed2(hundredths)), Field("loop", Flag(loop))]
    case PlayerConnect(_, username) => [Field("username", Text(username))]
    case ServerSwitch(_, server) => [Field("server", Text(server))]
    case AudioStop(_) => []
    case PlayerDisconnect(_) => []
  }

  function Fields(e: Event): seq<Field> {
    [Field("event", Text(EventName(e))), Field("player_id", Text(Print(e.player)))] + Particulars(e)
  }

  function ToJson(e: Event): string {
    Render(Fields(e))
  }

  // The texts that come from flags, names and configuration.
  ghost predicate PlainEvent(e: Event) {
    PlainHoles(Particulars(e))
  }

  // Texts that cannot pass for more of the object than they are.
  ghost predicate QuoteFreeEvent(e: Event) {
    QuoteFreeHoles(Particulars(e))
  }

  // What a player's messages need of an event: no quotation mark in anyone's, and a
  // plain URL in the player's own.
  ghost predicate ReadsRight(e: Event, player: Uuid) {
    QuoteFreeEvent(e) && (e.AudioPlay? && e.player == player ==> Plain(e.src))
  }

  // ------------------------------------------------------------------
  // WorldGuard callbacks
  // ------------------------------------------------------------------

  datatype FlagState = Allow | Deny

  datatype Regions = Regions(volume: Option<int>, loop: Option<FlagState>)

  datatype Callback =
    | OnInitialValue(player: Uuid, src: Option<string>, regions: Regions)
    | OnSetValue(player: Uuid, newSrc: string, regions: Regions)
    | OnAbsentValue(player: Uuid)

  function PlayEvent(player: Uuid, src: string, regions: Regions): Event {
    var hundredths :=
      if regions.volume.Some? && 0 <= regions.volume.value <= 100 then regions.volume.value else 100;
    AudioPlay(player, src, hundredths, regions.loop == Some(Allow))
  }

  // The event a callback publishes.
  function Handle(cb: Callback): Option<Event> {
    match cb
    case OnInitialValue(player, src, regions) =>
      if src.Some? then Some(PlayEvent(player, src.value, regions)) else None
    case OnSetValue(player, newSrc, regions) => Some(PlayEvent(player, newSrc, regions))
    case OnAbsentValue(player) => Some(AudioStop(player))
  }

  // ------------------------------------------------------------------
  // Reading at the relay
  // ------------------------------------------------------------------

  datatype Action = Forward(fields: map<string, Value>) | Close

  // The object left after the rewrite: `event` under the name `type`, no `player_id`.
  function Renamed(obj: map<string, Value>): map<string, Value>
    requires "event" in obj
  {
    (obj - {"event", "player_id"})["type" := obj["event"]]
  }

  function Translate(payload: string, player: string): Option<Action> {
    var v :- FromStr(payload);
    if !v.Obj? then None
    else
      var obj := AsMap(v.members);
      if "player_id" !in obj || obj["player_id"] != Str(player) then None
      else if "event" !in obj || !obj["event"].Str? then None
      else if obj["event"].s == "player_disconnect" then Some(Close)
      else if obj["event"].s == "audio_play" || obj["event"].s == "audio_stop" then
        Some(Forward(Renamed(obj)))
      else None
  }

  function PlayFields(src: string, hundredths: nat, loop: bool): map<string, Value> {
    map["type" := Str("audio_play"), "src" := Str(src),
        "volume" := Num(Fixed2Text(hundredths)), "loop" := Bool(loop)]
  }

  // What the contract between plugin and client asks for.
  function Expected(e: Event, player: Uuid): Option<Action> {
    if e.player != player then None
    else match e
      case AudioPlay(_, src, hundredths, loop) => Some(Forward(PlayFields(src, hundredths, loop)))
      case AudioStop(_) => Some(Forward(map["type" := Str("audio_stop")]))
      case PlayerDisconnect(_) => Some(Close)
      case _ => None
  }

  // ------------------------------------------------------------------
  // Reading at the client
  // ------------------------------------------------------------------

  datatype Clip = Clip(src: string, volume: real, loop: bool)

  datatype Message =
    | AuthSuccess(jwt: string, playerUuid: string)
    | Play(clip: Clip)
    | Stop
    | Other

  predicate IsNumber(v: Value) {
    v.Num? && NumberLength(v.lexeme) == Some(|v.lexeme|)
  }

  function ReadMessage(fields: map<string, Value>): Message {
    if "type" !in fields || !fields["type"].Str? then Other
    else if fields["type"].s == "auth_success" then
      if "jwt" in fields && fields["jwt"].Str? && "player_uuid" in fields && fields["player_uuid"].Str?
      then AuthSuccess(fields["jwt"].s, fields["player_uuid"].s)
      else Other
    else if fields["type"].s == "audio_play" then
      if "src" in fields && fields["src"].Str? && "volume" in fields && IsNumber(fields["volume"])
         && "loop" in fields && fields["loop"].Bool?
      then Play(Clip(fields["src"].s, NumberValue(fields["volume"].lexeme), fields["loop"].b))
      else Other
    else if fields["type"].s == "audio_stop" then Stop
    else Other
  }

  // ------------------------------------------------------------------
  // Lemmas
  // ------------------------------------------------------------------

  lemma {:induction false} Flatten(a: string, b: string, c: string, d: string, e: string)
    ensures "{" + (a + "," + (b + "," + (c + "," + (d + "," + (e + "}")))))
         == "{" + a + "," + b + "," + c + "," + d + "," + e + "}"
  {
  }

  // The rendered text is the template of the source, holes filled in.
  lemma {:induction false} PlayTemplate(player: Uuid, src: string, hundredths: nat, loop: bool)
    ensures ToJson(AudioPlay(player, src, hundredths, loop))
         == "{" + (Quote("event") + ":" + Quote("audio_play")) + ","
          + (Quote("player_id") + ":" + Quote(Print(player))) + ","
          + (Quote("src") + ":" + Quote(src)) + ","
          + (Quote("volume") + ":" + Fixed2Text(hundredths)) + ","
          + (Quote("loop") + ":" + (if loop then "true" else "false")) + "}"
  {
    var fs := Fields(AudioPlay(player, src, hundredths, loop));
    assert fs[3..][1..] == fs[4..] && fs[2..][1..] == fs[3..] && fs[1..][1..] == fs[2..];
    assert FieldsText(fs[4..]) == FieldText(fs[4]) + "}";
    assert FieldsText(fs[3..]) == FieldText(fs[3]) + "," + FieldsText(fs[4..]);
    assert FieldsText(fs[2..]) == FieldText(fs[2]) + "," + FieldsText(fs[3..]);
    assert FieldsText(fs[1..]) == FieldText(fs[1]) + "," + FieldsText(fs[2..]);
    assert FieldsText(fs) == FieldText(fs[0]) + "," + FieldsText(fs[1..]);
    Flatten(FieldText(fs[0]), FieldText(fs[1]), FieldText(fs[2]), FieldText(fs[3]), FieldText(fs[4]));
  }

  function Pair(name: string, value: string): string {
    Quote(name) + ":" + Quote(value)
  }

  lemma {:induction false} RenderTwo(a: Field, b: Field)
    ensures Render([a, b]) == "{" + FieldText(a) + "," + FieldText(b) + "}"
  {
    hide FieldText;
    assert [a, b][1..] == [b];
    assert FieldsText([b]) == FieldText(b) + "}";
    assert FieldsText([a, b]) == FieldText(a) + "," + (FieldText(b) + "}");
    FlattenTwo(FieldText(a), FieldText(b));
  }

  lemma {:induction false} FlattenTwo(a: string, b: string)
    ensures "{" + (a + "," + (b + "}")) == "{" + a + "," + b + "}"
  {
  }

  lemma {:induction false} RenderThree(a: Field, b: Field, c: Field)
    ensures Render([a, b, c]) == "{" + FieldText(a) + "," + FieldText(b) + "," + FieldText(c) + "}"
  {
    hide FieldText;
    assert [a, b, c][1..] == [b, c] && [b, c][1..] == [c];
    assert FieldsText([c]) == FieldText(c) + "}";
    assert FieldsText([b, c]) == FieldText(b) + "," + (FieldText(c) + "}");
    assert FieldsText([a, b, c]) == FieldText(a) + "," + (FieldText(b) + "," + (FieldText(c) + "}"));
    FlattenThree(FieldText(a), FieldText(b), FieldText(c));
  }

  lemma {:induction false} FlattenThree(a: string, b: string, c: string)
    ensures "{" + (a + "," + (b + "," + (c + "}"))) == "{" + a + "," + b + "," + c + "}"
  {
  }

  lemma {:induction false} RenderFour(a: Field, b: Field, c: Field, d: Field)
    ensures Render([a, b, c, d])
         == "{" + FieldText(a) + "," + FieldText(b) + "," + FieldText(c) + "," + FieldText(d) + "}"
  {
    hide FieldText;
    assert [a, b, c, d][1..] == [b, c, d] && [b, c, d][1..] == [c, d] && [c, d][1..] == [d];
    assert FieldsText([d]) == FieldText(d) + "}";
    assert FieldsText([c, d]) == FieldText(c) + "," + (FieldText(d) + "}");
    assert FieldsText([b, c, d]) == FieldText(b) + "," + FieldsText([c, d]);
    assert FieldsText([a, b, c, d]) == FieldText(a) + "," + FieldsText([b, c, d]);
    FlattenFour(FieldText(a), FieldText(b), FieldText(c), FieldText(d));
  }

  lemma {:induction false} FlattenFour(a: string, b: string, c: string, d: string)
    ensures "{" + (a + "," + (b + "," + (c + "," + (d + "}")))) == "{" + a + "," + b + "," + c + "," + d + "}"
  {
  }

  // The other templates.
  lemma {:induction false} StopTemplates(player: Uuid)
    ensures ToJson(AudioStop(player))
         == "{" + Pair("event", "audio_stop") + "," + Pair("player_id", Print(player)) + "}"
    ensures ToJson(PlayerDisconnect(player))
         == "{" + Pair("event", "player_disconnect") + "," + Pair("player_id", Print(player)) + "}"
  {
    var id := Field("player_id", Text(Print(player)));
    assert Fields(AudioStop(player)) == [Field("event", Text("audio_stop")), id];
    assert Fields(PlayerDisconnect(player)) == [Field("event", Text("player_disconnect")), id];
    hide Print, Quote, Render, Fields;
    RenderTwo(Field("event", Text("audio_stop")), id);
    RenderTwo(Field("event", Text("player_disconnect")), id);
  }

  lemma {:induction false} LifecycleTemplates(player: Uuid, text: string)
    ensures ToJson(PlayerConnect(player, text))
         == "{" + Pair("event", "player_connect") + "," + Pair("player_id", Print(player)) + ","
          + Pair("username", text) + "}"
    ensures ToJson(ServerSwitch(player, text))
         == "{" + Pair("event", "server_switch") + "," + Pair("player_id", Print(player)) + ","
          + Pair("server", text) + "}"
  {
    var id := Field("player_id", Text(Print(player)));
    assert Fields(PlayerConnect(player, text))
        == [Field("event", Text("player_connect")), id, Field("username", Text(text))];
    assert Fields(ServerSwitch(player, text))
        == [Field("event", Text("server_switch")), id, Field("server", Text(text))];
    hide Print, Quote, Render, Fields;
    RenderThree(Field("event", Text("player_connect")), id, Field("username", Text(text)));
    RenderThree(Field("event", Text("server_switch")), id, Field("server", Text(text)));
  }

  lemma {:induction false} RegionTemplate(player: Uuid, regionId: string, action: string)
    ensures ToJson(RegionEnter(player, regionId, action))
         == "{" + Pair("event", "region_enter") + "," + Pair("player_id", Print(player)) + ","
          + Pair("region_id", regionId) + "," + Pair("action", action) + "}"
  {
    var id := Field("player_id", Text(Print(player)));
    var region, act := Field("region_id", Text(regionId)), Field("action", Text(action));
    assert Fields(RegionEnter(player, regionId, action)) == [Field("event", Text("region_enter")), id, region, act];
    hide Print, Quote, Render, Fields;
    RenderFour(Field("event", Text("region_enter")), id, region, act);
  }

  // What is done with a payload, whoever wrote it: nothing unless it is an object that
  // names the player and a known event; then a close for a disconnect, and otherwise all
  // the object's members but two, with `type` for the event.
  lemma {:induction false} TranslateExactly(payload: string, player: string)
    ensures var act := Translate(payload, player);
      var v := FromStr(payload);
      if v.None? || !v.value.Obj? then act == None
      else
        var obj := AsMap(v.value.members);
        var name := if "event" in obj then obj["event"] else Null;
        if "player_id" !in obj || obj["player_id"] != Str(player) then act == None
        else if name == Str("player_disconnect") then act == Some(Close)
        else if name != Str("audio_play") && name != Str("audio_stop") then act == None
        else
          && act.Some? && act.value.Forward?
          && "type" in act.value.fields && act.value.fields["type"] == name
          && (forall k :: k in act.value.fields && k != "type" ==>
                k in obj && k != "event" && k != "player_id" && act.value.fields[k] == obj[k])
          && forall k :: k in obj && k != "event" && k != "player_id" ==> k in act.value.fields
  {
    hide FromStr, AsMap;
  }

  lemma {:induction false} GoodHead(player: Uuid, name: string)
    requires Plain(name)
    ensures var head := [Field("event", Text(name)), Field("player_id", Text(Print(player)))];
      GoodNames(head) && PlainHoles(head)
  {
    PrintCharacters(player);
    assert |"event"| != |"player_id"|;
  }

  lemma {:induction false} PlainNames()
    ensures Plain("region_enter") && Plain("audio_play") && Plain("audio_stop")
    ensures Plain("player_connect") && Plain("server_switch") && Plain("player_disconnect")
    ensures Plain("src") && Plain("volume") && Plain("loop") && Plain("region_id") && Plain("action")
    ensures Plain("username") && Plain("server")
  {
  }

  lemma {:induction false} GoodTriple(a: Field, b: Field, c: Field)
    requires Plain(a.name) && Plain(b.name) && Plain(c.name)
    requires a.name != b.name && a.name != c.name && b.name != c.name
    ensures GoodNames([a, b, c])
  {
  }

  lemma {:induction false} GoodParticulars(e: Event)
    ensures GoodNames(Particulars(e))
  {
    PlainNames();
    match e
    case AudioPlay(_, src, hundredths, loop) =>
      assert |"src"| == 3 && |"volume"| == 6 && |"loop"| == 4;
      hide Plain;
      GoodTriple(Field("src", Text(src)), Field("volume", Fixed2(hundredths)), Field("loop", Flag(loop)));
    case RegionEnter(_, _, _) =>
      assert |"region_id"| != |"action"|;
    case _ =>
  }

  lemma {:induction false} OtherNames(e: Event)
    ensures forall i :: 0 <= i < |Particulars(e)| ==>
      Particulars(e)[i].name != "event" && Particulars(e)[i].name != "player_id"
  {
    assert |"event"| == 5 && |"player_id"| == 9;
    assert |"src"| == 3 && |"volume"| == 6 && |"loop"| == 4 && |"action"| == 6;
    assert |"username"| == 8 && |"server"| == 6;
    assert "region_id"[0] != "player_id"[0];
  }

  lemma {:induction false} GoodFields(e: Event)
    ensures GoodNames(Fields(e))
    ensures PlainHoles(Fields(e)) <==> PlainEvent(e)
  {
    PlainNames();
    GoodHead(e.player, EventName(e));
    GoodParticulars(e);
    OtherNames(e);
    hide Print, EventName, Particulars, Plain;
    Append([Field("event", Text(EventName(e))), Field("player_id", Text(Print(e.player)))], Particulars(e));
  }

  lemma {:induction false} Append(head: seq<Field>, tail: seq<Field>)
    requires GoodNames(head) && GoodNames(tail) && PlainHoles(head)
    requires forall i, j :: 0 <= i < |head| && 0 <= j < |tail| ==> head[i].name != tail[j].name
    ensures GoodNames(head + tail)
    ensures PlainHoles(head + tail) <==> PlainHoles(tail)
  {
    var fs := head + tail;
    assert forall i :: 0 <= i < |tail| ==> tail[i] == fs[i + |head|];
  }

  // The members of a published event, by name.
  function ObjectOf(e: Event): map<string, Value> {
    AsMap(Meanings(Fields(e)))
  }

  lemma {:induction false} ObjectMember(e: Event, i: nat)
    requires i < |Fields(e)|
    ensures Fields(e)[i].name in ObjectOf(e)
    ensures ObjectOf(e)[Fields(e)[i].name] == Meaning(Fields(e)[i].hole)
  {
    GoodFields(e);
    MeaningsAsMap(Fields(e), i);
  }

  lemma {:induction false} ObjectNames(e: Event, k: string)
    ensures k in ObjectOf(e) <==> k in Names(Fields(e))
  {
    var fs := Fields(e);
    if k in Names(fs) {
      var i :| 0 <= i < |fs| && Names(fs)[i] == k;
      ObjectMember(e, i);
    } else {
      assert forall i :: 0 <= i < |fs| ==> Names(fs)[i] == fs[i].name;
      OnlyTheirNames(fs, k);
    }
  }

  lemma {:induction false} CommonMembers(e: Event)
    ensures "event" in ObjectOf(e) && ObjectOf(e)["event"] == Str(EventName(e))
    ensures "player_id" in ObjectOf(e) && ObjectOf(e)["player_id"] == Str(Print(e.player))
  {
    ObjectMember(e, 0);
    ObjectMember(e, 1);
  }

  lemma {:induction false} PlayNames(e: Event)
    requires e.AudioPlay?
    ensures |Fields(e)| == 5
    ensures Fields(e)[2] == Field("src", Text(e.src))
    ensures Fields(e)[3] == Field("volume", Fixed2(e.hundredths))
    ensures Fields(e)[4] == Field("loop", Flag(e.loop))
    ensures Names(Fields(e)) == ["event", "player_id", "src", "volume", "loop"]
  {
  }

  lemma {:induction false} KeysListed(m: map<string, Value>, a: string, b: string, c: string, d: string, e: string)
    requires forall k :: k in m <==> k in [a, b, c, d, e]
    ensures m.Keys == {a, b, c, d, e}
  {
    assert forall k :: k in m.Keys <==> k in [a, b, c, d, e];
  }

  lemma {:induction false} PlayKeys(e: Event)
    requires e.AudioPlay?
    ensures ObjectOf(e).Keys == {"event", "player_id", "src", "volume", "loop"}
  {
    PlayNames(e);
    hide ObjectOf, Names, Fields;
    var names := Names(Fields(e));
    forall k: string
      ensures k in ObjectOf(e) <==> k in names
    {
      ObjectNames(e, k);
    }
    KeysListed(ObjectOf(e), "event", "player_id", "src", "volume", "loop");
  }

  lemma {:induction false} PlayValues(e: Event)
    requires e.AudioPlay?
    ensures "src" in ObjectOf(e) && ObjectOf(e)["src"] == Str(e.src)
    ensures "volume" in ObjectOf(e) && ObjectOf(e)["volume"] == Num(Fixed2Text(e.hundredths))
    ensures "loop" in ObjectOf(e) && ObjectOf(e)["loop"] == Bool(e.loop)
  {
    PlayNames(e);
    ObjectMember(e, 2);
    ObjectMember(e, 3);
    ObjectMember(e, 4);
  }

  lemma {:induction false} StopObject(player: Uuid)
    ensures ObjectOf(AudioStop(player)).Keys == {"event", "player_id"}
  {
    var e := AudioStop(player);
    assert Names(Fields(e)) == ["event", "player_id"];
    forall k: string
      ensures k in ObjectOf(e) <==> k in ["event", "player_id"]
    {
      ObjectNames(e, k);
    }
  }

  lemma {:induction false} ReservedNames()
    ensures "event" != "player_id" && "event" != "type" && "player_id" != "type"
    ensures {"src", "volume", "loop"} !! {"event", "player_id", "type"}
  {
    assert |"event"| == 5 && |"player_id"| == 9 && |"type"| == 4 && |"src"| == 3 && |"volume"| == 6;
    assert "loop"[0] != "type"[0] && |"loop"| == 4;
  }

  lemma {:induction false} RenamedPlay(player: Uuid, src: string, hundredths: nat, loop: bool)
    ensures "event" in ObjectOf(AudioPlay(player, src, hundredths, loop))
    ensures Renamed(ObjectOf(AudioPlay(player, src, hundredths, loop))) == PlayFields(src, hundredths, loop)
  {
    var obj := ObjectOf(AudioPlay(player, src, hundredths, loop));
    PlayKeys(AudioPlay(player, src, hundredths, loop));
    PlayValues(AudioPlay(player, src, hundredths, loop));
    CommonMembers(AudioPlay(player, src, hundredths, loop));
    ReservedNames();
    var rest := obj - {"event", "player_id"};
    assert rest.Keys == {"src", "volume", "loop"};
    assert Renamed(obj).Keys == {"type", "src", "volume", "loop"};
    assert PlayFields(src, hundredths, loop).Keys == {"type", "src", "volume", "loop"};
    assert Renamed(obj)["type"] == Str("audio_play");
  }

  lemma {:induction false} RenamedStop(player: Uuid)
    ensures "event" in ObjectOf(AudioStop(player))
    ensures Renamed(ObjectOf(AudioStop(player))) == map["type" := Str("audio_stop")]
  {
    StopObject(player);
    CommonMembers(AudioStop(player));
    assert (ObjectOf(AudioStop(player)) - {"event", "player_id"}).Keys == {};
  }

  lemma {:induction false} KnownNames(e: Event)
    ensures EventName(e) == "player_disconnect" <==> e.PlayerDisconnect?
    ensures EventName(e) == "audio_play" <==> e.AudioPlay?
    ensures EventName(e) == "audio_stop" <==> e.AudioStop?
  {
    var n := EventName(e);
    assert |"player_disconnect"| == 17 && |"audio_play"| == 10 && |"audio_stop"| == 10;
    assert "audio_play"[6] != "audio_stop"[6];
    assert |"region_enter"| == 12 && |"player_connect"| == 14 && |"server_switch"| == 13;
  }

  lemma {:induction false} PlainTranslates(e: Event, player: Uuid)
    requires PlainEvent(e)
    ensures Translate(ToJson(e), Print(player)) == Expected(e, player)
  {
    assert Fields(e) != [];
    hide FromStr, Render, Print, EventName, Fields, AsMap;
    GoodFields(e);
    PlainReadsBack(Fields(e));
    CommonMembers(e);
    SamePrint(e.player, player);
    KnownNames(e);
    match e
    case AudioPlay(p, src, hundredths, loop) => RenamedPlay(p, src, hundredths, loop);
    case AudioStop(p) => RenamedStop(p);
    case _ =>
  }

  lemma {:induction false} LetteredFields(e: Event)
    ensures Lettered(Fields(e))
    ensures QuoteFreeEvent(e) ==> QuoteFreeHoles(Fields(e))
  {
    PlainNames();
    PrintCharacters(e.player);
    hide Print;
    var head := [Field("event", Text(EventName(e))), Field("player_id", Text(Print(e.player)))];
    assert Fields(e) == head + Particulars(e);
    assert QuoteFreeHoles(head) && Lettered(head) && Lettered(Particulars(e));
  }

  // Whatever else is in it, an event without quotation marks is refused, or keeps its
  // own name and player.
  lemma {:induction false} IdentityKept(e: Event)
    requires QuoteFreeEvent(e) && FromStr(ToJson(e)).Some?
    ensures FromStr(ToJson(e)).value.Obj?
    ensures var obj := AsMap(FromStr(ToJson(e)).value.members);
      && "event" in obj && obj["event"] == Str(EventName(e))
      && "player_id" in obj && obj["player_id"] == Str(Print(e.player))
  {
    GoodFields(e);
    LetteredFields(e);
    PlainNames();
    PrintCharacters(e.player);
    var fs := Fields(e);
    assert fs[0] == Field("event", Text(EventName(e))) && fs[1] == Field("player_id", Text(Print(e.player)));
    hide Fields, FromStr, Render, Print, AsMap, EventName;
    QuoteFreeObject(fs);
    var ms := FromStr(Render(fs)).value.members;
    PlainFieldKept(fs, ms, 0);
    PlainFieldKept(fs, ms, 1);
  }

  // An event without quotation marks is never taken for another player's.
  lemma {:induction false} OthersHearNothing(e: Event, player: Uuid)
    requires QuoteFreeEvent(e) && player != e.player
    ensures Translate(ToJson(e), Print(player)) == None
  {
    hide FromStr, ToJson, Print, AsMap, EventName;
    if FromStr(ToJson(e)).Some? {
      IdentityKept(e);
      SamePrint(e.player, player);
    }
  }

  lemma {:induction false} OwnInfrastructure(e: Event)
    requires QuoteFreeEvent(e) && (e.RegionEnter? || e.PlayerConnect? || e.ServerSwitch?)
    ensures Translate(ToJson(e), Print(e.player)) == None
  {
    KnownNames(e);
    hide FromStr, ToJson, Print, AsMap, EventName;
    if FromStr(ToJson(e)).Some? {
      IdentityKept(e);
    }
  }

  // The relay does for each published event what the contract says.
  lemma {:induction false} TranslatesAsExpected(e: Event, player: Uuid)
    requires ReadsRight(e, player)
    ensures Translate(ToJson(e), Print(player)) == Expected(e, player)
  {
    hide Translate, ToJson, Print, PlainHoles, Plain;
    if player != e.player {
      OthersHearNothing(e, player);
    } else if e.RegionEnter? || e.PlayerConnect? || e.ServerSwitch? {
      OwnInfrastructure(e);
    } else {
      OwnIsPlain(e);
      PlainTranslates(e, player);
    }
  }

  lemma {:induction false} OwnIsPlain(e: Event)
    requires e.AudioPlay? ==> Plain(e.src)
    requires e.AudioPlay? || e.AudioStop? || e.PlayerDisconnect?
    ensures PlainEvent(e)
  {
  }

  // A play event reaches its player unaltered exactly when its URL is plain.
  lemma {:induction false} PlayForwardedExactly(player: Uuid, src: string, hundredths: nat, loop: bool)
    ensures Translate(ToJson(AudioPlay(player, src, hundredths, loop)), Print(player))
         == Some(Forward(PlayFields(src, hundredths, loop)))
       <==> Plain(src)
  {
    var e := AudioPlay(player, src, hundredths, loop);
    assert Particulars(e)[0].hole == Text(src);
    assert PlainEvent(e) <==> Plain(src);
    if Plain(src) {
      PlainTranslates(e, player);
    }
    if Translate(ToJson(e), Print(player)) == Some(Forward(PlayFields(src, hundredths, loop))) {
      ForwardedMeansPlain(e);
    }
  }

  // What an object renamed into a play's fields held before.
  lemma {:induction false} BeforeRenaming(obj: map<string, Value>, src: string, hundredths: nat, loop: bool)
    requires "event" in obj && Renamed(obj) == PlayFields(src, hundredths, loop)
    ensures obj["event"] == Str("audio_play")
    ensures "src" in obj && obj["src"] == Str(src)
    ensures "volume" in obj && obj["volume"] == Num(Fixed2Text(hundredths))
    ensures "loop" in obj && obj["loop"] == Bool(loop)
  {
    hide Fixed2Text;
    var want := PlayFields(src, hundredths, loop);
    ReservedNames();
    assert "type" in want && want["type"] == Str("audio_play");
    forall k | k == "src" || k == "volume" || k == "loop"
      ensures k in obj && obj[k] == want[k]
    {
      assert k in want && k != "type";
      assert k in Renamed(obj);
    }
  }

  lemma {:induction false} ForwardedMeansPlain(e: Event)
    requires e.AudioPlay?
    requires Translate(ToJson(e), Print(e.player)) == Some(Forward(PlayFields(e.src, e.hundredths, e.loop)))
    ensures PlainEvent(e)
  {
    var fs := Fields(e);
    PlayNames(e);
    GoodFields(e);
    assert fs[0] == Field("event", Text("audio_play")) && fs[1] == Field("player_id", Text(Print(e.player)));
    hide FromStr, Render, Print, Fixed2Text, AsMap, Renamed, PlayFields, PlainEvent, Fields, GoodNames;
    var obj := AsMap(FromStr(Render(fs)).value.members);
    BeforeRenaming(obj, e.src, e.hundredths, e.loop);
    forall i | 0 <= i < |fs|
      ensures fs[i].name in obj && obj[fs[i].name] == Meaning(fs[i].hole)
    {
    }
    RightMeansPlain(fs);
  }

  // A quotation mark in the URL is enough to lose the event's content.
  lemma {:induction false} QuotedUrlIsNotForwarded(player: Uuid)
    ensures Translate(ToJson(AudioPlay(player, "a\"b.ogg", 100, false)), Print(player))
         != Some(Forward(PlayFields("a\"b.ogg", 100, false)))
  {
    assert IsSpecial("a\"b.ogg"[1]);
    hide Translate, ToJson, Print, PlayFields;
    PlayForwardedExactly(player, "a\"b.ogg", 100, false);
  }

  // A URL that closes its own quotation and names a player.
  function Intruding(target: Uuid): string {
    "x" + "\"" + "," + Quote("player_id") + ":" + "\"" + Print(target)
  }

  // What the text of a play event with such a URL says: two players, the last of whom
  // counts.
  function IntrudingFields(player: Uuid, target: Uuid, hundredths: nat, loop: bool): seq<Field> {
    [Field("event", Text("audio_play")), Field("player_id", Text(Print(player))), Field("src", Text("x")),
     Field("player_id", Text(Print(target))), Field("volume", Fixed2(hundredths)), Field("loop", Flag(loop))]
  }

  lemma {:induction false} ConsText(f: Field, fs: seq<Field>)
    requires fs != []
    ensures FieldsText([f] + fs) == FieldText(f) + "," + FieldsText(fs)
  {
    assert ([f] + fs)[1..] == fs;
  }

  lemma {:induction false} IntrudingText(player: Uuid, target: Uuid, hundredths: nat, loop: bool)
    ensures ToJson(AudioPlay(player, Intruding(target), hundredths, loop))
         == Render(IntrudingFields(player, target, hundredths, loop))
  {
    var fs := Fields(AudioPlay(player, Intruding(target), hundredths, loop));
    var gs := IntrudingFields(player, target, hundredths, loop);
    var tail := [Field("volume", Fixed2(hundredths)), Field("loop", Flag(loop))];
    IntrudingField(target);
    assert fs == [fs[0]] + ([fs[1]] + ([fs[2]] + tail));
    assert gs == [fs[0]] + ([fs[1]] + ([gs[2]] + ([gs[3]] + tail)));
    assert fs[2] == Field("src", Text(Intruding(target)));
    assert gs[2] == Field("src", Text("x")) && gs[3] == Field("player_id", Text(Print(target)));
    hide FieldText, FieldsText, Print, Fields, IntrudingFields, Intruding;
    SplitField(fs[0], fs[1], fs[2], gs[2], gs[3], tail);
  }

  lemma {:induction false} Requoted(q: string, x: string, name: string, p: string)
    ensures q + (x + q + "," + name + ":" + q + p) + q == (q + x + q) + "," + (name + ":" + (q + p + q))
  {
  }

  lemma {:induction false} Prefixed(name: string, a: string, b: string)
    ensures name + ":" + (a + "," + b) == name + ":" + a + "," + b
  {
  }

  lemma {:induction false} IntrudingField(target: Uuid)
    ensures FieldText(Field("src", Text(Intruding(target))))
         == FieldText(Field("src", Text("x"))) + "," + FieldText(Field("player_id", Text(Print(target))))
  {
    var src, name, p := Quote("src"), Quote("player_id"), Print(target);
    Requoted("\"", "x", name, p);
    assert Quote(Intruding(target)) == Quote("x") + "," + (name + ":" + Quote(p)) by {
      hide Print;
    }
    hide Quote, Print, Intruding;
    Prefixed(src, Quote("x"), name + ":" + Quote(p));
  }

  lemma {:induction false} SplitField(a: Field, b: Field, c: Field, d: Field, e: Field, tail: seq<Field>)
    requires tail != [] && FieldText(c) == FieldText(d) + "," + FieldText(e)
    ensures FieldsText([a] + ([b] + ([c] + tail))) == FieldsText([a] + ([b] + ([d] + ([e] + tail))))
  {
    hide FieldText, FieldsText;
    ConsText(c, tail);
    ConsText(e, tail);
    ConsText(d, [e] + tail);
    Associate(FieldText(d), FieldText(e), FieldsText(tail));
    ConsText(b, [c] + tail);
    ConsText(b, [d] + ([e] + tail));
    ConsText(a, [b] + ([c] + tail));
    ConsText(a, [b] + ([d] + ([e] + tail)));
  }

  lemma {:induction false} Associate(a: string, b: string, c: string)
    ensures a + "," + b + "," + c == a + "," + (b + "," + c)
  {
  }

  lemma {:induction false} PlainIntrusion(player: Uuid, target: Uuid, hundredths: nat, loop: bool)
    ensures var gs := IntrudingFields(player, target, hundredths, loop);
      PlainHoles(gs) && forall i :: 0 <= i < |gs| ==> Plain(gs[i].name)
  {
    PlainNames();
    PrintCharacters(player);
    PrintCharacters(target);
    hide Print;
    assert Plain("event") && Plain("player_id") && Plain("x");
  }

  // Of the two players named the last counts.
  lemma {:induction false} IntrudingObject(player: Uuid, target: Uuid, hundredths: nat, loop: bool)
    ensures var obj := AsMap(Meanings(IntrudingFields(player, target, hundredths, loop)));
      && "event" in obj && obj["event"] == Str("audio_play")
      && "player_id" in obj && obj["player_id"] == Str(Print(target))
  {
    hide Print, AsMap;
    var gs := IntrudingFields(player, target, hundredths, loop);
    var ms := Meanings(gs);
    assert |"event"| == 5 && |"player_id"| == 9 && |"src"| == 3 && |"volume"| == 6 && |"loop"| == 4;
    assert |ms| == 6;
    LastWins(ms, 0);
    LastWins(ms, 3);
  }

  // With quotation marks the event of one player can reach any other.
  lemma {:induction false} QuotedUrlReachesAnother(player: Uuid, target: Uuid, hundredths: nat, loop: bool)
    ensures var act := Translate(ToJson(AudioPlay(player, Intruding(target), hundredths, loop)), Print(target));
      act.Some? && act.value.Forward?
  {
    IntrudingText(player, target, hundredths, loop);
    PlainIntrusion(player, target, hundredths, loop);
    IntrudingObject(player, target, hundredths, loop);
    var gs := IntrudingFields(player, target, hundredths, loop);
    assert gs != [];
    hide IntrudingFields, Print, Render, FromStr, ToJson, Plain, AsMap, Meanings, Intruding;
    PlainReadsBack(gs);
    assert |"audio_play"| == 10 && |"player_disconnect"| == 17;
  }

  // The client gets back the numbers and flags the callback had.
  lemma {:induction false} ClientReads(src: string, hundredths: nat, loop: bool)
    ensures ReadMessage(PlayFields(src, hundredths, loop))
         == Play(Clip(src, hundredths as real / 100.0, loop))
    ensures ReadMessage(map["type" := Str("audio_stop")]) == Stop
  {
    hide NumberValue, NumberLength, Fixed2Text;
    Fixed2Value(hundredths);
  }
}
