// A link that is used in time opens a session, whose page can play what the player's
// regions ask for.
module LinkedProgress {
  import opened Options
  import opened Uuids
  import opened LinkedSessions
  import Events
  import Json
  import PageHistory
  import Progress
  import Keys = OneTimeKeys
  import Pipeline = Playback

  lemma {:induction false} RunThen(encode: Keys.Claims -> string, ls: seq<Label>, l: Label)
    ensures Run(encode, ls + [l]) == Step(encode, Run(encode, ls), l)
  {
    assert (ls + [l])[..|ls|] == ls;
  }

  // A link just written, and not touched since, opens a session for its player.
  lemma {:induction false} LinkOpens(
    encode: Keys.Claims -> string, ls: seq<Label>,
    id: nat, player: Uuid, token: string, lifetime: nat, authOk: bool
  )
    requires id !in Run(encode, ls).admitted
    ensures var s := Run(encode, ls);
      var written := ls + [Link(Keys.Write(Keys.Listener(player), token))];
      var t := Run(encode, written + [Connect(id, token, lifetime, authOk)]);
      && t.moves
         == s.moves + [Pipeline.Accept(id, player, encode(Keys.Sign(player, KeysOf(s).now, lifetime)), authOk)]
      && t.admitted.Keys == s.admitted.Keys + {id}
  {
    var write := Keys.Write(Keys.Listener(player), token);
    var s := Run(encode, ls);
    RunThen(encode, ls, Link(write));
    RunThen(encode, ls + [Link(write)], Connect(id, token, lifetime, authOk));
    LinkGranted(s.links, player, token, lifetime);
    hide Run, Keys.Run, Keys.Sign;
  }

  lemma {:induction false} LinkGranted(links: seq<Keys.Label>, player: Uuid, token: string, lifetime: nat)
    ensures var written := links + [Keys.Write(Keys.Listener(player), token)];
      var k := Keys.Run(written);
      Keys.Run(written + [Keys.Consume(Keys.AudioOtt, token, true, lifetime)]).grants
      == k.grants
         + [Keys.Grant(|Keys.Run(links).issues|, Keys.AudioOtt, Keys.Listener(player), Keys.Run(links).now, lifetime)]
  {
    var write := Keys.Write(Keys.Listener(player), token);
    var written := links + [write];
    KeysNext(links, write);
    KeysNext(written, Keys.Consume(Keys.AudioOtt, token, true, lifetime));
    assert written + [] == written;
    assert Keys.Run(written).now == Keys.Run(links).now by {
      hide Keys.Run, Keys.Key, Keys.ValueOf;
    }
    hide Keys.Run, Keys.Step;
    Keys.FirstConsumerSucceeds(links, Keys.Listener(player), token, [], lifetime);
  }

  function Moves(ms: seq<Pipeline.Label>): (ls: seq<Label>)
    ensures |ls| == |ms| && forall i :: 0 <= i < |ms| ==> ls[i] == Move(ms[i])
  {
    seq(|ms|, i requires 0 <= i < |ms| => Move(ms[i]))
  }

  lemma {:induction false} MovesRun(encode: Keys.Claims -> string, ls: seq<Label>, ms: seq<Pipeline.Label>)
    requires Progress.NoneAccepted(ms)
    ensures var s := Run(encode, ls);
      Run(encode, ls + Moves(ms)) == s.(moves := s.moves + ms)
  {
    var s := Run(encode, ls);
    if ms == [] {
      assert ls + Moves(ms) == ls && s.moves + ms == s.moves;
    } else {
      var n := |ms| - 1;
      MovesRun(encode, ls, ms[..n]);
      RunThen(encode, ls + Moves(ms[..n]), Move(ms[n]));
      assert ls + Moves(ms) == ls + Moves(ms[..n]) + [Move(ms[n])];
      assert s.moves + ms == s.moves + ms[..n] + [ms[n]];
      hide Run;
    }
  }

  // The session is the player's, with this credential, and its page plays the clip.
  ghost predicate PlayedTo(s: Pipeline.System, id: nat, player: Uuid, jwt: string, clip: Events.Clip) {
    && id in s.connections && s.connections[id].player == player && s.connections[id].jwt == jwt
    && Progress.Plays(s.connections[id], clip)
  }

  // From a link to a clip: at any point of any joint run a player given a link can open
  // a session with it, and then hear what the next region asks for.
  lemma {:induction false} LinkCanBeHeard(
    encode: Keys.Claims -> string, ls: seq<Label>,
    id: nat, player: Uuid, token: string, lifetime: nat, src: string, regions: Events.Regions
  )
    returns (more: seq<Label>)
    requires id !in Run(encode, ls).admitted && Json.Plain(src)
    ensures |more| >= 2
    ensures more[..2] == [Link(Keys.Write(Keys.Listener(player), token)), Connect(id, token, lifetime, true)]
    ensures PlayedTo(
      SystemOf(Run(encode, ls + more)), id, player,
      encode(Keys.Sign(player, KeysOf(Run(encode, ls)).now, lifetime)), Pipeline.Wished(src, regions))
  {
    var jwt := encode(Keys.Sign(player, KeysOf(Run(encode, ls)).now, lifetime));
    NotYetOpen(encode, ls, id);
    hide *;
    var heard := CanPlay(Run(encode, ls).moves, id, player, jwt, src, regions);
    more := Follow(encode, ls, id, player, token, lifetime, heard);
  }

  // After the link, the session's moves.
  lemma {:induction false} Follow(
    encode: Keys.Claims -> string, ls: seq<Label>,
    id: nat, player: Uuid, token: string, lifetime: nat, heard: seq<Pipeline.Label>
  )
    returns (more: seq<Label>)
    requires id !in Run(encode, ls).admitted
    requires heard != [] && Progress.NoneAccepted(heard[1..])
    requires heard[0]
          == Pipeline.Accept(id, player, encode(Keys.Sign(player, KeysOf(Run(encode, ls)).now, lifetime)), true)
    ensures |more| >= 2
    ensures more[..2] == [Link(Keys.Write(Keys.Listener(player), token)), Connect(id, token, lifetime, true)]
    ensures Run(encode, ls + more).moves == Run(encode, ls).moves + heard
  {
    var link, connect := Link(Keys.Write(Keys.Listener(player), token)), Connect(id, token, lifetime, true);
    LinkOpens(encode, ls, id, player, token, lifetime, true);
    hide *;
    MovesRun(encode, ls + [link] + [connect], heard[1..]);
    HeadAndTail(Run(encode, ls).moves, heard);
    more := [link, connect] + Moves(heard[1..]);
    TwoAndRest(ls, link, connect, Moves(heard[1..]));
  }

  lemma {:induction false} HeadAndTail<T>(before: seq<T>, xs: seq<T>)
    requires xs != []
    ensures before + [xs[0]] + xs[1..] == before + xs
  {
  }

  lemma {:induction false} TwoAndRest<T>(before: seq<T>, x: T, y: T, rest: seq<T>)
    ensures ([x, y] + rest)[..2] == [x, y] && before + ([x, y] + rest) == before + [x] + [y] + rest
  {
    var all := before + ([x, y] + rest);
    assert forall i :: 0 <= i < |all| ==> all[i] == (before + [x] + [y] + rest)[i];
  }

  lemma {:induction false} CanPlay(
    moves: seq<Pipeline.Label>, id: nat, player: Uuid, jwt: string, src: string, regions: Events.Regions
  )
    returns (heard: seq<Pipeline.Label>)
    requires id !in Pipeline.Run(moves).connections && Json.Plain(src)
    ensures heard != [] && heard[0] == Pipeline.Accept(id, player, jwt, true)
    ensures Progress.NoneAccepted(heard[1..])
    ensures PlayedTo(Pipeline.Run(moves + heard), id, player, jwt, Pipeline.Wished(src, regions))
  {
    hide Pipeline.Run, Pipeline.Wished, Progress.Plays, Progress.NoneAccepted, Json.Plain;
    heard := Progress.CanBeHeard(moves, id, player, jwt, src, regions);
  }

  lemma {:induction false} NotYetOpen(encode: Keys.Claims -> string, ls: seq<Label>, id: nat)
    requires id !in Run(encode, ls).admitted
    ensures id !in Pipeline.Run(Run(encode, ls).moves).connections
  {
    RunGood(encode, ls);
    hide Run;
    var s := Run(encode, ls);
    NewGrantIsFree(encode, KeysOf(s).grants, SystemOf(s).connections, s.admitted, id);
  }
}
