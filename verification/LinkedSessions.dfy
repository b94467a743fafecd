// Links and sessions in one run: a session is opened by consuming an audio link, and by
// nothing else, while everything else that happens to keys, to the channel and to other
// sessions goes on in any order.
module LinkedSessions {
  import opened Options
  import opened Uuids
  import Listen
  import PageHistory
  import Keys = OneTimeKeys
  import Pipeline = Playback

  // The two histories so far, and which grant opened each session.
  datatype State = State(links: seq<Keys.Label>, moves: seq<Pipeline.Label>, admitted: map<nat, nat>)

  function KeysOf(s: State): Keys.State {
    Keys.Run(s.links)
  }

  function SystemOf(s: State): Pipeline.System {
    Pipeline.Run(s.moves)
  }

  datatype Label =
    | Link(k: Keys.Label)
    | Move(m: Pipeline.Label)
    | Connect(id: nat, token: string, lifetime: nat, authOk: bool)

  // A consumption of an audio link goes through by opening a session only.
  predicate OpensNothing(l: Keys.Label) {
    !(l.Consume? && l.family == Keys.AudioOtt && l.through)
  }

  // `encode` is the text of a signed credential.
  function CredentialText(encode: Keys.Claims -> string, uuid: Uuid, g: Keys.Grant): string {
    encode(Keys.Sign(uuid, g.time, g.lifetime))
  }

  function Step(encode: Keys.Claims -> string, s: State, l: Label): State {
    match l
    case Link(k) => if OpensNothing(k) then s.(links := s.links + [k]) else s
    case Move(m) => if m.Accept? then s else s.(moves := s.moves + [m])
    case Connect(id, token, lifetime, authOk) =>
      if id in s.admitted then s
      else
        var links := s.links + [Keys.Consume(Keys.AudioOtt, token, true, lifetime)];
        var n, grants := |KeysOf(s).grants|, Keys.Run(links).grants;
        if |grants| <= n then s.(links := links)
        else match grants[n].subject
          case Listener(uuid) =>
            State(links,
                  s.moves + [Pipeline.Accept(id, uuid, CredentialText(encode, uuid, grants[n]), authOk)],
                  s.admitted[id := n])
          case _ => s.(links := links)
  }

  function Run(encode: Keys.Claims -> string, ls: seq<Label>): State {
    if ls == [] then State([], [], map[])
    else Step(encode, Run(encode, ls[..|ls| - 1]), ls[|ls| - 1])
  }

  // ------------------------------------------------------------------
  // Invariant
  // ------------------------------------------------------------------

  ghost predicate OpenedBy(encode: Keys.Claims -> string, grants: seq<Keys.Grant>, g: nat, player: Uuid, jwt: string) {
    && g < |grants| && grants[g].subject == Keys.Listener(player)
    && jwt == CredentialText(encode, player, grants[g])
  }

  ghost predicate Linked(
    encode: Keys.Claims -> string, grants: seq<Keys.Grant>,
    connections: map<nat, Pipeline.Connection>, admitted: map<nat, nat>
  ) {
    && admitted.Keys == connections.Keys
    && (forall id :: id in admitted ==>
          OpenedBy(encode, grants, admitted[id], connections[id].player, connections[id].jwt))
    && forall id, id' :: id in admitted && id' in admitted && id != id' ==> admitted[id] != admitted[id']
  }

  ghost predicate Good(encode: Keys.Claims -> string, s: State) {
    Linked(encode, KeysOf(s).grants, SystemOf(s).connections, s.admitted)
  }

  lemma {:induction false} KeysNext(ls: seq<Keys.Label>, l: Keys.Label)
    ensures Keys.Run(ls + [l]) == Keys.Step(Keys.Run(ls), l)
  {
    assert (ls + [l])[..|ls + [l]| - 1] == ls;
    assert (ls + [l])[|ls + [l]| - 1] == l;
  }

  lemma {:induction false} GrantsGrow(ls: seq<Keys.Label>, l: Keys.Label)
    ensures Keys.Run(ls).grants <= Keys.Run(ls + [l]).grants
  {
    KeysNext(ls, l);
    hide Keys.Run, Keys.Key, Keys.ValueOf, Keys.Decode;
  }

  lemma {:induction false} GrantsKeepLinks(
    encode: Keys.Claims -> string, grants: seq<Keys.Grant>, more: seq<Keys.Grant>,
    connections: map<nat, Pipeline.Connection>, admitted: map<nat, nat>
  )
    requires Linked(encode, grants, connections, admitted) && grants <= more
    ensures Linked(encode, more, connections, admitted)
  {
    hide CredentialText;
  }

  lemma {:induction false} SamePlayersLinked(
    encode: Keys.Claims -> string, grants: seq<Keys.Grant>,
    before: map<nat, Pipeline.Connection>, after: map<nat, Pipeline.Connection>, admitted: map<nat, nat>
  )
    requires Linked(encode, grants, before, admitted) && after.Keys == before.Keys
    requires forall id :: id in before ==> after[id].player == before[id].player && after[id].jwt == before[id].jwt
    ensures Linked(encode, grants, after, admitted)
  {
    hide OpenedBy;
  }

  lemma {:induction false} MoveKeepsSessions(s: Pipeline.System, m: Pipeline.Label)
    requires Pipeline.TabsInRange(s) && !m.Accept?
    ensures Pipeline.Step(s, m).connections.Keys == s.connections.Keys
  {
    hide Pipeline.MoveOne;
  }

  // No move but the acceptance makes or changes a session's player and credential.
  lemma {:induction false} MoveKeepsLinks(
    encode: Keys.Claims -> string, grants: seq<Keys.Grant>,
    s: Pipeline.System, m: Pipeline.Label, admitted: map<nat, nat>
  )
    requires Pipeline.TabsInRange(s) && !m.Accept?
    requires Linked(encode, grants, s.connections, admitted)
    ensures Linked(encode, grants, Pipeline.Step(s, m).connections, admitted)
  {
    hide Linked, Pipeline.Step;
    MoveKeepsSessions(s, m);
    var after := Pipeline.Step(s, m).connections;
    forall id | id in s.connections
      ensures after[id].player == s.connections[id].player && after[id].jwt == s.connections[id].jwt
    {
      PageHistory.StepLater(s, m, id);
    }
    SamePlayersLinked(encode, grants, s.connections, after, admitted);
  }

  lemma {:induction false} AcceptLinks(
    encode: Keys.Claims -> string, grants: seq<Keys.Grant>,
    s: Pipeline.System, id: nat, player: Uuid, jwt: string, authOk: bool, admitted: map<nat, nat>, g: nat
  )
    requires Pipeline.TabsInRange(s) && id !in s.connections
    requires Linked(encode, grants, s.connections, admitted) && OpenedBy(encode, grants, g, player, jwt)
    requires forall i :: i in admitted ==> admitted[i] != g
    ensures Linked(
      encode, grants, Pipeline.Step(s, Pipeline.Accept(id, player, jwt, authOk)).connections, admitted[id := g])
  {
    hide OpenedBy, Print;
  }

  lemma {:induction false} ConnectGood(
    encode: Keys.Claims -> string, s: State, id: nat, token: string, lifetime: nat, authOk: bool
  )
    requires Good(encode, s)
    ensures Good(encode, Step(encode, s, Connect(id, token, lifetime, authOk)))
  {
    var consume := Keys.Consume(Keys.AudioOtt, token, true, lifetime);
    var n, grants := |KeysOf(s).grants|, Keys.Run(s.links + [consume]).grants;
    NewGrantIsFree(encode, KeysOf(s).grants, SystemOf(s).connections, s.admitted, id);
    GrantsGrow(s.links, consume);
    hide Keys.Run, Pipeline.Run, Linked, OpenedBy;
    GrantsKeepLinks(encode, KeysOf(s).grants, grants, SystemOf(s).connections, s.admitted);
    if id !in s.admitted && |grants| > n && grants[n].subject.Listener? {
      var uuid := grants[n].subject.uuid;
      var jwt := CredentialText(encode, uuid, grants[n]);
      GrantOpens(encode, grants, n, uuid);
      PageHistory.RunNext(s.moves, Pipeline.Accept(id, uuid, jwt, authOk));
      hide Pipeline.Step, CredentialText;
      AcceptLinks(encode, grants, SystemOf(s), id, uuid, jwt, authOk, s.admitted, n);
    }
  }

  lemma {:induction false} NewGrantIsFree(
    encode: Keys.Claims -> string, grants: seq<Keys.Grant>,
    connections: map<nat, Pipeline.Connection>, admitted: map<nat, nat>, id: nat
  )
    requires Linked(encode, grants, connections, admitted)
    ensures forall i :: i in admitted ==> admitted[i] != |grants|
    ensures id in connections <==> id in admitted
  {
    assert forall i :: i in admitted ==>
      OpenedBy(encode, grants, admitted[i], connections[i].player, connections[i].jwt);
    assert id in connections.Keys <==> id in admitted.Keys;
  }

  lemma {:induction false} GrantOpens(encode: Keys.Claims -> string, grants: seq<Keys.Grant>, g: nat, player: Uuid)
    requires g < |grants| && grants[g].subject == Keys.Listener(player)
    ensures OpenedBy(encode, grants, g, player, CredentialText(encode, player, grants[g]))
  {
  }

  lemma {:induction false} StepGood(encode: Keys.Claims -> string, s: State, l: Label)
    requires Good(encode, s)
    ensures Good(encode, Step(encode, s, l))
  {
    match l
    case Link(k) =>
      GrantsGrow(s.links, k);
      hide Linked, Keys.Run, Pipeline.Run;
      GrantsKeepLinks(encode, KeysOf(s).grants, Keys.Run(s.links + [k]).grants, SystemOf(s).connections, s.admitted);
    case Move(m) =>
      PageHistory.RunNext(s.moves, m);
      hide Linked, Keys.Run, Pipeline.Run, Pipeline.Step;
      if !m.Accept? {
        MoveKeepsLinks(encode, KeysOf(s).grants, SystemOf(s), m, s.admitted);
      }
    case Connect(id, token, lifetime, authOk) => ConnectGood(encode, s, id, token, lifetime, authOk);
  }

  lemma {:induction false} RunGood(encode: Keys.Claims -> string, ls: seq<Label>)
    ensures Good(encode, Run(encode, ls))
  {
    if ls != [] {
      RunGood(encode, ls[..|ls| - 1]);
      StepGood(encode, Run(encode, ls[..|ls| - 1]), ls[|ls| - 1]);
    }
  }

  // ------------------------------------------------------------------
  // What holds in every run
  // ------------------------------------------------------------------

  // The link a session was opened with.
  ghost predicate LinkOf(s: State, id: nat, issue: nat) {
    && id in s.admitted && s.admitted[id] < |KeysOf(s).grants|
    && KeysOf(s).grants[s.admitted[id]].issue == issue
    && issue < |KeysOf(s).issues|
  }

  lemma {:induction false} AdmittedByOne(
    encode: Keys.Claims -> string, keys: Keys.State,
    connections: map<nat, Pipeline.Connection>, admitted: map<nat, nat>, id: nat
  )
    requires Linked(encode, keys.grants, connections, admitted) && id in connections
    requires forall g, h :: 0 <= g < h < |keys.grants| ==> keys.grants[g].issue != keys.grants[h].issue
    requires forall g :: 0 <= g < |keys.grants| ==> Keys.GoodGrant(keys.issues, keys.grants[g])
    ensures id in admitted && OpenedBy(encode, keys.grants, admitted[id], connections[id].player, connections[id].jwt)
    ensures Keys.GoodGrant(keys.issues, keys.grants[admitted[id]])
    ensures forall other :: other in connections && other != id ==>
      && other in admitted && admitted[other] < |keys.grants|
      && keys.grants[admitted[other]].issue != keys.grants[admitted[id]].issue
  {
    hide Keys.GoodGrant, CredentialText;
    assert id in connections.Keys;
    assert OpenedBy(encode, keys.grants, admitted[id], connections[id].player, connections[id].jwt);
    forall other | other in connections && other != id
      ensures other in admitted && admitted[other] < |keys.grants|
      ensures keys.grants[admitted[other]].issue != keys.grants[admitted[id]].issue
    {
      assert other in connections.Keys;
      assert OpenedBy(encode, keys.grants, admitted[other], connections[other].player, connections[other].jwt);
      assert admitted[other] != admitted[id];
    }
  }

  lemma {:induction false} GrantsOnce(s: State)
    ensures forall g, h :: 0 <= g < h < |KeysOf(s).grants| ==> KeysOf(s).grants[g].issue != KeysOf(s).grants[h].issue
    ensures forall g :: 0 <= g < |KeysOf(s).grants| ==> Keys.GoodGrant(KeysOf(s).issues, KeysOf(s).grants[g])
  {
    Keys.RunGood(s.links);
    hide Keys.Run, Keys.GoodKey, Keys.GoodGrant;
    assert Keys.Good(KeysOf(s));
  }

  // Every session is its own link's: one the plugin wrote for the session's player,
  // consumed before it expired, and by no other session; and the credential handed over
  // is that player's.
  lemma {:induction false} SessionHasLink(encode: Keys.Claims -> string, ls: seq<Label>, id: nat) returns (issue: nat)
    requires id in SystemOf(Run(encode, ls)).connections
    ensures var s := Run(encode, ls);
      var c := SystemOf(s).connections[id];
      && LinkOf(s, id, issue)
      && var g, i := KeysOf(s).grants[s.admitted[id]], KeysOf(s).issues[issue];
      && i.subject == Keys.Listener(c.player)
      && i.time <= g.time < i.time + Keys.Ttl(Keys.AudioOtt)
      && c.jwt == encode(Keys.Sign(c.player, g.time, g.lifetime))
      && forall other :: other in SystemOf(s).connections && other != id ==> !LinkOf(s, other, issue)
  {
    RunGood(encode, ls);
    var s := Run(encode, ls);
    GrantsOnce(s);
    hide Run, KeysOf, SystemOf, Linked;
    AdmittedByOne(encode, KeysOf(s), SystemOf(s).connections, s.admitted, id);
    issue := KeysOf(s).grants[s.admitted[id]].issue;
  }

  // From link to loudspeaker: once drained, the page opened with a link wants what the
  // regions of the player it was written for last asked for.
  lemma {:induction false} LinkedPageFollowsRegions(encode: Keys.Claims -> string, ls: seq<Label>, id: nat)
    returns (issue: nat)
    requires var s := SystemOf(Run(encode, ls));
      id in s.connections && Pipeline.Drained(s.log, s.connections[id])
    ensures var s := Run(encode, ls);
      var c := SystemOf(s).connections[id];
      && LinkOf(s, id, issue)
      && var subject := KeysOf(s).issues[issue].subject;
      && subject.Listener?
      && c.tab.page.desired == Pipeline.LastWish(SystemOf(s).log[c.start.value..], subject.uuid)
  {
    issue := SessionHasLink(encode, ls, id);
    hide Run;
    Pipeline.DrainedPageFollowsRegions(Run(encode, ls).moves, id);
    hide Keys.Run, Pipeline.Run, Pipeline.LastWish, Listen.Silent;
  }
}
