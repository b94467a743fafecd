// What can always still happen: an open session can be read to its end, and what a
// region asks for can be heard.
module Progress {
  import opened Options
  import opened Uuids
  import opened Json
  import opened JsonTemplate
  import opened QuoteFree
  import opened Events
  import opened Relay
  import opened Playback
  import opened PageHistory
  import Listen

  // ------------------------------------------------------------------
  // When a session is open
  // ------------------------------------------------------------------

  // In every run a subscribed session is open exactly while nothing ended it, whatever
  // else came over the channel and from the browser.
  lemma {:induction false} SessionOpenExactly(ls: seq<Label>, id: nat)
    requires id in Run(ls).connections && Run(ls).connections[id].start.Some?
    ensures var c := Run(ls).connections[id];
      c.session.open <==> forall i :: 0 <= i < |c.inputs| ==> !Stops(Print(c.player), c.inputs[i])
  {
    var c := Run(ls).connections[id];
    hide Stops, Print, Turns, Payloads, TextsOf, Wanted, AuthFields, Listen.Sound;
    assert Good(Run(ls).log, c);
    OpenExactly(Print(c.player), AuthFields(c.jwt, Print(c.player)), c.inputs);
  }

  // ------------------------------------------------------------------
  // Reading on
  // ------------------------------------------------------------------

  // The player does not leave in what is still to be read.
  ghost predicate Stays(os: seq<Source>, player: Uuid) {
    forall i :: 0 <= i < |os| ==> EventOf(os[i]).value != PlayerDisconnect(player)
  }

  // Nothing keeps an open session from reading on.
  ghost predicate CanGoOn(log: seq<Source>, c: Connection) {
    && c.start.Some? && c.session.open && c.tab.socket == Listen.Open
    && c.start.value <= c.cursor <= |log|
    && ReadableSources(log[c.start.value..], c.player) && Stays(log[c.cursor..], c.player)
  }

  lemma {:induction false} NotClosing(e: Event, player: Uuid)
    requires ReadsRight(e, player) && e != PlayerDisconnect(player)
    ensures Translate(ToJson(e), Print(player)) != Some(Close)
  {
    TranslatesAsExpected(e, player);
    hide Translate, ToJson, Print, ReadsRight;
  }

  lemma {:induction false} NextKeepsOpen(log: seq<Source>, c: Connection)
    requires CanGoOn(log, c) && c.cursor < |log|
    ensures Translate(TextOf(log[c.cursor]), Print(c.player)) != Some(Close)
    ensures Stays(log[c.cursor + 1..], c.player)
  {
    var o := log[c.cursor];
    assert o == log[c.start.value..][c.cursor - c.start.value] && o == log[c.cursor..][0];
    assert log[c.cursor + 1..] == log[c.cursor..][1..];
    hide ReadsRight, Translate, ToJson, Print;
    NotClosing(EventOf(o).value, c.player);
  }

  lemma {:induction false} DeliverGoesOn(log: seq<Source>, c: Connection)
    requires Listen.InRange(c.tab.page) && CanGoOn(log, c) && c.cursor < |log|
    ensures var d := MoveOne(log, c, Deliver(true));
      CanGoOn(log, d) && d.cursor == c.cursor + 1 && Onward(c, d)
  {
    NextKeepsOpen(log, c);
    hide Translate, TextOf, Print, Stays, ReadableSources;
  }

  lemma {:induction false} TakeGoesOn(log: seq<Source>, c: Connection)
    requires Listen.InRange(c.tab.page) && CanGoOn(log, c) && c.received < |c.session.frames|
    ensures var d := MoveOne(log, c, TakeFrame);
      && CanGoOn(log, d) && d.cursor == c.cursor && d.received == c.received + 1 && d.session == c.session
      && Onward(c, d)
  {
    if c.session.frames[c.received].TextFrame? {
      Listen.StepEnables(c.tab, Listen.Receive(ReadMessage(c.session.frames[c.received].fields)));
    }
    hide ReadMessage, Listen.OnMessage, ReadableSources, Stays;
  }

  lemma {:induction false} MoveOf(ls: seq<Label>, id: nat, m: Move)
    requires id in Run(ls).connections
    ensures var s := Run(ls);
      Run(ls + [At(id, m)]) == s.(connections := s.connections[id := MoveOne(s.log, s.connections[id], m)])
  {
    RunNext(ls, At(id, m));
    hide Run, MoveOne;
  }

  // Moves of sessions that are there, and events.
  ghost predicate NoneAccepted(ls: seq<Label>) {
    forall i :: 0 <= i < |ls| ==> !ls[i].Accept?
  }

  ghost predicate Onward(c: Connection, d: Connection) {
    && d.start == c.start && d.player == c.player && d.jwt == c.jwt
    && d.tab.mounted == c.tab.mounted && d.tab.pending == c.tab.pending
    && d.tab.page.enabled == c.tab.page.enabled
  }

  // The same run, further on for one connection only.
  ghost predicate OnlyMoved(s: System, t: System, id: nat) {
    && id in s.connections && id in t.connections
    && t == s.(connections := s.connections[id := t.connections[id]])
    && Onward(s.connections[id], t.connections[id])
  }

  lemma {:induction false} OnlyMovedTwice(s: System, t: System, u: System, id: nat)
    requires OnlyMoved(s, t, id) && OnlyMoved(t, u, id)
    ensures OnlyMoved(s, u, id)
  {
  }

  lemma {:induction false} Unmoved(s: System, id: nat)
    requires id in s.connections
    ensures OnlyMoved(s, s, id)
  {
    assert s == s.(connections := s.connections[id := s.connections[id]]);
  }

  lemma {:induction false} NoneInEither(ls: seq<Label>, more: seq<Label>)
    requires NoneAccepted(ls) && NoneAccepted(more)
    ensures NoneAccepted(ls + more)
  {
  }

  lemma {:induction false} CanRead(ls: seq<Label>, id: nat) returns (more: seq<Label>)
    requires id in Run(ls).connections && CanGoOn(Run(ls).log, Run(ls).connections[id])
    ensures NoneAccepted(more)
    ensures var s, t := Run(ls), Run(ls + more);
      OnlyMoved(s, t, id) && CanGoOn(t.log, t.connections[id]) && t.connections[id].cursor == |t.log|
    decreases |Run(ls).log| - Run(ls).connections[id].cursor
  {
    hide CanGoOn, MoveOne, Run, Good;
    var s := Run(ls);
    var c := s.connections[id];
    assert Good(s.log, c);
    assert c.cursor <= |s.log| by {
      CursorInLog(s.log, c);
    }
    if c.cursor == |s.log| {
      more := [];
      assert ls + [] == ls;
      Unmoved(s, id);
    } else {
      GoodTab(s.log, c);
      DeliverGoesOn(s.log, c);
      MoveOf(ls, id, Deliver(true));
      var rest := CanRead(ls + [At(id, Deliver(true))], id);
      more := [At(id, Deliver(true))] + rest;
      assert ls + more == ls + [At(id, Deliver(true))] + rest;
    }
  }

  lemma {:induction false} CursorInLog(log: seq<Source>, c: Connection)
    requires CanGoOn(log, c)
    ensures c.cursor <= |log|
  {
  }

  lemma {:induction false} GoodTab(log: seq<Source>, c: Connection)
    requires Good(log, c)
    ensures Listen.InRange(c.tab.page) && c.received <= |c.session.frames|
  {
  }

  lemma {:induction false} CanTake(ls: seq<Label>, id: nat) returns (more: seq<Label>)
    requires id in Run(ls).connections && CanGoOn(Run(ls).log, Run(ls).connections[id])
    ensures NoneAccepted(more)
    ensures var s, t := Run(ls), Run(ls + more);
      && OnlyMoved(s, t, id) && CanGoOn(t.log, t.connections[id])
      && t.connections[id].cursor == s.connections[id].cursor
      && t.connections[id].received == |t.connections[id].session.frames|
    decreases |Run(ls).connections[id].session.frames| - Run(ls).connections[id].received
  {
    hide CanGoOn, MoveOne, Run, Good;
    var s := Run(ls);
    var c := s.connections[id];
    assert Good(s.log, c);
    GoodTab(s.log, c);
    if c.received == |c.session.frames| {
      more := [];
      assert ls + [] == ls;
      Unmoved(s, id);
    } else {
      TakeGoesOn(s.log, c);
      MoveOf(ls, id, TakeFrame);
      var rest := CanTake(ls + [At(id, TakeFrame)], id);
      more := [At(id, TakeFrame)] + rest;
      assert ls + more == ls + [At(id, TakeFrame)] + rest;
    }
  }

  // Every open session with an open page can be drained, by moves of its own and with no
  // other session disturbed, unless its player is to leave; and the page then wants what
  // the player's regions last asked for.
  lemma {:induction false} CanDrain(ls: seq<Label>, id: nat) returns (more: seq<Label>)
    requires id in Run(ls).connections && CanGoOn(Run(ls).log, Run(ls).connections[id])
    ensures NoneAccepted(more)
    ensures var s, t := Run(ls), Run(ls + more);
      && OnlyMoved(s, t, id) && Drained(t.log, t.connections[id])
      && t.connections[id].tab.page.desired
         == LastWish(s.log[s.connections[id].start.value..], s.connections[id].player)
  {
    hide *;
    var read := CanRead(ls, id);
    SameLog(Run(ls), Run(ls + read), id);
    var taken := CanTake(ls + read, id);
    more := read + taken;
    NoneInEither(read, taken);
    assert ls + more == ls + read + taken;
    SameLog(Run(ls + read), Run(ls + more), id);
    OnlyMovedTwice(Run(ls), Run(ls + read), Run(ls + more), id);
    SameLog(Run(ls), Run(ls + more), id);
    ReadToTheEnd(Run(ls + more).log, Run(ls + more).connections[id]);
    DrainedPageFollowsRegions(ls + more, id);
  }

  lemma {:induction false} ReadToTheEnd(log: seq<Source>, c: Connection)
    requires CanGoOn(log, c) && c.cursor == |log| && c.received == |c.session.frames|
    ensures Drained(log, c) && c.start.Some? && c.start.value <= |log|
  {
  }

  lemma {:induction false} SameLog(s: System, t: System, id: nat)
    requires OnlyMoved(s, t, id)
    ensures id in s.connections && id in t.connections && t.log == s.log
    ensures t.connections[id].start == s.connections[id].start
    ensures t.connections[id].player == s.connections[id].player
  {
  }

  // Whatever else wakes an open session is heard by it, and so answered as its loop does.
  lemma {:induction false} WakeIsHeard(ls: seq<Label>, id: nat, i: Input)
    requires id in Run(ls).connections && HeardIn(i) == []
    requires var c := Run(ls).connections[id]; c.start.Some? && c.session.open
    ensures var c, d := Run(ls).connections[id], Run(ls + [At(id, Wake(i))]).connections[id];
      && d.inputs == c.inputs + [i]
      && d.session == Turns(Print(c.player), Session([FirstFrame(c)], true), c.inputs + [i])
  {
    hide Run, Turns, Turn, Print, AuthFields;
    MoveOf(ls, id, Wake(i));
    HearGood(Run(ls).log, Run(ls).connections[id], i);
  }

  // A session starts with the credential sent, or not at all, and on a page that has
  // taken nothing; those there already are not touched.
  lemma {:induction false} SessionStarts(ls: seq<Label>, id: nat, player: Uuid, jwt: string, authOk: bool)
    ensures var s, t := Run(ls), Run(ls + [Accept(id, player, jwt, authOk)]);
      if id in s.connections then t == s
      else
        && t.log == s.log && t.connections.Keys == s.connections.Keys + {id}
        && (forall other :: other in s.connections ==> t.connections[other] == s.connections[other])
        && var c := t.connections[id];
        && c.player == player && c.jwt == jwt && c.start.None? && c.received == 0
        && c.session.open == authOk
        && c.session.frames == (if authOk then [TextFrame(AuthFields(jwt, Print(player)))] else [])
        && c.tab.page == Listen.BLANK && c.tab.socket == Listen.Open && c.tab.mounted && c.tab.pending == 0
  {
    RunNext(ls, Accept(id, player, jwt, authOk));
    hide Run, Print, AuthFields;
  }

  // A session that cannot subscribe ends with a close frame.
  lemma {:induction false} SubscriptionFails(ls: seq<Label>, id: nat, closeOk: bool)
    requires id in Run(ls).connections
    requires var c := Run(ls).connections[id]; c.start.None? && c.session.open
    ensures var c, d := Run(ls).connections[id], Run(ls + [At(id, Subscribe(false, closeOk))]).connections[id];
      && !d.session.open && d.start.None?
      && d.session.frames == [TextFrame(AuthFields(c.jwt, Print(c.player)))] + if closeOk then [CloseFrame] else []
  {
    hide Run, Print, AuthFields;
    MoveOf(ls, id, Subscribe(false, closeOk));
    assert Good(Run(ls).log, Run(ls).connections[id]);
  }

  // ------------------------------------------------------------------
  // From nothing to a clip
  // ------------------------------------------------------------------

  // A session that has subscribed and whose page has not taken a frame.
  function Fresh(player: Uuid, jwt: string, at: nat): Connection {
    Connection(
      player, jwt, Some(at), at, [], Session([TextFrame(AuthFields(jwt, Print(player)))], true), 0, Listen.Start(true))
  }

  // The same once the page has taken the credential and its button was clicked.
  function Listening(player: Uuid, jwt: string, at: nat): Connection {
    Fresh(player, jwt, at).(
      received := 1,
      tab := Listen.Tab(Listen.BLANK.(authenticated := true, enabled := true), Listen.Open, 0, true))
  }

  function Accepted(player: Uuid, jwt: string): Connection {
    Fresh(player, jwt, 0).(start := None)
  }

  lemma {:induction false} AcceptOne(s: System, id: nat, player: Uuid, jwt: string)
    requires TabsInRange(s) && id !in s.connections
    ensures Step(s, Accept(id, player, jwt, true))
         == s.(connections := s.connections[id := Accepted(player, jwt)])
  {
    hide Print, AuthFields;
  }

  lemma {:induction false} SubscribeOne(log: seq<Source>, player: Uuid, jwt: string)
    ensures Listen.InRange(Accepted(player, jwt).tab.page)
    ensures MoveOne(log, Accepted(player, jwt), Subscribe(true, true)) == Fresh(player, jwt, |log|)
  {
    hide Print, AuthFields;
  }

  lemma {:induction false} MapTwice<K, V>(m: map<K, V>, k: K, v: V, w: V)
    ensures m[k := v][k := w] == m[k := w]
  {
  }

  lemma {:induction false} Subscribes(ls: seq<Label>, id: nat, player: Uuid, jwt: string)
    requires id !in Run(ls).connections
    ensures var s := Run(ls);
      Run(ls + [Accept(id, player, jwt, true)] + [At(id, Subscribe(true, true))])
      == s.(connections := s.connections[id := Fresh(player, jwt, |s.log|)])
  {
    var s := Run(ls);
    RunNext(ls, Accept(id, player, jwt, true));
    AcceptOne(s, id, player, jwt);
    SubscribeOne(s.log, player, jwt);
    MapTwice(s.connections, id, Accepted(player, jwt), Fresh(player, jwt, |s.log|));
    hide *;
    MoveOf(ls + [Accept(id, player, jwt, true)], id, Subscribe(true, true));
  }

  lemma {:induction false} Enables(log: seq<Source>, player: Uuid, jwt: string, at: nat)
    ensures var c := MoveOne(log, Fresh(player, jwt, at), TakeFrame);
      Listen.InRange(c.tab.page) && MoveOne(log, c, Browser(Listen.Click(false))) == Listening(player, jwt, at)
  {
    AuthIsNoWish(jwt, Print(player));
    hide Print, AuthFields, ReadMessage;
  }

  lemma {:induction false} Listens(ls: seq<Label>, id: nat, player: Uuid, jwt: string, at: nat)
    requires id in Run(ls).connections && Run(ls).connections[id] == Fresh(player, jwt, at)
    ensures var s := Run(ls);
      Run(ls + [At(id, TakeFrame)] + [At(id, Browser(Listen.Click(false)))])
      == s.(connections := s.connections[id := Listening(player, jwt, at)])
  {
    hide Run, Fresh, Listening, MoveOne;
    Enables(Run(ls).log, player, jwt, at);
    MoveOf(ls, id, TakeFrame);
    MoveOf(ls + [At(id, TakeFrame)], id, Browser(Listen.Click(false)));
  }

  lemma {:induction false} PlainReadsRight(player: Uuid, src: string, regions: Regions)
    requires Plain(src)
    ensures ReadsRight(PlayEvent(player, src, regions), player)
  {
    PlainIsQuoteFree(src);
    hide NoQuote, Plain;
  }

  lemma {:induction false} PlainIsQuoteFree(s: string)
    requires Plain(s)
    ensures NoQuote(s)
  {
  }

  lemma {:induction false} WishOfOne(o: Source, player: Uuid, clip: Clip)
    requires Wish(o, player) == Some(Some(clip))
    ensures LastWish([o], player) == Some(clip)
  {
    assert [o][..0] == [];
  }

  lemma {:induction false} ListeningCanGoOn(log: seq<Source>, o: Source, player: Uuid, jwt: string)
    requires ReadsRight(EventOf(o).value, player) && EventOf(o).value != PlayerDisconnect(player)
    ensures CanGoOn(log + [o], Listening(player, jwt, |log|))
    ensures (log + [o])[|log|..] == [o]
  {
    hide ReadsRight, Print, AuthFields;
    assert (log + [o])[|log|..] == [o];
  }

  lemma {:induction false} StillListens(s: System, t: System, id: nat, player: Uuid, jwt: string, at: nat)
    requires OnlyMoved(s, t, id) && s.connections[id] == Listening(player, jwt, at)
    ensures id in t.connections && t.log == s.log && t.connections.Keys == s.connections.Keys
    ensures forall other :: other in s.connections && other != id ==> t.connections[other] == s.connections[other]
    ensures var c := t.connections[id]; c.tab.mounted && c.tab.page.enabled && c.tab.pending == 0
    ensures t.connections[id].player == player && t.connections[id].jwt == jwt
    ensures s.connections[id].start == Some(at) && s.connections[id].player == player
  {
  }

  // The page has loaded the clip, and is live.
  ghost predicate Plays(c: Connection, clip: Clip) {
    var page := c.tab.page;
    && page.active.Some? && page.active.value < |page.howls|
    && page.howls[page.active.value] == Listen.Howl(clip, true)
  }

  lemma {:induction false} DrainedPlays(ls: seq<Label>, id: nat, clip: Clip)
    requires id in Run(ls).connections && Drained(Run(ls).log, Run(ls).connections[id])
    requires var c := Run(ls).connections[id];
      && c.tab.mounted && c.tab.page.enabled && c.tab.pending == 0
      && c.tab.page.desired == Some(clip)
    ensures Plays(Run(ls).connections[id], clip)
  {
    DrainedPageFollowsRegions(ls, id);
    var c := Run(ls).connections[id];
    assert Good(Run(ls).log, c);
    GoodTab(Run(ls).log, c);
    hide Run, LastWish, Drained, Good;
  }

  // At any point of any run a player can open a session, and hear what a region that
  // the player then enters asks for.
  lemma {:induction false} CanBeHeard(
    ls: seq<Label>, id: nat, player: Uuid, jwt: string, src: string, regions: Regions
  )
    returns (more: seq<Label>)
    requires id !in Run(ls).connections && Plain(src)
    ensures more != [] && more[0] == Accept(id, player, jwt, true) && NoneAccepted(more[1..])
    ensures var s, t := Run(ls), Run(ls + more);
      && t.log == s.log + [Region(OnSetValue(player, src, regions))]
      && t.connections.Keys == s.connections.Keys + {id}
      && (forall other :: other in s.connections ==> t.connections[other] == s.connections[other])
      && t.connections[id].player == player && t.connections[id].jwt == jwt
      && Plays(t.connections[id], Wished(src, regions))
  {
    var o := Region(OnSetValue(player, src, regions));
    var enter := ls + [Accept(id, player, jwt, true)] + [At(id, Subscribe(true, true))];
    var asked := enter + [Publish(o)];
    var ready := asked + [At(id, TakeFrame)] + [At(id, Browser(Listen.Click(false)))];
    var log := Run(ls).log;
    hide Run, CanGoOn, Fresh, ReadsRight, Wished, LastWish, OnlyMoved, Drained, Plays, MoveOne, Good, Print;
    Subscribes(ls, id, player, jwt);
    RunNext(enter, Publish(o));
    Listens(asked, id, player, jwt, |log|);
    PlainReadsRight(player, src, regions);
    ListeningCanGoOn(log, o, player, jwt);
    WishOfOne(o, player, Wished(src, regions));
    var rest := CanDrain(ready, id);
    more := [Accept(id, player, jwt, true), At(id, Subscribe(true, true)), Publish(o),
             At(id, TakeFrame), At(id, Browser(Listen.Click(false)))] + rest;
    assert ls + more == ready + rest;
    hide Listening;
    StillListens(Run(ready), Run(ls + more), id, player, jwt, |log|);
    DrainedPlays(ls + more, id, Wished(src, regions));
  }
}
