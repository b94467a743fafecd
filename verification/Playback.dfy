// The whole playback pipeline: region callbacks and proxy events are published on the
// channel, any number of relay sessions read it, and each session's browser follows
// the frames it is sent. Every interleaving of the parts is a list of labels.
module Playback {
  import opened Options
  import opened Uuids
  import opened Json
  import opened JsonTemplate
  import opened Events
  import opened Relay
  import Listen

  // Where a published event came from.
  datatype Origin = Region(cb: Callback) | Proxy(e: Event)

  function EventOf(o: Origin): Option<Event> {
    match o
    case Region(cb) => Handle(cb)
    // The proxy publishes connects, switches and disconnects only.
    case Proxy(e) => if e.PlayerConnect? || e.ServerSwitch? || e.PlayerDisconnect? then Some(e) else None
  }

  type Source = o: Origin | EventOf(o).Some? witness Region(OnAbsentValue(seq(32, i => 0)))

  function TextOf(o: Source): string {
    ToJson(EventOf(o).value)
  }

  function TextsOf(os: seq<Source>): (ts: seq<string>)
    ensures |ts| == |os|
    ensures forall i :: 0 <= i < |os| ==> ts[i] == TextOf(os[i])
  {
    seq(|os|, i requires 0 <= i < |os| => TextOf(os[i]))
  }

  // No quotation mark in anything published, and plain URLs in the player's own regions.
  ghost predicate ReadableSources(os: seq<Source>, player: Uuid) {
    forall i :: 0 <= i < |os| ==> ReadsRight(EventOf(os[i]).value, player)
  }

  // ------------------------------------------------------------------
  // The system
  // ------------------------------------------------------------------

  datatype Connection = Connection(
    player: Uuid, jwt: string,
    start: Option<nat>,    // length of the channel log when the session subscribed
    cursor: nat,           // next channel message for this session
    inputs: seq<Input>,    // what woke the session so far
    session: Session,
    received: nat,         // frames the browser has taken
    tab: Listen.Tab)

  datatype System = System(log: seq<Source>, connections: map<nat, Connection>)

  datatype Move =
    | Subscribe(ok: bool, closeOk: bool)
    | Deliver(sendOk: bool)
    | Wake(input: Input)
    | TakeFrame
    | Browser(act: Listen.Act)

  datatype Label =
    | Publish(o: Origin)
    | Accept(id: nat, player: Uuid, jwt: string, authOk: bool)
    | At(id: nat, move: Move)

  function FirstFrame(c: Connection): Frame {
    TextFrame(AuthFields(c.jwt, Print(c.player)))
  }

  function Hear(c: Connection, i: Input): Connection {
    c.(inputs := c.inputs + [i], session := Turn(Print(c.player), c.session, i))
  }

  function MoveOne(log: seq<Source>, c: Connection, m: Move): Connection
    requires Listen.InRange(c.tab.page)
  {
    match m
    case Subscribe(ok, closeOk) =>
      if !c.session.open || c.start.Some? then c
      else if ok then c.(start := Some(|log|), cursor := |log|)
      else c.(session := Session(c.session.frames + (if closeOk then [CloseFrame] else []), false))
    case Deliver(sendOk) =>
      if c.session.open && c.start.Some? && c.cursor < |log| then
        Hear(c, FromChannel(Payload(TextOf(log[c.cursor])), sendOk)).(cursor := c.cursor + 1)
      else c
    case Wake(i) =>
      if c.session.open && c.start.Some? && HeardIn(i) == [] then Hear(c, i) else c
    case TakeFrame =>
      if c.received < |c.session.frames| && c.tab.socket == Listen.Open then
        var f := c.session.frames[c.received];
        c.(received := c.received + 1,
           tab := if f.TextFrame? then Listen.Step(c.tab, Listen.Receive(ReadMessage(f.fields))) else c.tab)
      else c
    case Browser(act) =>
      if act.Receive? then c else c.(tab := Listen.Step(c.tab, act))
  }

  ghost predicate TabsInRange(s: System) {
    forall id :: id in s.connections ==> Listen.InRange(s.connections[id].tab.page)
  }

  function Step(s: System, l: Label): (s': System)
    requires TabsInRange(s)
  {
    match l
    case Publish(o) => if EventOf(o).Some? then s.(log := s.log + [o]) else s
    case Accept(id, player, jwt, authOk) =>
      if id in s.connections then s
      else
        var auth := TextFrame(AuthFields(jwt, Print(player)));
        var session := if authOk then Session([auth], true) else Session([], false);
        s.(connections := s.connections[id := Connection(player, jwt, None, 0, [], session, 0, Listen.Start(true))])
    case At(id, m) =>
      if id !in s.connections then s
      else s.(connections := s.connections[id := MoveOne(s.log, s.connections[id], m)])
  }

  function Run(ls: seq<Label>): (s: System)
    ensures Consistent(s)
  {
    if ls == [] then System([], map[])
    else
      var before := Run(ls[..|ls| - 1]);
      StepConsistent(before, ls[|ls| - 1]);
      Step(before, ls[|ls| - 1])
  }

  // ------------------------------------------------------------------
  // What the player should hear
  // ------------------------------------------------------------------

  // The clip a region asks for: its flags, full volume and no loop by default.
  function Wished(src: string, regions: Regions): Clip {
    Clip(src,
         if regions.volume.Some? && 0 <= regions.volume.value <= 100
         then regions.volume.value as real / 100.0 else 1.0,
         regions.loop == Some(Allow))
  }

  // What one published event says about the player's wish: nothing, a clip, or silence.
  function Wish(o: Source, player: Uuid): Option<Option<Clip>> {
    match o
    case Region(OnInitialValue(p, src, regions)) =>
      if p == player then Some(Some(Wished(src.value, regions))) else None
    case Region(OnSetValue(p, src, regions)) =>
      if p == player then Some(Some(Wished(src, regions))) else None
    case Region(OnAbsentValue(p)) => if p == player then Some(None) else None
    case Proxy(_) => None
  }

  // The wish of the player's latest region callback.
  function LastWish(os: seq<Source>, player: Uuid): Option<Clip> {
    if os == [] then None
    else match Wish(os[|os| - 1], player)
      case Some(wish) => wish
      case None => LastWish(os[..|os| - 1], player)
  }

  // ------------------------------------------------------------------
  // Invariant
  // ------------------------------------------------------------------

  // What a page that took these messages wants.
  function Wanted(msgs: seq<map<string, Value>>): Option<Clip> {
    if msgs == [] then None
    else match ReadMessage(msgs[|msgs| - 1])
      case Play(clip) => Some(clip)
      case Stop => None
      case _ => Wanted(msgs[..|msgs| - 1])
  }

  ghost predicate Unsubscribed(c: Connection) {
    && c.inputs == []
    && (c.session.frames == [] || c.session.frames == [FirstFrame(c)]
        || c.session.frames == [FirstFrame(c), CloseFrame])
    && (c.session.open ==> c.session.frames == [FirstFrame(c)])
  }

  ghost predicate Subscribed(log: seq<Source>, c: Connection)
    requires c.start.Some?
  {
    && c.start.value <= c.cursor <= |log|
    && Payloads(c.inputs) == TextsOf(log[c.start.value..c.cursor])
    && c.session == Turns(Print(c.player), Session([FirstFrame(c)], true), c.inputs)
  }

  ghost predicate Good(log: seq<Source>, c: Connection) {
    && Listen.Sound(c.tab)
    && c.received <= |c.session.frames|
    && (if c.start.None? then Unsubscribed(c) else Subscribed(log, c))
    && (c.tab.socket == Listen.Open ==> c.tab.page.desired == Wanted(Texts(c.session.frames[..c.received])))
  }

  ghost predicate Consistent(s: System) {
    forall id :: id in s.connections ==> Good(s.log, s.connections[id])
  }

  lemma {:induction false} HearGood(log: seq<Source>, c: Connection, i: Input)
    requires Good(log, c) && c.start.Some? && c.session.open
    ensures Hear(c, i).session == Turns(Print(c.player), Session([FirstFrame(c)], true), Hear(c, i).inputs)
    ensures Payloads(Hear(c, i).inputs) == Payloads(c.inputs) + HeardIn(i)
    ensures |c.session.frames| <= |Hear(c, i).session.frames|
    ensures Hear(c, i).session.frames[..c.received] == c.session.frames[..c.received]
  {
    hide Translate, Print, Listen.Sound, Wanted;
    assert (c.inputs + [i])[..|c.inputs|] == c.inputs;
  }

  // One more frame, as a page that keeps up sees it.
  lemma {:induction false} TakeText(frames: seq<Frame>, n: nat)
    requires n < |frames|
    ensures Texts(frames[..n + 1]) == Texts(frames[..n]) + if frames[n].TextFrame? then [frames[n].fields] else []
  {
    assert frames[..n + 1][..n] == frames[..n];
  }

  lemma {:induction false} ReceiveWanted(t: Listen.Tab, m: map<string, Value>, msgs: seq<map<string, Value>>)
    requires Listen.InRange(t.page) && t.socket == Listen.Open && t.page.desired == Wanted(msgs)
    ensures Listen.Step(t, Listen.Receive(ReadMessage(m))).page.desired == Wanted(msgs + [m])
  {
    hide ReadMessage;
    WantedNext(msgs, m);
  }

  lemma {:induction false} TakeGood(log: seq<Source>, c: Connection)
    requires Good(log, c)
    ensures Good(log, MoveOne(log, c, TakeFrame))
  {
    assert Listen.InRange(c.tab.page);
    hide ReadMessage, Turns, Payloads, TextsOf, Print, Listen.Sound, Listen.Step, Wanted, Texts;
    if c.received < |c.session.frames| && c.tab.socket == Listen.Open {
      var f := c.session.frames[c.received];
      TakeText(c.session.frames, c.received);
      if f.TextFrame? {
        Listen.StepSound(c.tab, Listen.Receive(ReadMessage(f.fields)));
        ReceiveWanted(c.tab, f.fields, Texts(c.session.frames[..c.received]));
      } else {
        assert Texts(c.session.frames[..c.received]) + [] == Texts(c.session.frames[..c.received]);
      }
    }
  }

  lemma {:induction false} SubscribeGood(log: seq<Source>, c: Connection, ok: bool, closeOk: bool)
    requires Good(log, c)
    ensures Good(log, MoveOne(log, c, Subscribe(ok, closeOk)))
  {
    if c.session.open && c.start.None? {
      assert log[|log|..|log|] == [];
      var frames := MoveOne(log, c, Subscribe(ok, closeOk)).session.frames;
      assert frames[..c.received] == c.session.frames[..c.received];
    }
  }

  lemma {:induction false} DeliverGood(log: seq<Source>, c: Connection, sendOk: bool)
    requires Good(log, c)
    ensures Good(log, MoveOne(log, c, Deliver(sendOk)))
  {
    hide Turn, Turns, Wanted, Payloads, TextOf, Listen.Sound, Print;
    if c.session.open && c.start.Some? && c.cursor < |log| {
      HearGood(log, c, FromChannel(Payload(TextOf(log[c.cursor])), sendOk));
      assert TextsOf(log[c.start.value..c.cursor + 1])
          == TextsOf(log[c.start.value..c.cursor]) + [TextOf(log[c.cursor])];
    }
  }

  lemma {:induction false} BrowserGood(log: seq<Source>, c: Connection, act: Listen.Act)
    requires Good(log, c)
    ensures Good(log, MoveOne(log, c, Browser(act)))
  {
    if !act.Receive? {
      Listen.StepSound(c.tab, act);
      if Listen.Step(c.tab, act).socket == Listen.Open {
        Listen.OnlyMessagesAskForClips(c.tab, act);
        assert c.tab.socket == Listen.Open;
      }
    }
  }

  lemma {:induction false} MoveGood(log: seq<Source>, c: Connection, m: Move)
    requires Good(log, c)
    ensures Good(log, MoveOne(log, c, m))
  {
    match m
    case Subscribe(ok, closeOk) => SubscribeGood(log, c, ok, closeOk);
    case Deliver(sendOk) => DeliverGood(log, c, sendOk);
    case Wake(i) =>
      if c.session.open && c.start.Some? && HeardIn(i) == [] {
        HearGood(log, c, i);
      }
    case TakeFrame => TakeGood(log, c);
    case Browser(act) => BrowserGood(log, c, act);
  }

  lemma {:induction false} LogGrows(log: seq<Source>, o: Source, c: Connection)
    requires Good(log, c)
    ensures Good(log + [o], c)
  {
    if c.start.Some? {
      assert (log + [o])[c.start.value..c.cursor] == log[c.start.value..c.cursor];
    }
  }

  lemma {:induction false} StepConsistent(s: System, l: Label)
    requires Consistent(s)
    ensures Consistent(Step(s, l))
  {
    match l
    case Publish(o) =>
      if EventOf(o).Some? {
        forall id | id in s.connections ensures Good(s.log + [o], s.connections[id]) {
          LogGrows(s.log, o, s.connections[id]);
        }
      }
    case Accept(id, player, jwt, authOk) =>
      if id !in s.connections {
        var c := Step(s, l).connections[id];
        assert c.session.frames[..0] == [];
      }
    case At(id, m) =>
      if id in s.connections {
        MoveGood(s.log, s.connections[id], m);
      }
  }

  // ------------------------------------------------------------------
  // From callbacks to the page
  // ------------------------------------------------------------------

  // The message the player's page gets for a published event carries its wish.
  lemma {:induction false} WishExpected(o: Source, player: Uuid)
    ensures var act := Expected(EventOf(o).value, player);
      match Wish(o, player)
      case None => act.None? || act.value.Close?
      case Some(None) => act.Some? && act.value.Forward? && ReadMessage(act.value.fields) == Stop
      case Some(Some(clip)) => act.Some? && act.value.Forward? && ReadMessage(act.value.fields) == Play(clip)
  {
    hide NumberValue, NumberLength, Fixed2Text, Print;
    var e := EventOf(o).value;
    if e.AudioPlay? {
      ClientReads(e.src, e.hundredths, e.loop);
    } else {
      ClientReads("", 0, false);
    }
  }

  lemma {:induction false} WantedNext(msgs: seq<map<string, Value>>, m: map<string, Value>)
    ensures Wanted(msgs + [m]) == match ReadMessage(m)
      case Play(clip) => Some(clip)
      case Stop => None
      case _ => Wanted(msgs)
  {
    hide ReadMessage;
    assert (msgs + [m])[..|msgs|] == msgs;
  }

  // Reading the player's messages gives the wish of the latest callback.
  lemma {:induction false} MessagesCarryWishes(first: map<string, Value>, os: seq<Source>, player: Uuid)
    requires ReadableSources(os, player)
    requires !ReadMessage(first).Play? && !ReadMessage(first).Stop?
    ensures Wanted([first] + Forwarded(Print(player), TextsOf(os))) == LastWish(os, player)
  {
    var ts := TextsOf(os);
    if os == [] {
      WantedNext([], first);
      assert [first] + Forwarded(Print(player), ts) == [] + [first];
    } else {
      var n := |os| - 1;
      assert TextsOf(os[..n]) == ts[..n];
      MessagesCarryWishes(first, os[..n], player);
      NextWish(first, ts, os[n], player);
    }
  }

  lemma {:induction false} NextWish(first: map<string, Value>, ts: seq<string>, o: Source, player: Uuid)
    requires ts != [] && ts[|ts| - 1] == TextOf(o) && ReadsRight(EventOf(o).value, player)
    ensures Wanted([first] + Forwarded(Print(player), ts)) == match Wish(o, player)
      case Some(wish) => wish
      case None => Wanted([first] + Forwarded(Print(player), ts[..|ts| - 1]))
  {
    hide ReadMessage, Wanted, Translate, ToJson, Print, Wish, Expected;
    var before := [first] + Forwarded(Print(player), ts[..|ts| - 1]);
    TranslatesAsExpected(EventOf(o).value, player);
    WishExpected(o, player);
    var act := Expected(EventOf(o).value, player);
    if act.Some? && act.value.Forward? {
      assert [first] + Forwarded(Print(player), ts) == before + [act.value.fields];
      WantedNext(before, act.value.fields);
    } else {
      assert [first] + Forwarded(Print(player), ts) == before;
    }
  }

  lemma {:induction false} AuthIsNoWish(jwt: string, player: string)
    ensures ReadMessage(AuthFields(jwt, player)) == AuthSuccess(jwt, player)
  {
  }

  // Any first part of the forwarded messages comes from a first part of the channel.
  lemma {:induction false} ForwardedPrefix(player: string, heard: seq<string>, k: nat) returns (n: nat)
    requires k <= |Forwarded(player, heard)|
    ensures n <= |heard| && Forwarded(player, heard[..n]) == Forwarded(player, heard)[..k]
  {
    if k == |Forwarded(player, heard)| {
      n := |heard|;
      assert heard[..n] == heard;
    } else {
      var m := |heard| - 1;
      n := ForwardedPrefix(player, heard[..m], k);
      assert heard[..m][..n] == heard[..n];
    }
  }

  lemma {:induction false} TextsPrefix(frames: seq<Frame>, n: nat)
    requires n <= |frames|
    ensures Texts(frames[..n]) <= Texts(frames)
  {
    if n == |frames| {
      assert frames[..n] == frames;
    } else {
      var m := |frames| - 1;
      TextsPrefix(frames[..m], n);
      assert frames[..m][..n] == frames[..n];
    }
  }

  // In every reachable state of every run, a page whose socket is open wants the
  // player's latest wish of some earlier moment since its session subscribed, and so
  // never another player's clip. (That these moments never go back is in PageHistory.)
  lemma {:induction false} PageFollowsSomePrefix(ls: seq<Label>, id: nat) returns (n: nat)
    requires id in Run(ls).connections
    requires var c := Run(ls).connections[id]; c.start.Some? && c.tab.socket == Listen.Open
    requires var c := Run(ls).connections[id]; ReadableSources(Run(ls).log[c.start.value..], c.player)
    ensures var s := Run(ls);
      var c := s.connections[id];
      && c.start.value + n <= c.cursor <= |s.log|
      && c.tab.page.desired == LastWish(s.log[c.start.value..][..n], c.player)
  {
    var s := Run(ls);
    var c := s.connections[id];
    n := ConnectionFollowsPrefix(s.log, c);
  }

  // The text frames taken so far: none, or the credential and what a first part of the
  // heard messages forwards.
  lemma {:induction false} SeenIsForwarded(log: seq<Source>, c: Connection) returns (n: nat)
    requires Good(log, c) && c.start.Some? && Texts(c.session.frames[..c.received]) != []
    ensures n <= |Payloads(c.inputs)|
    ensures Texts(c.session.frames[..c.received])
         == [AuthFields(c.jwt, Print(c.player))] + Forwarded(Print(c.player), Payloads(c.inputs)[..n])
  {
    var player, first := Print(c.player), AuthFields(c.jwt, Print(c.player));
    n := SeenOfStream(player, first, c.inputs, c.session, c.received);
  }

  lemma {:induction false} SeenOfStream(
    player: string, first: map<string, Value>, inputs: seq<Input>, s: Session, received: nat
  )
    returns (n: nat)
    requires s == Turns(player, Session([TextFrame(first)], true), inputs)
    requires received <= |s.frames| && Texts(s.frames[..received]) != []
    ensures n <= |Payloads(inputs)|
    ensures Texts(s.frames[..received]) == [first] + Forwarded(player, Payloads(inputs)[..n])
  {
    hide *;
    var heard := Payloads(inputs);
    var taken := SessionStream(player, first, inputs);
    StreamFacts(player, first, heard, taken, s);
    var seen, all := Texts(s.frames[..received]), Forwarded(player, heard[..taken]);
    TextsPrefix(s.frames, received);
    assert seen == ([first] + all)[..|seen|];
    n := ForwardedPrefix(player, heard[..taken], |seen| - 1);
    assert ([first] + all)[..|seen|] == [first] + all[..|seen| - 1];
    assert heard[..taken][..n] == heard[..n];
  }

  lemma {:induction false} StreamFacts(
    player: string, first: map<string, Value>, heard: seq<string>, taken: nat, s: Session
  )
    requires StreamOf(player, first, heard, taken, s)
    ensures taken <= |heard| && Texts(s.frames) == [first] + Forwarded(player, heard[..taken])
  {
  }

  // The frames taken are those of the first n messages heard.
  ghost predicate Explains(c: Connection, n: nat)
    requires c.received <= |c.session.frames|
  {
    var seen := Texts(c.session.frames[..c.received]);
    && n <= |Payloads(c.inputs)|
    && if seen == [] then n == 0
       else seen == [AuthFields(c.jwt, Print(c.player))] + Forwarded(Print(c.player), Payloads(c.inputs)[..n])
  }

  lemma {:induction false} ConnectionExplained(log: seq<Source>, c: Connection) returns (n: nat)
    requires Good(log, c) && c.start.Some?
    ensures Explains(c, n)
  {
    n := 0;
    if Texts(c.session.frames[..c.received]) != [] {
      n := SeenIsForwarded(log, c);
    }
  }

  lemma {:induction false} ExplainedWish(log: seq<Source>, c: Connection, n: nat)
    requires Good(log, c) && c.start.Some? && c.tab.socket == Listen.Open && Explains(c, n)
    requires ReadableSources(log[c.start.value..], c.player)
    ensures c.start.value + n <= c.cursor
    ensures c.tab.page.desired == LastWish(log[c.start.value..][..n], c.player)
  {
    var start, first := c.start.value, AuthFields(c.jwt, Print(c.player));
    hide Turns, Print, Listen.Sound, Forwarded, TextsOf, AuthFields, Texts, Payloads;
    if Texts(c.session.frames[..c.received]) != [] {
      AuthIsNoWish(c.jwt, Print(c.player));
      HeardPrefix(log, start, c.cursor, n);
      MessagesCarryWishes(first, log[start..][..n], c.player);
    }
  }

  lemma {:induction false} ConnectionFollowsPrefix(log: seq<Source>, c: Connection) returns (n: nat)
    requires Good(log, c) && c.start.Some? && c.tab.socket == Listen.Open
    requires ReadableSources(log[c.start.value..], c.player)
    ensures c.start.value + n <= c.cursor
    ensures c.tab.page.desired == LastWish(log[c.start.value..][..n], c.player)
  {
    n := ConnectionExplained(log, c);
    ExplainedWish(log, c, n);
  }

  lemma {:induction false} HeardPrefix(log: seq<Source>, start: nat, cursor: nat, n: nat)
    requires start <= cursor <= |log| && n <= cursor - start
    ensures TextsOf(log[start..cursor])[..n] == TextsOf(log[start..][..n])
  {
    hide TextOf;
    assert log[start..][..n] == log[start..cursor][..n];
  }

  // The session is open and has read the whole channel, the browser has taken every
  // frame, and what was published since the subscription can be read.
  ghost predicate Drained(log: seq<Source>, c: Connection) {
    && c.start.Some? && c.session.open && c.tab.socket == Listen.Open
    && c.start.value <= c.cursor == |log| && c.received == |c.session.frames|
    && ReadableSources(log[c.start.value..], c.player)
  }

  // Once the session, still open, has read the whole channel and the browser has taken
  // every frame, the page wants exactly what the player's latest region callback since
  // the subscription asked for; and with audio enabled and no resume outstanding, that
  // clip is the one loaded, with its volume and looping.
  lemma {:induction false} DrainedPageFollowsRegions(ls: seq<Label>, id: nat)
    requires id in Run(ls).connections && Drained(Run(ls).log, Run(ls).connections[id])
    ensures var s := Run(ls);
      var c := s.connections[id];
      var wish := LastWish(s.log[c.start.value..], c.player);
      && c.tab.page.desired == wish
      && (c.tab.mounted && c.tab.page.enabled && c.tab.pending == 0 ==>
            if wish.None? then Listen.Silent(c.tab.page)
            else c.tab.page.active.Some? && c.tab.page.howls[c.tab.page.active.value] == Listen.Howl(wish.value, true))
  {
    var s := Run(ls);
    var c := s.connections[id];
    var since := s.log[c.start.value..];
    var first := AuthFields(c.jwt, Print(c.player));
    var taken := SessionStream(Print(c.player), first, c.inputs);
    assert s.log[c.start.value..c.cursor] == since;
    assert Payloads(c.inputs)[..taken] == TextsOf(since);
    assert c.session.frames[..c.received] == c.session.frames;
    AuthIsNoWish(c.jwt, Print(c.player));
    MessagesCarryWishes(first, since, c.player);
  }
}
