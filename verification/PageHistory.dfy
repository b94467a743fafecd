// What a page wants over time: the wishes it follows never go back.
module PageHistory {
  import opened Options
  import opened Uuids
  import opened Events
  import opened Relay
  import opened Playback
  import Listen

  // ------------------------------------------------------------------
  // A connection in two states of one run
  // ------------------------------------------------------------------

  ghost predicate Later(c: Connection, d: Connection) {
    && d.player == c.player && d.jwt == c.jwt
    && (c.start.Some? ==> d.start == c.start && c.cursor <= d.cursor)
    && c.session.frames <= d.session.frames
    && c.received <= d.received
    && (d.tab.socket == Listen.Open ==> c.tab.socket == Listen.Open)
  }

  lemma {:induction false} TurnGrows(player: string, s: Session, i: Input)
    ensures s.frames <= Turn(player, s, i).frames
  {
    hide Translate;
  }

  lemma {:induction false} SocketCloses(t: Listen.Tab, a: Listen.Act)
    requires Listen.InRange(t.page)
    ensures Listen.Step(t, a).socket == Listen.Open ==> t.socket == Listen.Open
  {
    hide Listen.OnMessage, Listen.Reconcile;
  }

  lemma {:induction false} MoveLater(log: seq<Source>, c: Connection, m: Move)
    requires Listen.InRange(c.tab.page)
    ensures Later(c, MoveOne(log, c, m))
  {
    hide Turn, Listen.Step, ReadMessage, TextOf, HeardIn;
    match m
    case Deliver(sendOk) =>
      if c.cursor < |log| {
        TurnGrows(Print(c.player), c.session, FromChannel(Payload(TextOf(log[c.cursor])), sendOk));
      }
    case Wake(i) => TurnGrows(Print(c.player), c.session, i);
    case TakeFrame =>
      if c.received < |c.session.frames| && c.session.frames[c.received].TextFrame? {
        SocketCloses(c.tab, Listen.Receive(ReadMessage(c.session.frames[c.received].fields)));
      }
    case Browser(act) => SocketCloses(c.tab, act);
    case _ =>
  }

  lemma {:induction false} StepLater(s: System, l: Label, id: nat)
    requires TabsInRange(s) && id in s.connections
    ensures id in Step(s, l).connections && Later(s.connections[id], Step(s, l).connections[id])
    ensures s.log <= Step(s, l).log
  {
    hide MoveOne;
    if l.At? {
      if l.id in s.connections {
        MoveLater(s.log, s.connections[l.id], l.move);
      }
    }
  }

  ghost predicate Continues(s: System, t: System, id: nat) {
    && s.log <= t.log
    && id in s.connections && id in t.connections && Later(s.connections[id], t.connections[id])
  }

  lemma {:induction false} ContinuesStep(s: System, t: System, l: Label, id: nat)
    requires Continues(s, t, id) && TabsInRange(t)
    ensures Continues(s, Step(t, l), id)
  {
    StepLater(t, l, id);
    hide Step;
  }

  lemma {:induction false} RunNext(ls: seq<Label>, l: Label)
    ensures Run(ls + [l]) == Step(Run(ls), l)
  {
    assert (ls + [l])[..|ls + [l]| - 1] == ls;
    assert (ls + [l])[|ls + [l]| - 1] == l;
  }

  lemma {:induction false} RunLater(ls: seq<Label>, more: seq<Label>, id: nat)
    requires id in Run(ls).connections
    ensures Continues(Run(ls), Run(ls + more), id)
    decreases |more|
  {
    hide Run, Step, Later;
    if more == [] {
      assert ls + more == ls;
      hide *;
      Same(Run(ls), id);
    } else {
      var n := |more| - 1;
      var before := ls + more[..n];
      assert ls + more == before + [more[n]];
      hide Continues;
      RunLater(ls, more[..n], id);
      RunNext(before, more[n]);
      ContinuesStep(Run(ls), Run(before), more[n], id);
    }
  }

  lemma {:induction false} Same(s: System, id: nat)
    requires id in s.connections
    ensures Continues(s, s, id)
  {
  }

  // ------------------------------------------------------------------
  // Order
  // ------------------------------------------------------------------

  lemma {:induction false} ForwardedGrows(player: string, heard: seq<string>, m: nat, n: nat)
    requires m <= n <= |heard|
    ensures Forwarded(player, heard[..m]) <= Forwarded(player, heard[..n])
    decreases n
  {
    hide Translate;
    if m < n {
      ForwardedGrows(player, heard, m, n - 1);
      assert heard[..n][..n - 1] == heard[..n - 1];
    }
  }

  lemma {:induction false} HeardGrows(log: seq<Source>, c: Connection, log': seq<Source>, d: Connection)
    requires Good(log, c) && Good(log', d) && Later(c, d) && log <= log' && c.start.Some?
    ensures Payloads(c.inputs) <= Payloads(d.inputs)
  {
    hide TextOf, Turns, Listen.Sound, Wanted, Payloads;
    var start := c.start.value;
    assert log'[start..d.cursor][..c.cursor - start] == log[start..c.cursor];
    assert TextsOf(log'[start..d.cursor])[..c.cursor - start] == TextsOf(log[start..c.cursor]);
  }

  lemma {:induction false} SeenGrows(c: Connection, d: Connection)
    requires Later(c, d) && c.received <= |c.session.frames| && d.received <= |d.session.frames|
    ensures Texts(c.session.frames[..c.received]) <= Texts(d.session.frames[..d.received])
  {
    hide Texts;
    var frames := d.session.frames[..d.received];
    assert frames[..c.received] == c.session.frames[..c.received];
    TextsPrefix(frames, c.received);
  }

  // Of two explanations of what was seen the later need not be the shorter.
  lemma {:induction false} OrderExplained(c: Connection, d: Connection, n0: nat, m: nat) returns (n: nat)
    requires Later(c, d) && c.received <= |c.session.frames| && d.received <= |d.session.frames|
    requires Payloads(c.inputs) <= Payloads(d.inputs)
    requires Explains(c, n0) && Explains(d, m)
    ensures Explains(c, n) && n <= m
  {
    SeenGrows(c, d);
    hide Texts, Payloads, Forwarded, Print, AuthFields;
    n := n0;
    if m < n0 {
      var player, heard := Print(c.player), Payloads(d.inputs);
      ForwardedGrows(player, heard, m, n0);
      assert heard[..n0] == Payloads(c.inputs)[..n0] && heard[..m] == Payloads(c.inputs)[..m];
      n := m;
      SameStart(AuthFields(c.jwt, player), Forwarded(player, heard[..n0]), Forwarded(player, heard[..m]));
    }
  }

  lemma {:induction false} SameStart<T>(first: T, a: seq<T>, b: seq<T>)
    requires [first] + a <= [first] + b && b <= a
    ensures a == b
  {
    assert |a| == |b|;
  }

  // As a run goes on, a page whose socket is still open wants the player's latest wish
  // of moments that never go back: what it wanted after ls is the wish of n messages of
  // the channel since the subscription, what it wants after more the wish of m, and
  // n is at most m.
  lemma {:induction false} PageMovesForward(ls: seq<Label>, more: seq<Label>, id: nat) returns (n: nat, m: nat)
    requires id in Run(ls).connections && Run(ls).connections[id].start.Some?
    requires id in Run(ls + more).connections
    requires var d := Run(ls + more).connections[id];
      && d.tab.socket == Listen.Open && d.start.Some?
      && ReadableSources(Run(ls + more).log[d.start.value..], d.player)
    ensures var s, t := Run(ls), Run(ls + more);
      var c, d := s.connections[id], t.connections[id];
      && s.log <= t.log && d.start == c.start && d.player == c.player
      && n <= m && c.start.value + n <= c.cursor && c.start.value + m <= d.cursor
      && c.tab.page.desired == LastWish(t.log[c.start.value..][..n], c.player)
      && d.tab.page.desired == LastWish(t.log[c.start.value..][..m], c.player)
  {
    var s, t := Run(ls), Run(ls + more);
    var c, d := s.connections[id], t.connections[id];
    RunLater(ls, more, id);
    hide Run;
    n, m := StatesInOrder(s.log, c, t.log, d);
  }

  lemma {:induction false} StatesInOrder(log: seq<Source>, c: Connection, log': seq<Source>, d: Connection)
    returns (n: nat, m: nat)
    requires Good(log, c) && Good(log', d) && Later(c, d) && log <= log' && c.start.Some?
    requires d.tab.socket == Listen.Open && ReadableSources(log'[d.start.value..], d.player)
    ensures n <= m && c.start.value + n <= c.cursor && c.start.value + m <= d.cursor
    ensures c.tab.page.desired == LastWish(log'[c.start.value..][..n], c.player)
    ensures d.tab.page.desired == LastWish(log'[c.start.value..][..m], c.player)
  {
    HeardGrows(log, c, log', d);
    var n0 := ConnectionExplained(log, c);
    m := ConnectionExplained(log', d);
    n := OrderExplained(c, d, n0, m);
    EarlierReadable(log, log', c.start.value, c.player);
    hide Explains, ReadableSources, LastWish, Payloads, TextsOf, Turns, Wanted, Listen.Sound;
    ExplainedWish(log, c, n);
    ExplainedWish(log', d, m);
    SameSince(log, log', c.start.value, n);
  }

  lemma {:induction false} EarlierReadable(log: seq<Source>, log': seq<Source>, start: nat, player: Uuid)
    requires start <= |log| && log <= log' && ReadableSources(log'[start..], player)
    ensures ReadableSources(log[start..], player)
  {
    hide ReadsRight;
    assert forall i :: 0 <= i < |log[start..]| ==> log[start..][i] == log'[start..][i];
  }

  lemma {:induction false} SameSince(log: seq<Source>, log': seq<Source>, start: nat, n: nat)
    requires start + n <= |log| && log <= log'
    ensures log[start..][..n] == log'[start..][..n]
  {
  }
}
