// The admin WebSocket on one relay node: the recent events oldest first, a sentinel,
// then every channel message as it is.
module AdminSession {
  import opened Options
  import opened Sequences
  import opened RedisServer
  import opened Relay
  import opened Feed

  type Frame = AdminFrame<string>

  // A socket that takes a number of frames and then breaks.
  class AdminSocket {
    var sent: seq<Frame>
    const budget: nat

    constructor (budget: nat)
      ensures sent == [] && this.budget == budget
    {
      sent := [];
      this.budget := budget;
    }

    method Send(f: Frame) returns (ok: bool)
      modifies this
      ensures ok <==> |old(sent)| < budget
      ensures sent == if ok then old(sent) + [f] else old(sent)
    {
      ok := |sent| < budget;
      if ok {
        sent := sent + [f];
      }
    }
  }

  predicate Ends(i: Input) {
    match i
    case FromBrowser(ClosedByPeer, _) => true
    case FromBrowser(EndOfStream, _) => true
    case FromBrowser(ReceiveError, _) => true
    case FromChannel(StreamClosed, _) => true
    case _ => false
  }

  function Answer(i: Input): seq<Frame> {
    match i
    case FromBrowser(Ping(data), _) => [AdminPong(data)]
    case FromChannel(Payload(text), _) => [Event(text)]
    case _ => []
  }

  function LoopFrames(inputs: seq<Input>): seq<Frame> {
    if inputs == [] || Ends(inputs[0]) then [] else Answer(inputs[0]) + LoopFrames(inputs[1..])
  }

  // What the session sends on a socket that never breaks.
  function Unbroken(list: Option<seq<string>>, subscribed: bool, inputs: seq<Input>): seq<Frame> {
    (if list.Some? then Sends(Reverse(list.value)) else [])
      + [HistoryEnd]
      + if subscribed then LoopFrames(inputs) else [AdminClose]
  }

  function Take(fs: seq<Frame>, n: nat): seq<Frame> {
    if |fs| <= n then fs else fs[..n]
  }

  method Replay(socket: AdminSocket, history: seq<string>) returns (ok: bool)
    requires socket.sent == []
    modifies socket
    ensures socket.sent == Take(Sends(history) + [HistoryEnd], socket.budget)
    ensures ok <==> |history| + 1 <= socket.budget
  {
    ghost var fs := Sends(history);
    for i := 0 to |history|
      invariant socket.sent == fs[..i] && i <= socket.budget
    {
      ok := socket.Send(Event(history[i]));
      if !ok {
        return;
      }
    }
    ok := socket.Send(HistoryEnd);
  }

  lemma {:induction false} TakeMore(a: seq<Frame>, b: seq<Frame>, n: nat)
    ensures |a| > n ==> Take(a + b, n) == Take(a, n)
  {
  }

  // A failed LRANGE leaves nothing to replay.
  method AdminWsSession(
    socket: AdminSocket, redis: Redis, rangeOk: bool, connected: bool, subscribed: bool, inputs: seq<Input>
  )
    requires socket.sent == []
    modifies socket
    ensures socket.sent
         == Take(Unbroken(if rangeOk then Some(redis.recent) else None, connected && subscribed, inputs), socket.budget)
  {
    ghost var list := if rangeOk then Some(redis.recent) else None;
    var history := [];
    if rangeOk {
      var recent := redis.Lrange();
      history := Reverse(recent);
    }
    ghost var start := Sends(history) + [HistoryEnd];
    ghost var rest := if connected && subscribed then LoopFrames(inputs) else [AdminClose];
    assert Unbroken(list, connected && subscribed, inputs) == start + rest;
    hide Sends, LoopFrames, Reverse, Unbroken;
    TakeMore(start, rest, socket.budget);
    var ok := Replay(socket, history);
    if !ok {
      return;
    }
    if !connected {
      ok := socket.Send(AdminClose);
      return;
    }
    if !subscribed {
      ok := socket.Send(AdminClose);
      return;
    }
    SelectLoop(socket, inputs);
  }

  lemma {:induction false} TakeAfter(sent: seq<Frame>, fs: seq<Frame>, n: nat)
    requires |sent| <= n
    ensures fs == [] ==> Take(sent + fs, n) == sent
    ensures fs != [] && |sent| == n ==> Take(sent + fs, n) == sent
  {
  }

  method SelectLoop(socket: AdminSocket, inputs: seq<Input>)
    requires |socket.sent| <= socket.budget
    modifies socket
    ensures socket.sent == Take(old(socket.sent) + LoopFrames(inputs), socket.budget)
  {
    ghost var all := old(socket.sent) + LoopFrames(inputs);
    var i := 0;
    while i < |inputs|
      invariant 0 <= i <= |inputs|
      invariant |socket.sent| <= socket.budget
      invariant all == socket.sent + LoopFrames(inputs[i..])
    {
      assert inputs[i..][1..] == inputs[i + 1..];
      ghost var rest := LoopFrames(inputs[i + 1..]);
      assert LoopFrames(inputs[i..]) == if Ends(inputs[i]) then [] else Answer(inputs[i]) + rest;
      hide LoopFrames;
      TakeAfter(socket.sent, if Ends(inputs[i]) then [] else Answer(inputs[i]) + rest, socket.budget);
      assert |socket.sent| < socket.budget ==> forall f :: socket.sent + ([f] + rest) == socket.sent + [f] + rest;
      assert [] + rest == rest;
      match inputs[i] {
        case FromBrowser(ClosedByPeer, _) => break;
        case FromBrowser(EndOfStream, _) => break;
        case FromBrowser(Ping(data), _) =>
          var ok := socket.Send(AdminPong(data));
          if !ok {
            break;
          }
        case FromBrowser(ReceiveError, _) => break;
        case FromBrowser(OtherFrame, _) =>
        case FromChannel(StreamClosed, _) => break;
        case FromChannel(NotText, _) =>
        case FromChannel(Payload(text), _) =>
          var ok := socket.Send(Event(text));
          if !ok {
            break;
          }
      }
      i := i + 1;
    }
    TakeAfter(socket.sent, LoopFrames(inputs[i..]), socket.budget);
  }

  // ------------------------------------------------------------------
  // What the portal is shown
  // ------------------------------------------------------------------

  function WithoutPongs(fs: seq<Frame>): seq<Frame> {
    if fs == [] then []
    else (if fs[0].AdminPong? then [] else [fs[0]]) + WithoutPongs(fs[1..])
  }

  lemma {:induction false} WithoutPongsAppend(a: seq<Frame>, b: seq<Frame>)
    ensures WithoutPongs(a + b) == WithoutPongs(a) + WithoutPongs(b)
  {
    if a == [] {
      assert a + b == b;
    } else {
      assert (a + b)[1..] == a[1..] + b;
      WithoutPongsAppend(a[1..], b);
    }
  }

  lemma {:induction false} NoPongs(fs: seq<Frame>)
    requires forall i :: 0 <= i < |fs| ==> !fs[i].AdminPong?
    ensures WithoutPongs(fs) == fs
  {
    if fs != [] {
      NoPongs(fs[1..]);
    }
  }

  function ChannelTexts(inputs: seq<Input>): seq<string> {
    if inputs == [] then [] else HeardIn(inputs[0]) + ChannelTexts(inputs[1..])
  }

  lemma {:induction false} AnswerShows(i: Input)
    ensures WithoutPongs(Answer(i)) == Sends(HeardIn(i))
  {
    assert Answer(i) != [] ==> Answer(i)[1..] == [];
  }

  lemma {:induction false} LoopShows(inputs: seq<Input>)
    requires forall i :: 0 <= i < |inputs| ==> !Ends(inputs[i])
    ensures WithoutPongs(LoopFrames(inputs)) == Sends(ChannelTexts(inputs))
  {
    if inputs != [] {
      LoopShows(inputs[1..]);
      AnswerShows(inputs[0]);
      hide Answer, HeardIn, WithoutPongs, Ends;
      WithoutPongsAppend(Answer(inputs[0]), LoopFrames(inputs[1..]));
    }
  }

  // On an unbroken socket and while nothing ended the session, the portal is sent the
  // list oldest first, the sentinel, and, pongs aside, every channel message in order.
  lemma {:induction false} PortalHears(list: seq<string>, inputs: seq<Input>)
    requires forall i :: 0 <= i < |inputs| ==> !Ends(inputs[i])
    ensures var fs, n := Unbroken(Some(list), true, inputs), |list|;
      && |fs| > n && fs[..n] == Sends(Reverse(list)) && fs[n] == HistoryEnd
      && WithoutPongs(fs[n + 1..]) == Sends(ChannelTexts(inputs))
  {
    var fs, n := Unbroken(Some(list), true, inputs), |list|;
    assert fs[n + 1..] == LoopFrames(inputs);
    LoopShows(inputs);
  }

  // ------------------------------------------------------------------
  // What the loop does with each input
  // ------------------------------------------------------------------

  // The browser gone, or the channel gone.
  predicate CutsOff(i: Input) {
    || (i.FromBrowser? && (i.received == ClosedByPeer || i.received == EndOfStream || i.received == ReceiveError))
    || (i.FromChannel? && i.item == StreamClosed)
  }

  function PongTexts(fs: seq<Frame>): seq<string> {
    if fs == [] then []
    else (if fs[0].AdminPong? then [fs[0].data] else []) + PongTexts(fs[1..])
  }

  function PingTexts(inputs: seq<Input>): seq<string> {
    if inputs == [] then []
    else
      (if inputs[0].FromBrowser? && inputs[0].received.Ping? then [inputs[0].received.data] else [])
        + PingTexts(inputs[1..])
  }

  function PayloadTexts(inputs: seq<Input>): seq<string> {
    if inputs == [] then []
    else
      (if inputs[0].FromChannel? && inputs[0].item.Payload? then [inputs[0].item.text] else [])
        + PayloadTexts(inputs[1..])
  }

  lemma {:induction false} PongTextsAppend(a: seq<Frame>, b: seq<Frame>)
    ensures PongTexts(a + b) == PongTexts(a) + PongTexts(b)
  {
    if a == [] {
      assert a + b == b;
    } else {
      assert (a + b)[1..] == a[1..] + b;
      PongTextsAppend(a[1..], b);
    }
  }

  lemma {:induction false} AnswerExactly(i: Input)
    ensures Ends(i) <==> CutsOff(i)
    ensures WithoutPongs(Answer(i)) == Sends(if i.FromChannel? && i.item.Payload? then [i.item.text] else [])
    ensures PongTexts(Answer(i)) == if i.FromBrowser? && i.received.Ping? then [i.received.data] else []
  {
    assert Answer(i) != [] ==> Answer(i)[1..] == [];
  }

  lemma {:induction false} LoopNext(inputs: seq<Input>)
    requires inputs != [] && !CutsOff(inputs[0])
    ensures PongTexts(LoopFrames(inputs)) == PongTexts(Answer(inputs[0])) + PongTexts(LoopFrames(inputs[1..]))
    ensures WithoutPongs(LoopFrames(inputs)) == WithoutPongs(Answer(inputs[0])) + WithoutPongs(LoopFrames(inputs[1..]))
  {
    AnswerExactly(inputs[0]);
    WithoutPongsAppend(Answer(inputs[0]), LoopFrames(inputs[1..]));
    PongTextsAppend(Answer(inputs[0]), LoopFrames(inputs[1..]));
    hide Answer, Ends, CutsOff, WithoutPongs, PongTexts;
  }

  lemma {:induction false} HeardNext(inputs: seq<Input>, k: nat)
    requires 0 < k <= |inputs|
    ensures var i, rest := inputs[0], inputs[1..][..k - 1];
      && PingTexts(inputs[..k])
         == (if i.FromBrowser? && i.received.Ping? then [i.received.data] else []) + PingTexts(rest)
      && Sends(PayloadTexts(inputs[..k]))
         == Sends(if i.FromChannel? && i.item.Payload? then [i.item.text] else []) + Sends(PayloadTexts(rest))
  {
    assert inputs[..k][1..] == inputs[1..][..k - 1];
  }

  // Up to the k inputs before the first that cuts it off, the loop answers every ping
  // with its pong and sends every payload as an event, each kind in order; and after
  // that nothing.
  lemma {:induction false} LoopExactly(inputs: seq<Input>, k: nat)
    requires k <= |inputs| && forall i :: 0 <= i < k ==> !CutsOff(inputs[i])
    requires k < |inputs| ==> CutsOff(inputs[k])
    ensures PongTexts(LoopFrames(inputs)) == PingTexts(inputs[..k])
    ensures WithoutPongs(LoopFrames(inputs)) == Sends(PayloadTexts(inputs[..k]))
    decreases k
  {
    if k > 0 {
      LoopExactly(inputs[1..], k - 1);
      LoopNext(inputs);
      AnswerExactly(inputs[0]);
      hide LoopFrames, Answer, Ends, CutsOff, WithoutPongs, PongTexts, PingTexts, PayloadTexts, Sends;
      HeardNext(inputs, k);
    } else {
      assert inputs[..k] == [];
      if inputs != [] {
        AnswerExactly(inputs[0]);
      }
    }
  }

  // The frames around the loop: without a list only the sentinel comes before it, and
  // without a subscription a close frame takes its place.
  lemma {:induction false} AroundTheLoop(list: seq<string>, inputs: seq<Input>)
    ensures Unbroken(None, true, inputs) == [HistoryEnd] + LoopFrames(inputs)
    ensures Unbroken(None, false, inputs) == [HistoryEnd, AdminClose]
    ensures Unbroken(Some(list), false, inputs) == Sends(Reverse(list)) + [HistoryEnd, AdminClose]
    ensures Unbroken(Some(list), true, inputs) == Sends(Reverse(list)) + [HistoryEnd] + LoopFrames(inputs)
  {
    hide LoopFrames, Sends, Reverse;
  }

  // ------------------------------------------------------------------
  // The feed's state machine sends the same
  // ------------------------------------------------------------------

  ghost predicate SentWithin(channel: seq<string>, fs: seq<Sent>) {
    forall i :: 0 <= i < |fs| && fs[i].Event? ==> fs[i].item < |channel|
  }

  // An occurrence is sent as its text.
  function InText(channel: seq<string>, f: Sent): Frame
    requires f.Event? ==> f.item < |channel|
  {
    match f
    case Event(o) => Event(channel[o])
    case HistoryEnd => HistoryEnd
    case AdminPong(data) => AdminPong(data)
    case AdminClose => AdminClose
  }

  function InTexts(channel: seq<string>, fs: seq<Sent>): (ts: seq<Frame>)
    requires SentWithin(channel, fs)
    ensures |ts| == |fs| && forall i :: 0 <= i < |fs| ==> ts[i] == InText(channel, fs[i])
  {
    seq(|fs|, i requires 0 <= i < |fs| => InText(channel, fs[i]))
  }

  lemma {:induction false} InTextsAppend(channel: seq<string>, a: seq<Sent>, b: seq<Sent>)
    requires SentWithin(channel, a) && SentWithin(channel, b)
    ensures SentWithin(channel, a + b) && InTexts(channel, a + b) == InTexts(channel, a) + InTexts(channel, b)
  {
  }

  lemma {:induction false} InTextsOfSends(channel: seq<string>, xs: seq<nat>)
    requires Within(channel, xs)
    ensures SentWithin(channel, Sends(xs)) && InTexts(channel, Sends(xs)) == Sends(TextsAt(channel, xs))
  {
  }

  lemma {:induction false} TextsReversed(channel: seq<string>, list: seq<nat>)
    requires Within(channel, list)
    ensures Within(channel, Reverse(list)) && TextsAt(channel, Reverse(list)) == Reverse(TextsAt(channel, list))
  {
  }

  lemma {:induction false} TextsOfInterval(channel: seq<string>, start: nat, upto: nat)
    requires start <= upto <= |channel|
    ensures Within(channel, Interval(start, upto))
    ensures TextsAt(channel, Interval(start, upto)) == channel[start..upto]
  {
  }

  lemma {:induction false} WholeFeedInText(channel: seq<string>, list: seq<nat>, start: nat, upto: nat)
    requires start <= upto <= |channel| && Within(channel, list)
    ensures var fs := WholeFeed(Reverse(list), start, upto);
      && SentWithin(channel, fs)
      && InTexts(channel, fs) == Sends(Reverse(TextsAt(channel, list))) + [HistoryEnd] + Sends(channel[start..upto])
  {
    TextsReversed(channel, list);
    TextsOfInterval(channel, start, upto);
    hide TextsAt, Reverse, Interval;
    var replay, live := Sends(Reverse(list)), Sends(Interval(start, upto));
    InTextsOfSends(channel, Reverse(list));
    InTextsOfSends(channel, Interval(start, upto));
    hide Within;
    assert InTexts(channel, [HistoryEnd]) == [HistoryEnd];
    hide SentWithin, Sends, InTexts;
    assert SentWithin(channel, [HistoryEnd]);
    InTextsAppend(channel, replay, [HistoryEnd]);
    InTextsAppend(channel, replay + [HistoryEnd], live);
  }

  // What a session shows while nothing ended it: replay, sentinel, what it heard.
  lemma {:induction false} SessionShows(list: seq<string>, inputs: seq<Input>)
    requires forall i :: 0 <= i < |inputs| ==> !Ends(inputs[i])
    ensures WithoutPongs(Unbroken(Some(list), true, inputs))
         == Sends(Reverse(list)) + [HistoryEnd] + Sends(ChannelTexts(inputs))
  {
    var replay: seq<Frame> := Sends(Reverse(list)) + [HistoryEnd];
    NoPongs(replay);
    LoopShows(inputs);
    hide Sends, LoopFrames, ChannelTexts, WithoutPongs, Ends;
    WithoutPongsAppend(replay, LoopFrames(inputs));
  }

  // A whole feed, occurrence by occurrence, is what the session shows for the same list
  // and the channel window it heard.
  lemma {:induction false} FeedIsSession(
    channel: seq<string>, list: seq<nat>, start: nat, upto: nat, inputs: seq<Input>
  )
    requires start <= upto <= |channel| && Within(channel, list)
    requires forall i :: 0 <= i < |inputs| ==> !Ends(inputs[i])
    requires ChannelTexts(inputs) == channel[start..upto]
    ensures SentWithin(channel, WholeFeed(Reverse(list), start, upto))
    ensures InTexts(channel, WholeFeed(Reverse(list), start, upto))
         == WithoutPongs(Unbroken(Some(TextsAt(channel, list)), true, inputs))
  {
    hide *;
    WholeFeedInText(channel, list, start, upto);
    SessionShows(TextsAt(channel, list), inputs);
  }

  // So in every run a live session of the state machine has sent what the handler's
  // session shows, for the list it read and the messages it heard.
  lemma {:induction false} LiveFeedIsSession(ls: seq<Label>, aid: nat, inputs: seq<Input>)
    requires aid in Run(ls).admins && Run(ls).admins[aid].phase.Live?
    requires forall i :: 0 <= i < |inputs| ==> !Ends(inputs[i])
    requires var s := Run(ls);
      var a := s.admins[aid];
      a.start.Some? && a.start.value <= a.phase.cursor <= |s.channel|
      ==> ChannelTexts(inputs) == s.channel[a.start.value..a.phase.cursor]
    ensures var s := Run(ls);
      var a := s.admins[aid];
      && SentWithin(s.channel, a.sent) && Within(s.channel, Reverse(a.history))
      && InTexts(s.channel, a.sent)
         == WithoutPongs(Unbroken(Some(TextsAt(s.channel, Reverse(a.history))), true, inputs))
  {
    LiveSession(ls, aid);
    var s := Run(ls);
    var a := s.admins[aid];
    hide Run, WithoutPongs, Unbroken, ChannelTexts, WholeFeed, Ends;
    TextsReversed(s.channel, a.history);
    ReverseTwice(a.history);
    hide Reverse;
    FeedIsSession(s.channel, Reverse(a.history), a.start.value, a.phase.cursor, inputs);
  }
}
