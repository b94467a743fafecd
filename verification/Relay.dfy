// One player session at a relay node: the hand-over of the credential, the
// subscription, and the select loop over browser frames and channel messages.
module Relay {
  import opened Options
  import opened Json
  import opened Events

  datatype Frame =
    | TextFrame(fields: map<string, Value>)
    | Pong(data: string)
    | CloseFrame

  datatype Received = ClosedByPeer | EndOfStream | Ping(data: string) | ReceiveError | OtherFrame

  datatype ChannelItem = Payload(text: string) | NotText | StreamClosed

  // What one turn of the loop is woken by, and whether a send in that turn succeeds.
  datatype Input =
    | FromBrowser(received: Received, sendOk: bool)
    | FromChannel(item: ChannelItem, sendOk: bool)

  datatype Session = Session(frames: seq<Frame>, open: bool)

  function AuthFields(jwt: string, player: string): map<string, Value> {
    map["type" := Str("auth_success"), "jwt" := Str(jwt), "player_uuid" := Str(player)]
  }

  // ------------------------------------------------------------------
  // The loop, on values
  // ------------------------------------------------------------------

  function Send(s: Session, f: Frame, ok: bool): Session {
    if ok then s.(frames := s.frames + [f]) else s.(open := false)
  }

  function Turn(player: string, s: Session, i: Input): Session {
    match i
    case FromBrowser(Ping(data), ok) => Send(s, Pong(data), ok)
    case FromBrowser(OtherFrame, _) => s
    case FromBrowser(_, _) => s.(open := false)
    case FromChannel(StreamClosed, _) => s.(open := false)
    case FromChannel(NotText, _) => s
    case FromChannel(Payload(text), ok) =>
      match Translate(text, player)
      case None => s
      case Some(Forward(fields)) => Send(s, TextFrame(fields), ok)
      case Some(Close) => Send(s, CloseFrame, ok).(open := false)
  }

  function Turns(player: string, s: Session, inputs: seq<Input>): Session {
    if inputs == [] then s
    else
      var before := Turns(player, s, inputs[..|inputs| - 1]);
      if before.open then Turn(player, before, inputs[|inputs| - 1]) else before
  }

  // The whole session on one socket.
  function WholeSession(
    player: string, jwt: string, authOk: bool, subscribed: bool, closeOk: bool, inputs: seq<Input>
  ): Session {
    var auth := [TextFrame(AuthFields(jwt, player))];
    if !authOk then Session([], false)
    else if !subscribed then Session(auth + (if closeOk then [CloseFrame] else []), false)
    else Turns(player, Session(auth, true), inputs)
  }

  // ------------------------------------------------------------------
  // The loop, on a socket
  // ------------------------------------------------------------------

  class WebSocket {
    var sent: seq<Frame>

    method Send(f: Frame, ok: bool)
      modifies this
      ensures sent == if ok then old(sent) + [f] else old(sent)
    {
      if ok {
        sent := sent + [f];
      }
    }
  }

  // Decides by editing the payload's object in place.
  method TranslateEvent(payload: string, player: string) returns (r: Option<Action>)
    ensures r == Translate(payload, player)
  {
    var v := FromStr(payload);
    if v.None? || !v.value.Obj? {
      return None;
    }
    var obj := AsMap(v.value.members);
    if "player_id" !in obj || !obj["player_id"].Str? {
      return None;
    }
    var pid := obj["player_id"].s;
    if pid != player {
      return None;
    }
    if "event" !in obj || !obj["event"].Str? {
      return None;
    }
    var eventType := obj["event"].s;
    if eventType == "player_disconnect" {
      return Some(Close);
    } else if eventType == "audio_play" || eventType == "audio_stop" {
      ghost var was := obj;
      obj := obj - {"event"};
      obj := obj - {"player_id"};
      obj := obj["type" := Str(eventType)];
      assert obj == Renamed(was);
      return Some(Forward(obj));
    } else {
      return None;
    }
  }

  method WsSession(
    socket: WebSocket, player: string, jwt: string,
    authOk: bool, connected: bool, subscribed: bool, closeOk: bool, inputs: seq<Input>
  )
    modifies socket
    ensures socket.sent == old(socket.sent)
      + WholeSession(player, jwt, authOk, connected && subscribed, closeOk, inputs).frames
    ensures !authOk ==> socket.sent == old(socket.sent)
    ensures authOk && !(connected && subscribed) ==>
      socket.sent == old(socket.sent) + [TextFrame(AuthFields(jwt, player))] + (if closeOk then [CloseFrame] else [])
    ensures authOk && connected && subscribed ==>
      socket.sent
      == old(socket.sent) + Turns(player, Session([TextFrame(AuthFields(jwt, player))], true), inputs).frames
  {
    hide Translate;
    socket.Send(TextFrame(AuthFields(jwt, player)), authOk);
    if !authOk {
      return;
    }
    if !connected {
      socket.Send(CloseFrame, closeOk);
      return;
    }
    if !subscribed {
      socket.Send(CloseFrame, closeOk);
      return;
    }
    ghost var start := Session([TextFrame(AuthFields(jwt, player))], true);
    var i := 0;
    while i < |inputs|
      invariant 0 <= i <= |inputs|
      invariant Turns(player, start, inputs[..i]).open
      invariant socket.sent == old(socket.sent) + Turns(player, start, inputs[..i]).frames
    {
      assert inputs[..i + 1][..i] == inputs[..i];
      ghost var next := Turns(player, start, inputs[..i + 1]);
      ClosedStaysClosed(player, start, inputs, i + 1);
      match inputs[i] {
        case FromBrowser(ClosedByPeer, _) => break;
        case FromBrowser(EndOfStream, _) => break;
        case FromBrowser(Ping(data), ok) =>
          socket.Send(Pong(data), ok);
          if !ok {
            break;
          }
        case FromBrowser(ReceiveError, _) => break;
        case FromBrowser(OtherFrame, _) =>
        case FromChannel(StreamClosed, _) => break;
        case FromChannel(NotText, _) =>
        case FromChannel(Payload(text), ok) =>
          var action := TranslateEvent(text, player);
          match action {
            case Some(Forward(fields)) =>
              socket.Send(TextFrame(fields), ok);
              if !ok {
                break;
              }
            case Some(Close) =>
              socket.Send(CloseFrame, ok);
              break;
            case None =>
          }
      }
      i := i + 1;
    }
    assert i == |inputs| ==> inputs[..i] == inputs;
  }

  lemma {:induction false} ClosedStaysClosed(player: string, s: Session, inputs: seq<Input>, n: nat)
    requires n <= |inputs|
    ensures !Turns(player, s, inputs[..n]).open
      ==> Turns(player, s, inputs) == Turns(player, s, inputs[..n])
    decreases |inputs|
  {
    if n < |inputs| {
      var shorter := inputs[..|inputs| - 1];
      assert shorter[..n] == inputs[..n];
      ClosedStaysClosed(player, s, shorter, n);
    } else {
      assert inputs[..n] == inputs;
    }
  }

  // ------------------------------------------------------------------
  // What the browser is sent
  // ------------------------------------------------------------------

  function HeardIn(i: Input): seq<string> {
    if i.FromChannel? && i.item.Payload? then [i.item.text] else []
  }

  function Payloads(inputs: seq<Input>): seq<string> {
    if inputs == [] then []
    else Payloads(inputs[..|inputs| - 1]) + HeardIn(inputs[|inputs| - 1])
  }

  function Pings(inputs: seq<Input>): seq<string> {
    if inputs == [] then []
    else
      var i := inputs[|inputs| - 1];
      Pings(inputs[..|inputs| - 1])
        + if i.FromBrowser? && i.received.Ping? then [i.received.data] else []
  }

  function Texts(frames: seq<Frame>): seq<map<string, Value>> {
    if frames == [] then []
    else
      var f := frames[|frames| - 1];
      Texts(frames[..|frames| - 1]) + if f.TextFrame? then [f.fields] else []
  }

  function Pongs(frames: seq<Frame>): seq<string> {
    if frames == [] then []
    else
      var f := frames[|frames| - 1];
      Pongs(frames[..|frames| - 1]) + if f.Pong? then [f.data] else []
  }

  // The messages meant for the player, rewritten, in channel order.
  function Forwarded(player: string, payloads: seq<string>): seq<map<string, Value>> {
    if payloads == [] then []
    else
      var last := Translate(payloads[|payloads| - 1], player);
      Forwarded(player, payloads[..|payloads| - 1])
        + if last.Some? && last.value.Forward? then [last.value.fields] else []
  }

  ghost predicate NoDisconnect(player: string, payloads: seq<string>) {
    forall i :: 0 <= i < |payloads| ==> Translate(payloads[i], player) != Some(Close)
  }

  ghost predicate NoClose(frames: seq<Frame>) {
    forall i :: 0 <= i < |frames| ==> !frames[i].CloseFrame?
  }

  // The session after `taken` of the heard payloads.
  ghost predicate StreamOf(player: string, first: map<string, Value>, heard: seq<string>, taken: nat, s: Session) {
    && taken <= |heard|
    && Texts(s.frames) == [first] + Forwarded(player, heard[..taken])
    && NoDisconnect(player, heard[..taken])
    && (s.open ==> taken == |heard| && NoClose(s.frames))
    && (!s.open && s.frames != [] && !NoClose(s.frames) ==>
          && taken < |heard| && Translate(heard[taken], player) == Some(Close)
          && s.frames[|s.frames| - 1].CloseFrame?
          && NoClose(s.frames[..|s.frames| - 1]))
  }

  lemma {:induction false} StreamQuiet(
    player: string, first: map<string, Value>, heard: seq<string>, s: Session, s': Session
  )
    requires StreamOf(player, first, heard, |heard|, s) && s.open
    requires s'.frames == s.frames || (exists data :: s'.frames == s.frames + [Pong(data)])
    ensures StreamOf(player, first, heard, |heard|, s')
  {
    Grow(s.frames, s'.frames);
  }

  lemma {:induction false} StreamPayload(
    player: string, first: map<string, Value>, heard: seq<string>, s: Session, text: string, ok: bool
  )
    returns (taken: nat)
    requires StreamOf(player, first, heard, |heard|, s) && s.open
    ensures StreamOf(player, first, heard + [text], taken, Turn(player, s, FromChannel(Payload(text), ok)))
  {
    hide Translate;
    var s' := Turn(player, s, FromChannel(Payload(text), ok));
    var heard' := heard + [text];
    Grow(s.frames, s'.frames);
    assert heard[..|heard|] == heard;
    assert heard'[..|heard|] == heard && heard'[..|heard'| - 1] == heard && heard'[..|heard'|] == heard';
    taken := if s'.open then |heard'| else |heard|;
  }

  lemma {:induction false} StreamFrozen(
    player: string, first: map<string, Value>, heard: seq<string>, taken: nat, s: Session, more: seq<string>
  )
    requires StreamOf(player, first, heard, taken, s) && !s.open
    ensures StreamOf(player, first, heard + more, taken, s)
  {
    assert (heard + more)[..taken] == heard[..taken];
  }

  lemma {:induction false} StreamTurn(
    player: string, first: map<string, Value>, heard: seq<string>, taken: nat, s: Session, i: Input
  )
    returns (taken': nat)
    requires StreamOf(player, first, heard, taken, s)
    ensures StreamOf(player, first, heard + HeardIn(i), taken', if s.open then Turn(player, s, i) else s)
  {
    taken' := taken;
    if !s.open {
      StreamFrozen(player, first, heard, taken, s, HeardIn(i));
    } else if i.FromChannel? && i.item.Payload? {
      taken' := StreamPayload(player, first, heard, s, i.item.text, i.sendOk);
    } else {
      assert heard + HeardIn(i) == heard;
      StreamQuiet(player, first, heard, s, Turn(player, s, i));
    }
  }

  // At every point of every session the text frames are the credential followed by
  // exactly the player's messages among the first payloads heard: in order, none
  // missing, none twice, none from beyond the player's disconnect. A close frame is
  // sent for that disconnect only, and is the last frame.
  lemma {:induction false} SessionStream(player: string, first: map<string, Value>, inputs: seq<Input>)
    returns (taken: nat)
    ensures StreamOf(player, first, Payloads(inputs), taken, Turns(player, Session([TextFrame(first)], true), inputs))
    decreases |inputs|
  {
    var start := Session([TextFrame(first)], true);
    if inputs == [] {
      taken := 0;
      assert Texts([TextFrame(first)][..0]) == [];
    } else {
      var shorter, i := inputs[..|inputs| - 1], inputs[|inputs| - 1];
      taken := SessionStream(player, first, shorter);
      taken := StreamTurn(player, first, Payloads(shorter), taken, Turns(player, start, shorter), i);
    }
  }

  lemma {:induction false} Grow(before: seq<Frame>, after: seq<Frame>)
    requires before <= after && |after| <= |before| + 1
    ensures |after| == |before| + 1 ==> after[..|after| - 1] == before
    ensures after == before || after == before + [after[|after| - 1]]
  {
    assert after == before + after[|before|..];
  }

  // While the session is open every ping has had its pong, in order.
  lemma {:induction false} PingsAnswered(player: string, first: map<string, Value>, inputs: seq<Input>)
    requires Turns(player, Session([TextFrame(first)], true), inputs).open
    ensures Pongs(Turns(player, Session([TextFrame(first)], true), inputs).frames) == Pings(inputs)
    decreases |inputs|
  {
    hide Translate;
    var start := Session([TextFrame(first)], true);
    if inputs == [] {
      assert Pongs([TextFrame(first)][..0]) == [];
    } else {
      var shorter := inputs[..|inputs| - 1];
      PingsAnswered(player, first, shorter);
      var s := Turns(player, start, shorter);
      Grow(s.frames, Turns(player, start, inputs).frames);
    }
  }

  // ------------------------------------------------------------------
  // When a session ends
  // ------------------------------------------------------------------

  // What ends a session: the browser gone, the channel gone, a send that fails, and the
  // player's own disconnect. Everything else is answered or passed over.
  predicate Stops(player: string, i: Input) {
    match i
    case FromBrowser(ClosedByPeer, _) => true
    case FromBrowser(EndOfStream, _) => true
    case FromBrowser(ReceiveError, _) => true
    case FromBrowser(Ping(_), sendOk) => !sendOk
    case FromBrowser(OtherFrame, _) => false
    case FromChannel(StreamClosed, _) => true
    case FromChannel(NotText, _) => false
    case FromChannel(Payload(text), sendOk) =>
      match Translate(text, player)
      case None => false
      case Some(Close) => true
      case Some(Forward(_)) => !sendOk
  }

  lemma {:induction false} TurnOpen(player: string, s: Session, i: Input)
    requires s.open
    ensures Turn(player, s, i).open <==> !Stops(player, i)
  {
    hide Translate;
  }

  // A session is open exactly while nothing that ends one has happened.
  lemma {:induction false} OpenExactly(player: string, first: map<string, Value>, inputs: seq<Input>)
    ensures Turns(player, Session([TextFrame(first)], true), inputs).open
       <==> forall i :: 0 <= i < |inputs| ==> !Stops(player, inputs[i])
  {
    if inputs != [] {
      var n := |inputs| - 1;
      var start := Session([TextFrame(first)], true);
      OpenExactly(player, first, inputs[..n]);
      if Turns(player, start, inputs[..n]).open {
        TurnOpen(player, Turns(player, start, inputs[..n]), inputs[n]);
      }
      hide Turn, Stops;
      assert forall i :: 0 <= i < n ==> inputs[..n][i] == inputs[i];
    }
  }

  predicate Disconnects(player: string, i: Input) {
    i.FromChannel? && i.item.Payload? && Translate(i.item.text, player) == Some(Close)
  }

  lemma {:induction false} LastTurn(player: string, s: Session, i: Input)
    requires s.open && Stops(player, i)
    ensures Turn(player, s, i).frames
         == s.frames + if Disconnects(player, i) && i.sendOk then [CloseFrame] else []
  {
    hide Translate;
  }

  // The frames of a whole session, from those of the inputs before the first that ends it.
  lemma {:induction false} EndOfSession(player: string, first: map<string, Value>, inputs: seq<Input>, k: nat)
    requires k < |inputs| && forall i :: 0 <= i < k ==> !Stops(player, inputs[i])
    requires Stops(player, inputs[k])
    ensures var start := Session([TextFrame(first)], true);
      Turns(player, start, inputs).frames == Turns(player, start, inputs[..k]).frames
        + if Disconnects(player, inputs[k]) && inputs[k].sendOk then [CloseFrame] else []
  {
    var start := Session([TextFrame(first)], true);
    var before, upto := inputs[..k], inputs[..k + 1];
    assert upto[..k] == before && upto[k] == inputs[k];
    OpenExactly(player, first, before);
    OpenExactly(player, first, upto);
    LastTurn(player, Turns(player, start, before), inputs[k]);
    TurnOpen(player, Turns(player, start, before), inputs[k]);
    hide Turn, Stops, Disconnects;
    ClosedStaysClosed(player, start, inputs, k + 1);
  }

  // Everything a session sends, up to the k inputs before the first that ends it: the
  // credential and all the player's messages, a pong for every ping, and then a close
  // frame exactly if what ended it was the player's disconnect.
  lemma {:induction false} SessionExactly(player: string, first: map<string, Value>, inputs: seq<Input>, k: nat)
    returns (sent: seq<Frame>)
    requires k <= |inputs| && forall i :: 0 <= i < k ==> !Stops(player, inputs[i])
    requires k < |inputs| ==> Stops(player, inputs[k])
    ensures var closed := k < |inputs| && Disconnects(player, inputs[k]) && inputs[k].sendOk;
      Turns(player, Session([TextFrame(first)], true), inputs).frames == sent + if closed then [CloseFrame] else []
    ensures NoClose(sent)
    ensures Texts(sent) == [first] + Forwarded(player, Payloads(inputs[..k]))
    ensures Pongs(sent) == Pings(inputs[..k])
  {
    hide Turn, Turns, Stops, Disconnects, Texts, Pongs, Pings, Payloads, Forwarded, NoClose;
    var before := inputs[..k];
    var s := Turns(player, Session([TextFrame(first)], true), before);
    assert s.open by {
      OpenExactly(player, first, before);
    }
    var taken := SessionStream(player, first, before);
    PingsAnswered(player, first, before);
    OpenStream(player, first, Payloads(before), taken, s);
    sent := s.frames;
    if k < |inputs| {
      EndOfSession(player, first, inputs, k);
    } else {
      assert before == inputs;
    }
  }

  lemma {:induction false} OpenStream(
    player: string, first: map<string, Value>, heard: seq<string>, taken: nat, s: Session
  )
    requires StreamOf(player, first, heard, taken, s) && s.open
    ensures Texts(s.frames) == [first] + Forwarded(player, heard) && NoClose(s.frames) && s.frames != []
  {
    assert heard[..|heard|] == heard;
    assert s.frames == [] ==> Texts(s.frames) == [];
  }
}
