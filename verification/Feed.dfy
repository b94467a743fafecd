// The recent-events list and the admin feed. A publisher issues PUBLISH, LPUSH and
// LTRIM as three commands; an admin session reads the list, then subscribes. Any
// number of both interleave.
module Feed {
  import opened Options
  import opened Sequences
  import opened RedisServer

  const CAP: nat := 200

  // ------------------------------------------------------------------
  // The system. An occurrence is identified by its position in the channel.
  // ------------------------------------------------------------------

  datatype Publisher = Idle | Published(occurrence: nat) | Pushed

  // What an admin session sends. HistoryEnd is the fixed sentinel message.
  datatype AdminFrame<+T> = Event(item: T) | HistoryEnd | AdminPong(data: string) | AdminClose

  type Sent = AdminFrame<nat>

  datatype Phase =
    | Replaying(left: seq<nat>)    // history still to send, oldest first
    | Replayed                     // sentinel sent
    | Live(cursor: nat)
    | Over

  datatype Admin = Admin(
    phase: Phase, sent: seq<Sent>,
    history: seq<nat>,             // what LRANGE gave, oldest first
    start: Option<nat>)            // channel length at SUBSCRIBE

  datatype State = State(
    channel: seq<string>,
    list: seq<nat>,                // audio:recent-events, newest first
    pushed: seq<nat>,              // every LPUSH so far
    lost: nat,                     // failures between LPUSH and LTRIM since the last LTRIM
    publishers: map<nat, Publisher>,
    admins: map<nat, Admin>)

  datatype Label =
    | Publish(pid: nat, text: string)
    | Push(pid: nat)
    | TrimList(pid: nat)
    | Fail(pid: nat)
    | Range(aid: nat, ok: bool)
    | SendHistory(aid: nat, ok: bool)
    | SendEnd(aid: nat, ok: bool)
    | Subscribe(aid: nat, ok: bool, closeOk: bool)
    | Forward(aid: nat, ok: bool)
    | EndSession(aid: nat)

  function PublisherAt(s: State, pid: nat): Publisher {
    if pid in s.publishers then s.publishers[pid] else Idle
  }

  function SendTo(a: Admin, f: Sent, ok: bool, next: Phase): Admin {
    if ok then a.(sent := a.sent + [f], phase := next) else a.(phase := Over)
  }

  function AdminStep(channel: seq<string>, a: Admin, l: Label): Admin {
    match l
    case SendHistory(_, ok) =>
      if a.phase.Replaying? && a.phase.left != [] then
        SendTo(a, Event(a.phase.left[0]), ok, Replaying(a.phase.left[1..]))
      else a
    case SendEnd(_, ok) =>
      if a.phase == Replaying([]) then SendTo(a, HistoryEnd, ok, Replayed) else a
    case Subscribe(_, ok, closeOk) =>
      if a.phase != Replayed then a
      else if ok then a.(phase := Live(|channel|), start := Some(|channel|))
      else a.(sent := a.sent + (if closeOk then [AdminClose] else []), phase := Over)
    case Forward(_, ok) =>
      if a.phase.Live? && a.phase.cursor < |channel| then
        SendTo(a, Event(a.phase.cursor), ok, Live(a.phase.cursor + 1))
      else a
    case EndSession(_) => a.(phase := Over)
    case _ => a
  }

  function Step(s: State, l: Label): State {
    match l
    case Publish(pid, text) =>
      if PublisherAt(s, pid) != Idle then s
      else s.(channel := s.channel + [text], publishers := s.publishers[pid := Published(|s.channel|)])
    case Push(pid) =>
      var p := PublisherAt(s, pid);
      if !p.Published? then s
      else s.(list := [p.occurrence] + s.list, pushed := s.pushed + [p.occurrence],
              publishers := s.publishers[pid := Pushed])
    case TrimList(pid) =>
      if PublisherAt(s, pid) != Pushed then s
      else s.(list := Trim(s.list, CAP - 1), lost := 0, publishers := s.publishers[pid := Idle])
    case Fail(pid) =>
      s.(lost := s.lost + (if PublisherAt(s, pid) == Pushed then 1 else 0),
         publishers := s.publishers[pid := Idle])
    case Range(aid, ok) =>
      if aid in s.admins then s
      else
        var history := if ok then Reverse(s.list) else [];
        s.(admins := s.admins[aid := Admin(Replaying(history), [], history, None)])
    case _ =>
      if l.aid !in s.admins then s
      else s.(admins := s.admins[l.aid := AdminStep(s.channel, s.admins[l.aid], l)])
  }

  function Run(ls: seq<Label>): State {
    if ls == [] then State([], [], [], 0, map[], map[])
    else Step(Run(ls[..|ls| - 1]), ls[|ls| - 1])
  }

  // ------------------------------------------------------------------
  // The list
  // ------------------------------------------------------------------

  function Min(a: nat, b: nat): nat {
    if a < b then a else b
  }

  // Publishers between their LPUSH and their LTRIM.
  function Untrimmed(s: State): set<nat> {
    set pid | pid in s.publishers && s.publishers[pid] == Pushed
  }

  ghost predicate GoodList(s: State) {
    && |s.list| <= |s.pushed|
    && s.list == Reverse(s.pushed)[..|s.list|]
    && Min(CAP, |s.pushed|) <= |s.list| <= CAP + |Untrimmed(s)| + s.lost
  }

  // Each channel position is held by one publisher, or was pushed once, or was lost.
  ghost predicate GoodPushes(s: State) {
    && Distinct(s.pushed)
    && (forall i :: 0 <= i < |s.pushed| ==> s.pushed[i] < |s.channel|)
    && (forall p :: p in s.publishers && s.publishers[p].Published? ==>
          s.publishers[p].occurrence < |s.channel| && s.publishers[p].occurrence !in s.pushed)
    && (forall p, q ::
          (p in s.publishers && q in s.publishers && p != q
          && s.publishers[p].Published? && s.publishers[q].Published?)
          ==> s.publishers[p].occurrence != s.publishers[q].occurrence)
  }

  // A first part of the reversed pushes stays one when it is cut, or grown by a push.
  lemma {:induction false} PushedPrefix(list: seq<nat>, pushed: seq<nat>, x: nat)
    requires |list| <= |pushed| && list == Reverse(pushed)[..|list|]
    ensures [x] + list == Reverse(pushed + [x])[..|list| + 1]
  {
    ReverseAppend(pushed, x);
    var r := Reverse(pushed);
    hide Reverse;
    assert ([x] + r)[..|list| + 1] == [x] + r[..|list|];
  }

  lemma {:induction false} TrimmedPrefix(list: seq<nat>, pushed: seq<nat>)
    requires |list| <= |pushed| && list == Reverse(pushed)[..|list|]
    ensures Trim(list, CAP - 1) == Reverse(pushed)[..|Trim(list, CAP - 1)|]
  {
  }

  lemma {:induction false} UntrimmedStep(s: State, l: Label)
    ensures l.Push? && PublisherAt(s, l.pid).Published? ==>
      l.pid !in Untrimmed(s) && Untrimmed(Step(s, l)) == Untrimmed(s) + {l.pid}
    ensures (l.TrimList? || l.Fail?) && PublisherAt(s, l.pid) == Pushed ==>
      l.pid in Untrimmed(s) && Untrimmed(Step(s, l)) == Untrimmed(s) - {l.pid}
    ensures (l.Push? && PublisherAt(s, l.pid).Published?)
      || ((l.TrimList? || l.Fail?) && PublisherAt(s, l.pid) == Pushed)
      || Untrimmed(Step(s, l)) == Untrimmed(s)
  {
    hide AdminStep, Reverse, Trim;
  }

  lemma {:induction false} ListStep(s: State, l: Label)
    requires GoodList(s)
    ensures GoodList(Step(s, l))
  {
    UntrimmedStep(s, l);
    hide Untrimmed, Reverse, AdminStep;
    match l
    case Push(pid) =>
      var p := PublisherAt(s, pid);
      if p.Published? {
        PushedPrefix(s.list, s.pushed, p.occurrence);
      }
    case TrimList(pid) =>
      if PublisherAt(s, pid) == Pushed {
        TrimmedPrefix(s.list, s.pushed);
      }
    case _ =>
  }

  lemma {:induction false} PushesStep(s: State, l: Label)
    requires GoodPushes(s)
    ensures GoodPushes(Step(s, l))
  {
  }

  // ------------------------------------------------------------------
  // The admin feed
  // ------------------------------------------------------------------

  function Sends<T>(xs: seq<T>): (es: seq<AdminFrame<T>>)
    ensures |es| == |xs| && forall i :: 0 <= i < |xs| ==> es[i] == Event(xs[i])
  {
    seq(|xs|, i requires 0 <= i < |xs| => Event(xs[i]))
  }

  function Interval(lo: nat, hi: nat): (xs: seq<nat>)
    requires lo <= hi
    ensures |xs| == hi - lo && forall i :: 0 <= i < |xs| ==> xs[i] == lo + i
  {
    seq(hi - lo, i => lo + i)
  }

  // All a session has sent once it is `upto` in the channel.
  function WholeFeed(history: seq<nat>, start: nat, upto: nat): seq<Sent>
    requires start <= upto
  {
    Sends(history) + [HistoryEnd] + Sends(Interval(start, upto))
  }

  ghost predicate GoodAdmin(channel: seq<string>, a: Admin) {
    && Distinct(a.history)
    && (forall i :: 0 <= i < |a.history| ==> a.history[i] < |channel|)
    && (a.start.Some? ==>
          a.start.value <= |channel| && forall i :: 0 <= i < |a.history| ==> a.history[i] < a.start.value)
    && match a.phase
       case Replaying(left) =>
         a.start.None? && |left| <= |a.history| && left == a.history[|a.history| - |left|..]
         && a.sent == Sends(a.history[..|a.history| - |left|])
       case Replayed => a.start.None? && a.sent == Sends(a.history) + [HistoryEnd]
       case Live(cursor) =>
         a.start.Some? && a.start.value <= cursor <= |channel| && a.sent == WholeFeed(a.history, a.start.value, cursor)
       case Over => OverAdmin(channel, a)
  }

  // A session that ended has sent a first part of a whole feed, possibly a close.
  ghost predicate OverAdmin(channel: seq<string>, a: Admin) {
    match a.start
    case Some(start) => exists upto :: start <= upto <= |channel| && a.sent == WholeFeed(a.history, start, upto)
    case None =>
      || (exists n :: 0 <= n <= |a.history| && a.sent == Sends(a.history[..n]))
      || a.sent == Sends(a.history) + [HistoryEnd]
      || a.sent == Sends(a.history) + [HistoryEnd, AdminClose]
  }

  ghost predicate GoodAdmins(s: State) {
    forall aid :: aid in s.admins ==> GoodAdmin(s.channel, s.admins[aid])
  }

  lemma {:induction false} HistorySent(channel: seq<string>, a: Admin, ok: bool)
    requires GoodAdmin(channel, a) && a.phase.Replaying? && a.phase.left != []
    ensures GoodAdmin(channel, AdminStep(channel, a, SendHistory(0, ok)))
  {
    var left := a.phase.left;
    var n := |a.history| - |left|;
    assert a.history[n] == left[0];
    assert Sends(a.history[..n + 1]) == Sends(a.history[..n]) + [Event(left[0])];
    assert left[1..] == a.history[|a.history| - |left[1..]|..];
  }

  lemma {:induction false} LiveSent(channel: seq<string>, a: Admin, ok: bool)
    requires GoodAdmin(channel, a) && a.phase.Live? && a.phase.cursor < |channel|
    ensures GoodAdmin(channel, AdminStep(channel, a, Forward(0, ok)))
  {
    var start, cursor := a.start.value, a.phase.cursor;
    assert Interval(start, cursor + 1) == Interval(start, cursor) + [cursor];
    assert WholeFeed(a.history, start, cursor + 1) == WholeFeed(a.history, start, cursor) + [Event(cursor)];
  }

  lemma {:induction false} Ended(channel: seq<string>, a: Admin)
    requires GoodAdmin(channel, a)
    ensures GoodAdmin(channel, a.(phase := Over))
  {
    match a.phase
    case Replaying(left) => assert 0 <= |a.history| - |left| <= |a.history|;
    case _ =>
  }

  lemma {:induction false} AdminStepGood(channel: seq<string>, a: Admin, l: Label)
    requires GoodAdmin(channel, a)
    ensures GoodAdmin(channel, AdminStep(channel, a, l))
  {
    match l
    case SendHistory(_, ok) =>
      if a.phase.Replaying? && a.phase.left != [] {
        HistorySent(channel, a, ok);
        assert AdminStep(channel, a, l) == AdminStep(channel, a, SendHistory(0, ok));
      }
    case SendEnd(_, ok) =>
      Ended(channel, a);
      if a.phase == Replaying([]) {
        assert a.history[..|a.history|] == a.history;
      }
    case Subscribe(_, ok, closeOk) =>
      Ended(channel, a);
      if a.phase == Replayed {
        if ok {
          assert Sends(Interval(|channel|, |channel|)) == [];
          assert WholeFeed(a.history, |channel|, |channel|) == Sends(a.history) + [HistoryEnd];
        } else {
          assert Sends(a.history) + [HistoryEnd] + [AdminClose] == Sends(a.history) + [HistoryEnd, AdminClose];
          assert Sends(a.history) + [HistoryEnd] + [] == Sends(a.history) + [HistoryEnd];
        }
      }
    case Forward(_, ok) =>
      if a.phase.Live? && a.phase.cursor < |channel| {
        LiveSent(channel, a, ok);
        assert AdminStep(channel, a, l) == AdminStep(channel, a, Forward(0, ok));
      }
    case EndSession(_) => Ended(channel, a);
    case _ =>
  }

  lemma {:induction false} ChannelGrows(channel: seq<string>, text: string, a: Admin)
    requires GoodAdmin(channel, a)
    ensures GoodAdmin(channel + [text], a)
  {
  }

  ghost predicate Within(channel: seq<string>, xs: seq<nat>) {
    forall i :: 0 <= i < |xs| ==> xs[i] < |channel|
  }

  lemma {:induction false} RangeGood(s: State)
    requires GoodList(s) && GoodPushes(s)
    ensures Distinct(Reverse(s.list)) && Within(s.channel, Reverse(s.list))
  {
    var r := Reverse(s.list);
    assert forall i :: 0 <= i < |s.list| ==> s.list[i] == s.pushed[|s.pushed| - 1 - i];
    assert forall i :: 0 <= i < |r| ==> r[i] == s.pushed[|s.pushed| - |r| + i];
  }

  lemma {:induction false} StartGood(channel: seq<string>, history: seq<nat>)
    requires Distinct(history) && Within(channel, history)
    ensures GoodAdmin(channel, Admin(Replaying(history), [], history, None))
  {
    assert history[0..] == history && history[..0] == [];
  }

  lemma {:induction false} NoneTwice()
    ensures Distinct<nat>([])
  {
  }

  lemma {:induction false} AdminsStep(s: State, l: Label)
    requires GoodList(s) && GoodPushes(s) && GoodAdmins(s)
    ensures GoodAdmins(Step(s, l))
  {
    hide GoodAdmin, AdminStep, Reverse, GoodList, GoodPushes, Distinct;
    match l
    case Publish(pid, text) =>
      if PublisherAt(s, pid) == Idle {
        forall aid | aid in s.admins ensures GoodAdmin(s.channel + [text], s.admins[aid]) {
          ChannelGrows(s.channel, text, s.admins[aid]);
        }
      }
    case Push(_) =>
    case TrimList(_) =>
    case Fail(_) =>
    case Range(aid, ok) =>
      RangeGood(s);
      if aid !in s.admins {
        if ok {
          hide Within;
          StartGood(s.channel, Reverse(s.list));
        } else {
          assert Distinct<nat>([]) by {
            NoneTwice();
          }
          StartGood(s.channel, []);
        }
      }
    case _ =>
      if l.aid in s.admins {
        AdminStepGood(s.channel, s.admins[l.aid], l);
      }
  }

  ghost predicate Good(s: State) {
    GoodList(s) && GoodPushes(s) && GoodAdmins(s)
  }

  lemma {:induction false} RunGood(ls: seq<Label>)
    ensures Good(Run(ls))
  {
    if ls != [] {
      RunGood(ls[..|ls| - 1]);
      var s, l := Run(ls[..|ls| - 1]), ls[|ls| - 1];
      ListStep(s, l);
      PushesStep(s, l);
      AdminsStep(s, l);
    }
  }

  // ------------------------------------------------------------------
  // What holds in every run
  // ------------------------------------------------------------------

  // The texts published, in order, read off the run.
  function PublishedTexts(ls: seq<Label>): seq<string> {
    if ls == [] then []
    else
      var n := |ls| - 1;
      PublishedTexts(ls[..n])
        + match ls[n]
          case Publish(pid, text) => if PublisherAt(Run(ls[..n]), pid) == Idle then [text] else []
          case _ => []
  }

  lemma {:induction false} ChannelIsPublished(ls: seq<Label>)
    ensures Run(ls).channel == PublishedTexts(ls)
  {
    hide AdminStep;
    if ls != [] {
      ChannelIsPublished(ls[..|ls| - 1]);
    }
  }

  // However publishers interleave, the list is the newest pushes in reverse order: all
  // of them up to the cap, at most one more for each publisher that has pushed and not
  // yet trimmed, or failed to since the last trim; and with none such, exactly the last
  // 200.
  lemma {:induction false} RecentList(ls: seq<Label>)
    ensures var s := Run(ls);
      && |s.list| <= |s.pushed|
      && s.list == Reverse(s.pushed)[..|s.list|]
      && Min(200, |s.pushed|) <= |s.list| <= 200 + |Untrimmed(s)| + s.lost
      && (Untrimmed(s) == {} && s.lost == 0 ==> |s.list| == Min(200, |s.pushed|))
  {
    RunGood(ls);
  }

  ghost predicate SentTwice(a: Admin, occurrence: nat) {
    exists i, j :: 0 <= i < j < |a.sent| && a.sent[i] == Event(occurrence) && a.sent[j] == Event(occurrence)
  }

  lemma {:induction false} FeedDistinct(history: seq<nat>, start: nat, upto: nat)
    requires start <= upto && Distinct(history)
    requires forall i :: 0 <= i < |history| ==> history[i] < start
    ensures Distinct(WholeFeed(history, start, upto))
  {
  }

  // No admin session is ever sent the same occurrence twice, whether from history, from
  // the live channel, or once from each.
  lemma {:induction false} AtMostOnce(ls: seq<Label>, aid: nat, occurrence: nat)
    requires aid in Run(ls).admins
    ensures !SentTwice(Run(ls).admins[aid], occurrence)
  {
    RunGood(ls);
    var a := Run(ls).admins[aid];
    if a.start.Some? {
      var upto := if a.phase.Live? then a.phase.cursor
        else var u :| a.start.value <= u <= |Run(ls).channel| && a.sent == WholeFeed(a.history, a.start.value, u); u;
      FeedDistinct(a.history, a.start.value, upto);
    }
  }

  // A live session has been sent exactly the occurrences that were in the list when it
  // read it, and those published since it subscribed: an occurrence is missed exactly
  // when it was published before the subscription and was not in the list.
  lemma {:induction false} MissedExactly(ls: seq<Label>, aid: nat, occurrence: nat)
    requires aid in Run(ls).admins && Run(ls).admins[aid].phase.Live?
    requires occurrence < Run(ls).admins[aid].phase.cursor
    ensures var a := Run(ls).admins[aid];
      && a.start.Some?
      && (Event(occurrence) !in a.sent <==> occurrence < a.start.value && occurrence !in a.history)
  {
    RunGood(ls);
    var a := Run(ls).admins[aid];
    var live := Interval(a.start.value, a.phase.cursor);
    if occurrence in a.history {
      var i :| 0 <= i < |a.history| && a.history[i] == occurrence;
      assert a.sent[i] == Event(occurrence);
    } else if occurrence >= a.start.value {
      assert a.sent[|a.history| + 1 + (occurrence - a.start.value)] == Event(occurrence);
    }
  }

  // What a live session has sent, in one piece.
  lemma {:induction false} LiveSession(ls: seq<Label>, aid: nat)
    requires aid in Run(ls).admins && Run(ls).admins[aid].phase.Live?
    ensures var s := Run(ls);
      var a := s.admins[aid];
      && a.start.Some? && a.start.value <= a.phase.cursor <= |s.channel|
      && Within(s.channel, a.history)
      && a.sent == WholeFeed(a.history, a.start.value, a.phase.cursor)
  {
    RunGood(ls);
    hide Run, GoodList, GoodPushes;
    assert GoodAdmin(Run(ls).channel, Run(ls).admins[aid]);
  }

  lemma {:induction false} RunNext(ls: seq<Label>, l: Label)
    ensures Run(ls + [l]) == Step(Run(ls), l)
  {
    assert (ls + [l])[..|ls|] == ls;
  }

  // A publisher that is not interrupted.
  function PublishedAndRecorded(s: State, pid: nat, text: string): State {
    Step(Step(Step(s, Publish(pid, text)), Push(pid)), TrimList(pid))
  }

  lemma {:induction false} Uninterrupted(s: State, pid: nat, text: string)
    requires PublisherAt(s, pid) == Idle
    ensures var s' := PublishedAndRecorded(s, pid, text);
      && s'.channel == s.channel + [text]
      && s'.list == Trim([|s.channel|] + s.list, CAP - 1)
      && s'.pushed == s.pushed + [|s.channel|]
      && s'.admins == s.admins && s'.lost == 0
  {
  }

  function TextsAt(channel: seq<string>, xs: seq<nat>): (ts: seq<string>)
    requires Within(channel, xs)
    ensures |ts| == |xs| && forall i :: 0 <= i < |ts| ==> ts[i] == channel[xs[i]]
  {
    seq(|xs|, i requires 0 <= i < |xs| => channel[xs[i]])
  }

  // The list as Redis holds it.
  function ListTexts(s: State): seq<string>
    requires Within(s.channel, s.list)
  {
    TextsAt(s.channel, s.list)
  }

  method PublishAndRecord(redis: Redis, json: string)
    modifies redis`channel, redis`recent
    ensures redis.channel == old(redis.channel) + [json]
    ensures redis.recent == Trim([json] + old(redis.recent), CAP - 1)
    ensures redis.recent == [json] + if |old(redis.recent)| < 200 then old(redis.recent) else old(redis.recent)[..199]
  {
    redis.Publish(json);
    redis.Lpush(json);
    redis.Ltrim(CAP - 1);
  }

  // Run without interruption, the three commands have the effect of the three steps.
  method PublishAndRecordNow(redis: Redis, text: string, ghost s: State, ghost pid: nat)
    requires PublisherAt(s, pid) == Idle
    requires Within(s.channel, s.list)
    requires redis.channel == s.channel && redis.recent == ListTexts(s)
    modifies redis`channel, redis`recent
    ensures var s' := PublishedAndRecorded(s, pid, text);
      && Within(s'.channel, s'.list)
      && redis.channel == s'.channel && redis.recent == ListTexts(s')
  {
    PublishAndRecord(redis, text);
    Uninterrupted(s, pid, text);
    ghost var s' := PublishedAndRecorded(s, pid, text);
    hide PublishedAndRecorded, PublisherAt;
    assert [text] + ListTexts(s) == ListTexts(s.(channel := s'.channel, list := [|s.channel|] + s.list));
    assert redis.recent == ListTexts(s');
  }

  lemma {:induction false} MissedBetween(s: State, pid: nat, aid: nat, text: string)
    requires PublisherAt(s, pid) == Idle && aid in s.admins && s.admins[aid].phase == Replayed
    requires Event(|s.channel|) !in s.admins[aid].sent
    ensures var s' := Step(PublishedAndRecorded(s, pid, text), Subscribe(aid, true, true));
      && s'.admins[aid].phase == Live(|s.channel| + 1)
      && Event(|s.channel|) !in s'.admins[aid].sent && |s.channel| in s'.list
  {
    Uninterrupted(s, pid, text);
    hide PublishedAndRecorded;
    assert Trim([|s.channel|] + s.list, CAP - 1)[0] == |s.channel|;
  }

  lemma {:induction false} RunFour(ls: seq<Label>, a: Label, b: Label, c: Label, d: Label)
    ensures Run(ls + [a, b, c, d]) == Step(Step(Step(Step(Run(ls), a), b), c), d)
  {
    hide Step, Run;
    RunNext(ls, a);
    RunNext(ls + [a], b);
    RunNext(ls + [a] + [b], c);
    RunNext(ls + [a] + [b] + [c], d);
    OneByOne(ls, a, b, c, d);
  }

  lemma {:induction false} EmptyReplay()
    ensures var s := Run([Range(0, true), SendEnd(0, true)]);
      && 0 in s.admins && s.admins[0] == Admin(Replayed, [HistoryEnd], [], None)
      && s.channel == [] && PublisherAt(s, 1) == Idle
  {
    RunNext([], Range(0, true));
    RunNext([Range(0, true)], SendEnd(0, true));
    assert [] + [Range(0, true)] == [Range(0, true)];
    assert [Range(0, true)] + [SendEnd(0, true)] == [Range(0, true), SendEnd(0, true)];
  }

  // Such a miss does happen: one event published between LRANGE and SUBSCRIBE.
  lemma {:induction false} MissHappens(text: string)
    ensures var s := Run([Range(0, true), SendEnd(0, true), Publish(1, text), Push(1), TrimList(1),
                          Subscribe(0, true, true)]);
      0 in s.admins && s.admins[0].phase == Live(1) && Event(0) !in s.admins[0].sent && 0 in s.list
  {
    var replayed := [Range(0, true), SendEnd(0, true)];
    EmptyReplay();
    MissedBetween(Run(replayed), 1, 0, text);
    RunFour(replayed, Publish(1, text), Push(1), TrimList(1), Subscribe(0, true, true));
    assert replayed + [Publish(1, text), Push(1), TrimList(1), Subscribe(0, true, true)]
        == [Range(0, true), SendEnd(0, true), Publish(1, text), Push(1), TrimList(1), Subscribe(0, true, true)];
    hide Run, Step;
  }
}
