// What an admin session can always do: be sent the whole list, go live, and catch up.
module FeedProgress {
  import opened Options
  import opened Sequences
  import opened RedisServer
  import opened Feed

  // ------------------------------------------------------------------
  // Where the histories come from
  // ------------------------------------------------------------------

  // The failures between push and trim since the last trim, read off the run.
  function FailuresSinceTrim(ls: seq<Label>): nat {
    if ls == [] then 0
    else
      var n := |ls| - 1;
      var before := FailuresSinceTrim(ls[..n]);
      match ls[n]
      case TrimList(pid) => if PublisherAt(Run(ls[..n]), pid) == Pushed then 0 else before
      case Fail(pid) => if PublisherAt(Run(ls[..n]), pid) == Pushed then before + 1 else before
      case _ => before
  }

  // The list is never longer than 200, the publishers between push and trim, and the
  // failures there since the last trim.
  lemma {:induction false} ListIsBounded(ls: seq<Label>)
    ensures |Run(ls).list| <= 200 + |Untrimmed(Run(ls))| + FailuresSinceTrim(ls)
  {
    LostIsFailures(ls);
    RecentList(ls);
  }

  lemma {:induction false} LostIsFailures(ls: seq<Label>)
    ensures Run(ls).lost == FailuresSinceTrim(ls)
  {
    hide AdminStep, Reverse, Trim;
    if ls != [] {
      LostIsFailures(ls[..|ls| - 1]);
    }
  }

  // ------------------------------------------------------------------
  // Steps of one session
  // ------------------------------------------------------------------

  ghost predicate OnlyServed(s: State, t: State, aid: nat) {
    aid in t.admins && t == s.(admins := s.admins[aid := t.admins[aid]])
  }

  lemma {:induction false} OnlyServedTwice(s: State, t: State, u: State, aid: nat)
    requires OnlyServed(s, t, aid) && OnlyServed(t, u, aid)
    ensures OnlyServed(s, u, aid)
  {
    assert s.admins[aid := t.admins[aid]][aid := u.admins[aid]] == s.admins[aid := u.admins[aid]];
  }

  lemma {:induction false} Unserved(s: State, aid: nat)
    requires aid in s.admins
    ensures OnlyServed(s, s, aid)
  {
    assert s.admins[aid := s.admins[aid]] == s.admins;
  }

  lemma {:induction false} Serve(ls: seq<Label>, aid: nat, l: Label)
    requires aid in Run(ls).admins && (l.SendHistory? || l.SendEnd? || l.Subscribe? || l.Forward?) && l.aid == aid
    ensures OnlyServed(Run(ls), Run(ls + [l]), aid)
    ensures Run(ls + [l]).admins[aid] == AdminStep(Run(ls).channel, Run(ls).admins[aid], l)
  {
    RunNext(ls, l);
    hide Run, AdminStep, Reverse, Trim;
  }

  lemma {:induction false} CanReplay(ls: seq<Label>, aid: nat) returns (more: seq<Label>)
    requires aid in Run(ls).admins && Run(ls).admins[aid].phase.Replaying?
    ensures OnlyServed(Run(ls), Run(ls + more), aid)
    ensures var a, b := Run(ls).admins[aid], Run(ls + more).admins[aid];
      b.phase == Replaying([]) && b.history == a.history
    decreases |Run(ls).admins[aid].phase.left|
  {
    hide Run, Step;
    var left := Run(ls).admins[aid].phase.left;
    if left == [] {
      more := [];
      assert ls + [] == ls;
      Unserved(Run(ls), aid);
    } else {
      var l := SendHistory(aid, true);
      Serve(ls, aid, l);
      var rest := CanReplay(ls + [l], aid);
      more := [l] + rest;
      assert ls + more == ls + [l] + rest;
      OnlyServedTwice(Run(ls), Run(ls + [l]), Run(ls + more), aid);
    }
  }

  // Every live session can be sent all that was published since it subscribed.
  lemma {:induction false} CanCatchUp(ls: seq<Label>, aid: nat) returns (more: seq<Label>)
    requires aid in Run(ls).admins && Run(ls).admins[aid].phase.Live?
    ensures OnlyServed(Run(ls), Run(ls + more), aid)
    ensures var s, b := Run(ls), Run(ls + more).admins[aid];
      var a := s.admins[aid];
      && b.phase == Live(|s.channel|) && b.history == a.history && b.start == a.start
      && b.start.Some? && b.start.value <= |s.channel|
      && b.sent == WholeFeed(b.history, b.start.value, |s.channel|)
    decreases |Run(ls).channel| - Run(ls).admins[aid].phase.cursor
  {
    hide Run, Step, WholeFeed;
    LiveSession(ls, aid);
    var s := Run(ls);
    if s.admins[aid].phase.cursor == |s.channel| {
      more := [];
      assert ls + [] == ls;
      Unserved(s, aid);
    } else {
      var l := Feed.Forward(aid, true);
      Serve(ls, aid, l);
      var rest := CanCatchUp(ls + [l], aid);
      more := [l] + rest;
      assert ls + more == ls + [l] + rest;
      OnlyServedTwice(s, Run(ls + [l]), Run(ls + more), aid);
    }
  }

  // A session that has read the list can be sent all of it and the sentinel, and go live.
  lemma {:induction false} CanGoLive(ls: seq<Label>, aid: nat) returns (more: seq<Label>)
    requires aid !in Run(ls).admins
    ensures OnlyServed(Run(ls), Run(ls + more), aid)
    ensures var s, a := Run(ls), Run(ls + more).admins[aid];
      && a.phase == Live(|s.channel|)
      && a.sent == Sends(Reverse(s.list)) + [HistoryEnd]
  {
    hide Run, Step, WholeFeed;
    var s := Run(ls);
    var read := ls + [Range(aid, true)];
    ReadsList(ls, aid);
    var replay := CanReplay(read, aid);
    var end, live := SendEnd(aid, true), Feed.Subscribe(aid, true, true);
    Serve(read + replay, aid, end);
    Serve(read + replay + [end], aid, live);
    more := [Range(aid, true)] + replay + [end, live];
    assert ls + more == read + replay + [end] + [live];
    OnlyServedTwice(s, Run(read), Run(read + replay), aid);
    OnlyServedTwice(s, Run(read + replay), Run(read + replay + [end]), aid);
    OnlyServedTwice(s, Run(read + replay + [end]), Run(ls + more), aid);
    LiveSession(ls + more, aid);
    NothingSince(Reverse(s.list), |s.channel|);
  }

  lemma {:induction false} ReadsList(ls: seq<Label>, aid: nat)
    requires aid !in Run(ls).admins
    ensures var s, t := Run(ls), Run(ls + [Range(aid, true)]);
      && OnlyServed(s, t, aid) && t.admins[aid].phase.Replaying? && t.admins[aid].history == Reverse(s.list)
  {
    RunNext(ls, Range(aid, true));
    hide Run, Reverse;
  }

  lemma {:induction false} NothingSince(history: seq<nat>, n: nat)
    ensures WholeFeed(history, n, n) == Sends(history) + [HistoryEnd]
  {
    assert Sends(Interval(n, n)) == [];
  }

  // At any point of any run a new session can be sent the whole list, oldest first, the
  // sentinel, and then whatever is published next.
  lemma {:induction false} CanFollow(ls: seq<Label>, aid: nat, pid: nat, text: string) returns (more: seq<Label>)
    requires aid !in Run(ls).admins && PublisherAt(Run(ls), pid) == Idle
    ensures var s, t := Run(ls), Run(ls + more);
      && t.channel == s.channel + [text] && aid in t.admins
      && t.admins[aid].sent == Sends(Reverse(s.list)) + [HistoryEnd] + [Event(|s.channel|)]
  {
    hide Run, Reverse;
    var live := CanGoLive(ls, aid);
    var s := Run(ls);
    RunNext(ls + live, Feed.Publish(pid, text));
    var published := ls + live + [Feed.Publish(pid, text)];
    Serve(published, aid, Feed.Forward(aid, true));
    more := live + [Feed.Publish(pid, text), Feed.Forward(aid, true)];
    assert ls + more == published + [Feed.Forward(aid, true)];
  }

  // ------------------------------------------------------------------
  // Ends
  // ------------------------------------------------------------------

  // A session that cannot subscribe ends with a close frame after the sentinel.
  lemma {:induction false} SubscriptionFails(ls: seq<Label>, aid: nat, closeOk: bool)
    requires aid in Run(ls).admins && Run(ls).admins[aid].phase == Replayed
    ensures var s, t := Run(ls), Run(ls + [Feed.Subscribe(aid, false, closeOk)]);
      && OnlyServed(s, t, aid) && t.admins[aid].phase == Over
      && t.admins[aid].sent == Sends(s.admins[aid].history) + [HistoryEnd] + if closeOk then [AdminClose] else []
  {
    Serve(ls, aid, Feed.Subscribe(aid, false, closeOk));
    RunGood(ls);
    hide Run, OnlyServed, GoodList, GoodPushes;
    assert GoodAdmin(Run(ls).channel, Run(ls).admins[aid]);
  }

  lemma {:induction false} OverStep(s: State, l: Label, aid: nat)
    requires aid in s.admins && s.admins[aid].phase == Over
    ensures aid in Step(s, l).admins && Step(s, l).admins[aid] == s.admins[aid]
  {
    hide Reverse, Trim;
  }

  lemma {:induction false} EndStep(s: State, aid: nat)
    requires aid in s.admins
    ensures aid in Step(s, EndSession(aid)).admins
    ensures Step(s, EndSession(aid)).admins[aid] == s.admins[aid].(phase := Over)
  {
  }

  // Nothing is sent to a session that has ended.
  lemma {:induction false} EndedIsSentNothing(ls: seq<Label>, aid: nat, more: seq<Label>)
    requires aid in Run(ls).admins
    ensures var t := Run(ls + [EndSession(aid)] + more);
      aid in t.admins && t.admins[aid] == Run(ls).admins[aid].(phase := Over)
  {
    hide Step, Run;
    var ended := ls + [EndSession(aid)];
    if more == [] {
      RunNext(ls, EndSession(aid));
      EndStep(Run(ls), aid);
      assert ended + more == ended;
    } else {
      var n := |more| - 1;
      EndedIsSentNothing(ls, aid, more[..n]);
      assert ended + more == ended + more[..n] + [more[n]];
      RunNext(ended + more[..n], more[n]);
      OverStep(Run(ended + more[..n]), more[n], aid);
    }
  }
}
