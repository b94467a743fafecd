// The `audio:sessions` hash. The proxy's listeners submit one task for each login,
// server switch and disconnect; the tasks run concurrently, each in three effects: read
// the clock, change the hash, publish. The relay reads the entries back.
module Sessions {
  import opened Options
  import opened Uuids
  import opened Json
  import opened JsonTemplate
  import opened KeyedStore
  import opened RedisServer
  import Events
  import Feed

  datatype Change = Login(username: string) | Switch(username: string, server: string) | Disconnect

  // ------------------------------------------------------------------
  // Entries
  // ------------------------------------------------------------------

  function SessionFields(username: string, server: string, joinedAt: nat): seq<Field> {
    [Field("username", Text(username)), Field("server", Text(server)), Field("joined_at", Integer(joinedAt))]
  }

  function SessionJson(username: string, server: string, joinedAt: nat): string {
    Render(SessionFields(username, server, joinedAt))
  }

  datatype StoredSession = StoredSession(username: string, server: string, joinedAt: int)

  const I64_LIMIT: nat := 0x8000_0000_0000_0000

  // A whole number of 64 bits, written without fraction or exponent. The reader takes
  // "-0" for a fraction.
  function WholeNumber(lexeme: string): Option<int> {
    var digits := if lexeme != "" && lexeme[0] == '-' then lexeme[1..] else lexeme;
    if digits == "" || DigitRun(digits) < |digits| then None
    else
      var n: int := DigitsValue(digits);
      if digits == lexeme then (if n < I64_LIMIT then Some(n) else None)
      else if 0 < n <= I64_LIMIT then Some(-n) else None
  }

  // The values given under one name.
  function ValuesOf(ms: seq<Member>, name: string): seq<Value> {
    if ms == [] then []
    else (if ms[0].name == name then [ms[0].value] else []) + ValuesOf(ms[1..], name)
  }

  function Typed(username: Value, server: Value, joinedAt: Value): Option<StoredSession> {
    if !username.Str? || !server.Str? || !joinedAt.Num? then None
    else
      var n :- WholeNumber(joinedAt.lexeme);
      Some(StoredSession(username.s, server.s, n))
  }

  // Each field exactly once, other names ignored.
  function ParseMembers(ms: seq<Member>): Option<StoredSession> {
    var us, ss, js := ValuesOf(ms, "username"), ValuesOf(ms, "server"), ValuesOf(ms, "joined_at");
    if |us| == 1 && |ss| == 1 && |js| == 1 then Typed(us[0], ss[0], js[0]) else None
  }

  // An object, or the three values as an array.
  function ParseEntry(json: string): Option<StoredSession> {
    var v :- FromStr(json);
    match v
    case Obj(ms) => ParseMembers(ms)
    case Arr(items) => if |items| == 3 then Typed(items[0], items[1], items[2]) else None
    case _ => None
  }

  lemma {:induction false} OnlyValue(ms: seq<Member>, name: string)
    ensures ValuesOf(ms, name) == [] ==> name !in AsMap(ms)
    ensures |ValuesOf(ms, name)| == 1 ==> name in AsMap(ms) && AsMap(ms)[name] == ValuesOf(ms, name)[0]
  {
    if ms != [] {
      OnlyValue(ms[1..], name);
      var rest := AsMap(ms[1..]);
      assert AsMap(ms) == map[ms[0].name := ms[0].value] + rest;
      hide AsMap;
    }
  }

  lemma {:induction false} WholeDecimal(n: nat)
    ensures WholeNumber(Decimal(n)) == if n < I64_LIMIT then Some(n) else None
  {
    var d := Decimal(n);
    RunOfDigits(d, "");
    assert d + "" == d && d[0] != '-';
    DecimalValue(n);
  }

  lemma {:induction false} WholeIsShortest(lexeme: string)
    requires WholeNumber(lexeme).Some? && WholeNumber(lexeme).value >= 0
    ensures |Decimal(WholeNumber(lexeme).value)| <= |lexeme|
    ensures WholeNumber(lexeme).value < I64_LIMIT
  {
    DecimalIsShortest(lexeme);
  }

  lemma {:induction false} SessionNames(username: string, server: string, joinedAt: nat)
    ensures GoodNames(SessionFields(username, server, joinedAt))
    ensures PlainHoles(SessionFields(username, server, joinedAt)) <==> Plain(username) && Plain(server)
  {
    var fs := SessionFields(username, server, joinedAt);
    assert |"username"| == 8 && |"server"| == 6 && |"joined_at"| == 9;
    assert Plain("username") && Plain("server") && Plain("joined_at");
    assert PlainHole(fs[0].hole) <==> Plain(username);
    assert PlainHole(fs[1].hole) <==> Plain(server);
  }

  lemma {:induction false} EntryOfThree(json: string, username: string, server: string, lexeme: string)
    requires FromStr(json) == Some(Obj(
      [Member("username", Str(username)), Member("server", Str(server)), Member("joined_at", Num(lexeme))]))
    ensures ParseEntry(json) == Typed(Str(username), Str(server), Num(lexeme))
  {
    hide FromStr, Typed;
    var u, s, j := Member("username", Str(username)), Member("server", Str(server)), Member("joined_at", Num(lexeme));
    assert |"username"| == 8 && |"server"| == 6 && |"joined_at"| == 9;
    ThreeValues(u, s, j, "username");
    ThreeValues(u, s, j, "server");
    ThreeValues(u, s, j, "joined_at");
    hide ValuesOf;
  }

  lemma {:induction false} PlainEntryReadsBack(username: string, server: string, joinedAt: nat)
    requires Plain(username) && Plain(server)
    ensures ParseEntry(SessionJson(username, server, joinedAt))
         == if joinedAt < I64_LIMIT then Some(StoredSession(username, server, joinedAt)) else None
  {
    hide Render, FromStr, Decimal, WholeNumber, ParseEntry, Plain;
    var fs := SessionFields(username, server, joinedAt);
    SessionNames(username, server, joinedAt);
    PlainReadsBack(fs);
    WholeDecimal(joinedAt);
    assert Meanings(fs) ==
      [Member("username", Str(username)), Member("server", Str(server)), Member("joined_at", Num(Decimal(joinedAt)))];
    EntryOfThree(SessionJson(username, server, joinedAt), username, server, Decimal(joinedAt));
  }

  lemma {:induction false} ThreeValues(u: Member, s: Member, j: Member, name: string)
    requires u.name != s.name && u.name != j.name && s.name != j.name
    requires name == u.name || name == s.name || name == j.name
    ensures ValuesOf([u, s, j], name)
         == if name == u.name then [u.value] else if name == s.name then [s.value] else [j.value]
  {
    assert [u, s, j][1..] == [s, j] && [s, j][1..] == [j] && [j][1..] == [];
    assert ValuesOf([j], name) == if name == j.name then [j.value] else [];
    assert ValuesOf([s, j], name) == if name == s.name then [s.value] else ValuesOf([j], name);
  }

  // The relay recovers what the proxy recorded exactly when the names are free of
  // quotes, backslashes and control characters and the time fits 64 bits.
  lemma {:induction false} EntryReadsBackExactly(username: string, server: string, joinedAt: nat)
    ensures ParseEntry(SessionJson(username, server, joinedAt)) == Some(StoredSession(username, server, joinedAt))
       <==> Plain(username) && Plain(server) && joinedAt < I64_LIMIT
  {
    if Plain(username) && Plain(server) {
      PlainEntryReadsBack(username, server, joinedAt);
    }
    if ParseEntry(SessionJson(username, server, joinedAt)) == Some(StoredSession(username, server, joinedAt)) {
      RightEntryIsPlain(username, server, joinedAt);
    }
  }

  // A stored session needs as many characters as its own template gives it.
  lemma {:induction false} SessionCosts(ms: seq<Member>, username: string, server: string, joinedAt: nat)
    requires ParseMembers(ms) == Some(StoredSession(username, server, joinedAt))
    ensures joinedAt < I64_LIMIT
    ensures var m := AsMap(ms);
      && "username" in m && m["username"] == Str(username)
      && "server" in m && m["server"] == Str(server)
      && "joined_at" in m && ValueCost(m["joined_at"]) >= |Decimal(joinedAt)|
  {
    OnlyValue(ms, "username");
    OnlyValue(ms, "server");
    OnlyValue(ms, "joined_at");
    hide Decimal, WholeNumber, ValuesOf, AsMap;
    WholeIsShortest(ValuesOf(ms, "joined_at")[0].lexeme);
  }

  lemma {:induction false} RightEntryIsPlain(username: string, server: string, joinedAt: nat)
    requires ParseEntry(SessionJson(username, server, joinedAt)) == Some(StoredSession(username, server, joinedAt))
    ensures Plain(username) && Plain(server) && joinedAt < I64_LIMIT
  {
    hide Render, FromStr, Decimal, Plain, ParseMembers, AsMap, GoodNames, PlainHoles;
    var fs := SessionFields(username, server, joinedAt);
    SessionNames(username, server, joinedAt);
    RenderIsObject(fs);
    SessionCosts(FromStr(Render(fs)).value.members, username, server, joinedAt);
    CostlyMeansPlain(fs);
  }

  lemma {:induction false} RenderIsObject(fs: seq<Field>)
    requires fs != [] && FromStr(Render(fs)).Some?
    ensures FromStr(Render(fs)).value.Obj?
  {
    assert Render(fs)[0] == '{';
    assert SkipSpace(Render(fs)) == Render(fs);
  }

  // ------------------------------------------------------------------
  // The system
  // ------------------------------------------------------------------

  // A task is identified by its place in the order of submission.
  datatype Task = Task(player: Uuid, change: Change, submitted: nat)

  datatype Stage = Waiting | Clocked(at: nat) | Recorded | Over

  datatype Stamped = Stamped(task: nat, change: Change, at: nat)

  datatype State = State(
    now: nat,
    tasks: seq<Task>, stages: seq<Stage>,
    hash: map<string, string>, channel: seq<string>,
    // History: each task's clock reading; the changes of the hash and the tasks published,
    // in order.
    clocks: map<nat, nat>, writes: seq<Op<string, Stamped>>, published: seq<nat>)

  datatype Label =
    | Tick(seconds: nat)
    | Submit(player: Uuid, change: Change)
    | ReadClock(task: nat)
    // An exception ends the task, whether or not the command took effect.
    | WriteHash(task: nat, effect: bool, ok: bool)
    | Publish(task: nat, effect: bool)

  // What a change leaves in the hash: an entry, or none.
  function Track(was: Option<string>, c: Stamped): Option<string> {
    match c.change
    case Login(username) => Some(SessionJson(username, "", c.at))
    case Switch(username, server) => Some(SessionJson(username, server, c.at))
    case Disconnect => None
  }

  function EventOf(player: Uuid, c: Change): Events.Event {
    match c
    case Login(username) => Events.PlayerConnect(player, username)
    case Switch(_, server) => Events.ServerSwitch(player, server)
    case Disconnect => Events.PlayerDisconnect(player)
  }

  function Record(s: State, task: nat, at: nat, effect: bool, ok: bool): State
    requires task < |s.tasks| && |s.stages| == |s.tasks|
  {
    var key, c := Print(s.tasks[task].player), Stamped(task, s.tasks[task].change, at);
    var s' := s.(stages := s.stages[task := if ok then Recorded else Over]);
    if effect || ok then
      s'.(hash := Put(s.hash, key, Track(Get(s.hash, key), c)), writes := s.writes + [Op(key, c)])
    else s'
  }

  function Step(s: State, l: Label): (s': State)
    requires |s.stages| == |s.tasks|
    ensures |s'.stages| == |s'.tasks|
  {
    match l
    case Tick(seconds) => s.(now := s.now + seconds)
    case Submit(player, change) =>
      s.(tasks := s.tasks + [Task(player, change, s.now)], stages := s.stages + [Waiting])
    case ReadClock(task) =>
      if task < |s.tasks| && s.stages[task] == Waiting && s.tasks[task].change != Disconnect
      then s.(stages := s.stages[task := Clocked(s.now)], clocks := s.clocks[task := s.now]) else s
    case WriteHash(task, effect, ok) =>
      if task >= |s.tasks| then s
      else if s.stages[task].Clocked? then Record(s, task, s.stages[task].at, effect, ok)
      else if s.stages[task] == Waiting && s.tasks[task].change == Disconnect then
        Record(s, task, s.now, effect, ok)
      else s
    case Publish(task, effect) =>
      if task >= |s.tasks| || s.stages[task] != Recorded then s
      else
        var s' := s.(stages := s.stages[task := Over]);
        if effect then
          s'.(channel := s.channel + [Events.ToJson(EventOf(s.tasks[task].player, s.tasks[task].change))],
              published := s.published + [task])
        else s'
  }

  function Run(ls: seq<Label>): (s: State)
    ensures |s.stages| == |s.tasks|
  {
    if ls == [] then State(0, [], [], map[], [], map[], [], []) else Step(Run(ls[..|ls| - 1]), ls[|ls| - 1])
  }

  // ------------------------------------------------------------------
  // Invariant
  // ------------------------------------------------------------------

  ghost predicate GoodStages(now: nat, tasks: seq<Task>, stages: seq<Stage>) {
    && |stages| == |tasks|
    && forall t :: 0 <= t < |tasks| ==>
         && tasks[t].submitted <= now
         && (stages[t].Clocked? ==> tasks[t].submitted <= stages[t].at <= now)
         && (stages[t].Clocked? ==> tasks[t].change != Disconnect)
  }

  ghost predicate GoodWrites(now: nat, tasks: seq<Task>, stages: seq<Stage>, writes: seq<Op<string, Stamped>>)
    requires |stages| == |tasks|
  {
    && (forall i :: 0 <= i < |writes| ==>
          var w := writes[i].change;
          && w.task < |tasks| && (stages[w.task] == Recorded || stages[w.task] == Over)
          && writes[i].key == Print(tasks[w.task].player) && w.change == tasks[w.task].change
          && tasks[w.task].submitted <= w.at <= now)
    && forall i, j :: 0 <= i < j < |writes| ==> writes[i].change.task != writes[j].change.task
  }

  ghost predicate Wrote(writes: seq<Op<string, Stamped>>, task: nat) {
    exists i :: 0 <= i < |writes| && writes[i].change.task == task
  }

  ghost predicate GoodPublished(
    tasks: seq<Task>, stages: seq<Stage>, channel: seq<string>, writes: seq<Op<string, Stamped>>, published: seq<nat>
  )
    requires |stages| == |tasks|
  {
    && |channel| == |published|
    && (forall j :: 0 <= j < |published| ==>
          && published[j] < |tasks| && stages[published[j]] == Over && Wrote(writes, published[j])
          && channel[j] == Events.ToJson(EventOf(tasks[published[j]].player, tasks[published[j]].change)))
    && (forall i, j :: 0 <= i < j < |published| ==> published[i] != published[j])
    && forall t :: 0 <= t < |tasks| && stages[t] == Recorded ==> Wrote(writes, t)
  }

  // A login or switch is recorded with what its task read from the clock, once.
  ghost predicate GoodClocks(stages: seq<Stage>, clocks: map<nat, nat>, writes: seq<Op<string, Stamped>>) {
    && (forall t :: t in clocks ==> t < |stages| && stages[t] != Waiting)
    && (forall t :: 0 <= t < |stages| && stages[t].Clocked? ==> t in clocks && clocks[t] == stages[t].at)
    && forall i :: 0 <= i < |writes| && writes[i].change.change != Disconnect ==>
         writes[i].change.task in clocks && clocks[writes[i].change.task] == writes[i].change.at
  }

  ghost predicate Good(s: State) {
    && GoodStages(s.now, s.tasks, s.stages)
    && GoodClocks(s.stages, s.clocks, s.writes)
    && GoodWrites(s.now, s.tasks, s.stages, s.writes)
    && GoodPublished(s.tasks, s.stages, s.channel, s.writes, s.published)
    && s.hash == Apply(Track, s.writes)
  }

  lemma {:induction false} WritesGrow(
    now: nat, tasks: seq<Task>, stages: seq<Stage>, writes: seq<Op<string, Stamped>>, task: nat, at: nat, next: Stage
  )
    requires |stages| == |tasks| && GoodWrites(now, tasks, stages, writes)
    requires task < |tasks| && stages[task] != Recorded && stages[task] != Over && (next == Recorded || next == Over)
    requires tasks[task].submitted <= at <= now
    ensures GoodWrites(now, tasks, stages[task := next], writes)
    ensures GoodWrites(now, tasks, stages[task := next],
                       writes + [Op(Print(tasks[task].player), Stamped(task, tasks[task].change, at))])
  {
    hide Print;
  }

  lemma {:induction false} PublishedKept(
    tasks: seq<Task>, stages: seq<Stage>, channel: seq<string>, writes: seq<Op<string, Stamped>>, published: seq<nat>,
    w: Op<string, Stamped>, next: Stage
  )
    requires |stages| == |tasks| && GoodPublished(tasks, stages, channel, writes, published)
    requires w.change.task < |tasks| && stages[w.change.task] != Over
    ensures next != Recorded ==> GoodPublished(tasks, stages[w.change.task := next], channel, writes, published)
    ensures GoodPublished(tasks, stages[w.change.task := next], channel, writes + [w], published)
  {
    hide Events.ToJson, EventOf;
    forall t
      ensures Wrote(writes, t) ==> Wrote(writes + [w], t)
      ensures Wrote(writes + [w], w.change.task)
    {
      WroteMore(writes, w, t);
    }
    hide Wrote;
  }

  lemma {:induction false} WroteMore(writes: seq<Op<string, Stamped>>, w: Op<string, Stamped>, t: nat)
    ensures Wrote(writes, t) ==> Wrote(writes + [w], t)
    ensures Wrote(writes + [w], w.change.task)
  {
    assert (writes + [w])[|writes|] == w;
    if Wrote(writes, t) {
      var i :| 0 <= i < |writes| && writes[i].change.task == t;
      assert (writes + [w])[i].change.task == t;
    }
  }

  lemma {:induction false} ClocksKept(
    stages: seq<Stage>, clocks: map<nat, nat>, writes: seq<Op<string, Stamped>>, w: Op<string, Stamped>, next: Stage
  )
    requires GoodClocks(stages, clocks, writes) && w.change.task < |stages| && (next == Recorded || next == Over)
    requires w.change.change != Disconnect ==> stages[w.change.task] == Clocked(w.change.at)
    ensures GoodClocks(stages[w.change.task := next], clocks, writes)
    ensures GoodClocks(stages[w.change.task := next], clocks, writes + [w])
  {
  }

  lemma {:induction false} StagesKept(now: nat, tasks: seq<Task>, stages: seq<Stage>, task: nat, next: Stage)
    requires GoodStages(now, tasks, stages) && task < |tasks| && !next.Clocked?
    ensures GoodStages(now, tasks, stages[task := next])
  {
  }

  lemma {:induction false} RecordGood(s: State, task: nat, at: nat, effect: bool, ok: bool)
    requires Good(s) && task < |s.tasks|
    requires s.stages[task] == Clocked(at) || (s.stages[task] == Waiting && s.tasks[task].change == Disconnect)
    requires s.tasks[task].submitted <= at <= s.now
    ensures Good(Record(s, task, at, effect, ok))
  {
    var next := if ok then Recorded else Over;
    var w := Op(Print(s.tasks[task].player), Stamped(task, s.tasks[task].change, at));
    WritesGrow(s.now, s.tasks, s.stages, s.writes, task, at, next);
    PublishedKept(s.tasks, s.stages, s.channel, s.writes, s.published, w, next);
    ClocksKept(s.stages, s.clocks, s.writes, w, next);
    StagesKept(s.now, s.tasks, s.stages, task, next);
    ApplyMore(Track, s.writes, w);
    hide GoodWrites, GoodPublished, GoodClocks, GoodStages, Print, Track, Put, Get, Apply;
  }

  lemma {:induction false} PublishGood(s: State, task: nat, effect: bool)
    requires Good(s)
    ensures Good(Step(s, Publish(task, effect)))
  {
    hide Print, Apply, Track, Events.ToJson, EventOf, Wrote;
  }

  lemma {:induction false} SubmitGood(s: State, player: Uuid, change: Change)
    requires Good(s)
    ensures Good(Step(s, Submit(player, change)))
  {
    hide Print, Apply, Track, Events.ToJson, EventOf, Wrote;
  }

  lemma {:induction false} ClockGood(s: State, task: nat)
    requires Good(s)
    ensures Good(Step(s, ReadClock(task)))
  {
    hide Print, Apply, Track, Events.ToJson, EventOf, Wrote;
  }

  lemma {:induction false} StepGood(s: State, l: Label)
    requires Good(s)
    ensures Good(Step(s, l))
  {
    match l {
      case Tick(_) =>
        hide GoodPublished, Print, Apply, Track;
      case Submit(player, change) =>
        SubmitGood(s, player, change);
      case ReadClock(task) =>
        ClockGood(s, task);
      case WriteHash(task, effect, ok) =>
        if task < |s.tasks| && s.stages[task].Clocked? {
          RecordGood(s, task, s.stages[task].at, effect, ok);
        } else if task < |s.tasks| && s.stages[task] == Waiting && s.tasks[task].change == Disconnect {
          RecordGood(s, task, s.now, effect, ok);
        }
        hide Record, GoodWrites, GoodPublished, GoodClocks, Apply;
      case Publish(task, effect) =>
        PublishGood(s, task, effect);
    }
  }

  lemma {:induction false} NothingYet(s: State)
    requires s.tasks == [] && s.stages == [] && s.writes == [] && s.published == [] && s.channel == []
    requires s.clocks == map[] && s.hash == Apply(Track, s.writes)
    ensures Good(s)
  {
    hide Apply, Track, Print, Wrote, Events.ToJson, EventOf;
  }

  lemma {:induction false} RunGood(ls: seq<Label>)
    ensures Good(Run(ls))
  {
    if ls == [] {
      ApplyNone<string, string, Stamped>(Track);
      hide Good, Apply, Track;
      NothingYet(Run(ls));
    } else {
      hide Good, Step;
      RunGood(ls[..|ls| - 1]);
      StepGood(Run(ls[..|ls| - 1]), ls[|ls| - 1]);
    }
  }

  // ------------------------------------------------------------------
  // What holds in every run
  // ------------------------------------------------------------------

  // A lifecycle event is on the channel only once its change of the hash took effect,
  // and at most once: whoever hears of a disconnect will not find that task's removal
  // still to come.
  lemma {:induction false} PublishedAfterRecorded(ls: seq<Label>)
    ensures var s := Run(ls);
      && |s.channel| == |s.published|
      && (forall j :: 0 <= j < |s.published| ==>
            && s.published[j] < |s.tasks| && Wrote(s.writes, s.published[j])
            && s.channel[j] == Events.ToJson(EventOf(s.tasks[s.published[j]].player, s.tasks[s.published[j]].change)))
      && forall i, j :: 0 <= i < j < |s.published| ==> s.published[i] != s.published[j]
  {
    RunGood(ls);
  }

  // The player's last submitted task.
  function LastTask(tasks: seq<Task>, player: Uuid): (r: Option<nat>)
    ensures r.Some? ==> r.value < |tasks| && tasks[r.value].player == player
    ensures r.Some? ==> forall t :: r.value < t < |tasks| ==> tasks[t].player != player
    ensures r.None? ==> forall t :: 0 <= t < |tasks| ==> tasks[t].player != player
  {
    if tasks == [] then None
    else if tasks[|tasks| - 1].player == player then Some(|tasks| - 1)
    else LastTask(tasks[..|tasks| - 1], player)
  }

  // The last change to the player's entry was made by the player's last submitted task.
  ghost predicate Current(s: State, player: Uuid) {
    match LastTask(s.tasks, player)
    case None => true
    case Some(n) =>
      exists i :: 0 <= i < |s.writes| && s.writes[i].change.task == n && NoneLater(s.writes, i, Print(player))
  }

  ghost predicate NoneLater(writes: seq<Op<string, Stamped>>, i: nat, key: string) {
    forall j :: i < j < |writes| ==> writes[j].key != key
  }

  // The entry of a key is what the last change to it left.
  lemma {:induction false} LastWriteDecides(writes: seq<Op<string, Stamped>>, key: string) returns (last: Option<nat>)
    ensures match last
      case None => key !in Apply(Track, writes) && forall i :: 0 <= i < |writes| ==> writes[i].key != key
      case Some(n) =>
        && n < |writes| && writes[n].key == key
        && Get(Apply(Track, writes), key) == Track(None, writes[n].change)
        && forall i :: n < i < |writes| ==> writes[i].key != key
  {
    hide SessionJson;
    if writes == [] {
      last := None;
    } else if writes[|writes| - 1].key == key {
      last := Some(|writes| - 1);
    } else {
      last := LastWriteDecides(writes[..|writes| - 1], key);
    }
  }

  // Whichever task changed the entry last decides it, and that is the player's last
  // submitted one exactly when the entry is current.
  lemma {:induction false} LastWrittenDecides(ls: seq<Label>, player: Uuid, k: nat)
    requires k < |Run(ls).writes| && Run(ls).writes[k].key == Print(player)
    requires NoneLater(Run(ls).writes, k, Print(player))
    ensures var s := Run(ls);
      && Get(s.hash, Print(player)) == Track(None, s.writes[k].change)
      && (Current(s, player) <==> LastTask(s.tasks, player) == Some(s.writes[k].change.task))
  {
    RunGood(ls);
    var s := Run(ls);
    hide Run, Apply, Print, SessionJson, GoodPublished, GoodStages, GoodClocks;
    var n := LastWriteDecides(s.writes, Print(player));
    assert n == Some(k);
    assert s.writes[k].key == Print(s.tasks[s.writes[k].change.task].player);
    SamePrint(s.tasks[s.writes[k].change.task].player, player);
  }

  // Every task of the player has changed the hash, in the order of submission.
  ghost predicate RanInOrder(s: State, player: Uuid) {
    && (forall t :: 0 <= t < |s.tasks| && s.tasks[t].player == player ==> Wrote(s.writes, t))
    && forall i, j :: 0 <= i < j < |s.writes| && s.writes[i].key == Print(player) && s.writes[j].key == Print(player)
         ==> s.writes[i].change.task < s.writes[j].change.task
  }

  // Running in order is enough, though not needed.
  lemma {:induction false} InOrderIsCurrent(ls: seq<Label>, player: Uuid)
    requires RanInOrder(Run(ls), player)
    ensures Current(Run(ls), player)
  {
    RunGood(ls);
    var s := Run(ls);
    hide Run, Apply, SessionJson, GoodPublished, GoodStages, GoodClocks;
    var last := LastTask(s.tasks, player);
    if last.Some? {
      assert Wrote(s.writes, last.value);
      var i :| 0 <= i < |s.writes| && s.writes[i].change.task == last.value;
      forall j | i < j < |s.writes|
        ensures s.writes[j].key != Print(player)
      {
        SamePrint(s.tasks[s.writes[j].change.task].player, player);
      }
      assert NoneLater(s.writes, i, Print(player));
    }
  }

  // A current entry: none if the player has no task or the last one was a disconnect,
  // otherwise the name and server of the last one with the time its task read from the
  // clock, so not before it was submitted.
  lemma {:induction false} LastTaskDecides(ls: seq<Label>, player: Uuid) returns (at: nat)
    requires Current(Run(ls), player)
    ensures var s := Run(ls);
      var last := LastTask(s.tasks, player);
      && (last.None? ==> Print(player) !in s.hash)
      && (last.Some? ==>
            && Get(s.hash, Print(player)) == Track(None, Stamped(last.value, s.tasks[last.value].change, at))
            && s.tasks[last.value].submitted <= at <= s.now
            && (s.tasks[last.value].change != Disconnect ==> last.value in s.clocks && s.clocks[last.value] == at))
  {
    RunGood(ls);
    var s := Run(ls);
    hide Run, Apply, Print, SessionJson, GoodPublished, GoodStages;
    var last := LastTask(s.tasks, player);
    at := 0;
    if last.Some? {
      var i :| 0 <= i < |s.writes| && s.writes[i].change.task == last.value && NoneLater(s.writes, i, Print(player));
      LastWrittenDecides(ls, player, i);
      at := s.writes[i].change.at;
    } else {
      var n := LastWriteDecides(s.writes, Print(player));
      if n.Some? {
        SamePrint(s.tasks[s.writes[n.value].change.task].player, player);
      }
    }
  }

  // What the relay lists: the entries it can read.
  function Listing(hash: map<string, string>): map<string, StoredSession> {
    map k | k in hash && ParseEntry(hash[k]).Some? :: ParseEntry(hash[k]).value
  }

  // A player has an entry exactly when the last task was a login or a switch; and the
  // relay lists that task's name, server and clock reading exactly when both names are
  // plain and the time fits 64 bits.
  lemma {:induction false} ListedExactly(ls: seq<Label>, player: Uuid) returns (at: nat)
    requires Current(Run(ls), player)
    ensures var s := Run(ls);
      var last := LastTask(s.tasks, player);
      if last.None? || s.tasks[last.value].change == Disconnect then
        Print(player) !in s.hash && Print(player) !in Listing(s.hash)
      else
        var t := s.tasks[last.value];
        var server := if t.change.Login? then "" else t.change.server;
        && Print(player) in s.hash
        && t.submitted <= at <= s.now && last.value in s.clocks && s.clocks[last.value] == at
        && (Get(Listing(s.hash), Print(player)) == Some(StoredSession(t.change.username, server, at))
            <==> Plain(t.change.username) && Plain(server) && at < I64_LIMIT)
  {
    at := LastTaskDecides(ls, player);
    var s := Run(ls);
    var last := LastTask(s.tasks, player);
    hide Run, ParseEntry, SessionJson, Print, LastTask, Plain;
    if Print(player) in s.hash {
      var t := s.tasks[last.value];
      var server := if t.change.Login? then "" else t.change.server;
      EntryReadsBackExactly(t.change.username, server, at);
    }
  }

  // ------------------------------------------------------------------
  // The recorded time
  // ------------------------------------------------------------------

  lemma {:induction false} SessionText(username: string, server: string, joinedAt: nat)
    ensures SessionJson(username, server, joinedAt)
         == "{" + FieldText(Field("username", Text(username))) + "," + FieldText(Field("server", Text(server))) + ","
          + Quote("joined_at") + ":" + Decimal(joinedAt) + "}"
  {
    hide Decimal;
    var fs := SessionFields(username, server, joinedAt);
    assert fs[1..][1..] == fs[2..];
    assert FieldsText(fs[2..]) == FieldText(fs[2]) + "}";
    assert FieldsText(fs[1..]) == FieldText(fs[1]) + "," + FieldsText(fs[2..]);
    assert FieldsText(fs) == FieldText(fs[0]) + "," + FieldsText(fs[1..]);
    hide FieldsText, FieldText, Quote;
    FlattenSession(FieldText(fs[0]), FieldText(fs[1]), Quote("joined_at"), Decimal(joinedAt));
  }

  lemma {:induction false} FlattenSession(a: string, b: string, c: string, d: string)
    ensures "{" + (a + "," + (b + "," + (c + (":" + d) + "}"))) == "{" + a + "," + b + "," + c + ":" + d + "}"
    ensures c + (":" + d) == c + ":" + d
  {
  }

  lemma {:induction false} LastNumber(x: string, d: string, y: string, e: string)
    requires forall i :: 0 <= i < |d| ==> IsDigit(d[i])
    requires forall i :: 0 <= i < |e| ==> IsDigit(e[i])
    requires x + ":" + d + "}" == y + ":" + e + "}"
    ensures d == e
  {
    var z, z' := x + ":" + d + "}", y + ":" + e + "}";
    assert z[|x|] == ':' && forall k :: |x| < k < |z| ==> z[k] != ':';
    assert z'[|y|] == ':' && forall k :: |y| < k < |z'| ==> z'[k] != ':';
    assert |x| == |y|;
    assert z[|x| + 1..|z| - 1] == d && z'[|y| + 1..|z'| - 1] == e;
  }

  // An entry's text determines its time, even when names make it unreadable.
  lemma {:induction false} SameTime(u: string, s: string, t: nat, u': string, s': string, t': nat)
    requires SessionJson(u, s, t) == SessionJson(u', s', t')
    ensures t == t'
  {
    hide SessionJson, FieldText, Quote, Decimal;
    SessionText(u, s, t);
    SessionText(u', s', t');
    var f, f' := FieldText(Field("username", Text(u))), FieldText(Field("username", Text(u')));
    var g, g' := FieldText(Field("server", Text(s))), FieldText(Field("server", Text(s')));
    LastNumber(
      "{" + f + "," + g + "," + Quote("joined_at"), Decimal(t),
      "{" + f' + "," + g' + "," + Quote("joined_at"), Decimal(t'));
    DecimalValue(t);
    DecimalValue(t');
  }

  ghost predicate HasTime(e: Option<string>, at: nat) {
    exists username, server :: e == Some(SessionJson(username, server, at))
  }

  lemma {:induction false} TrackedTime(c: Stamped, at: nat)
    ensures HasTime(Track(None, c), at) <==> c.change != Disconnect && c.at == at
  {
    hide SessionJson;
    if HasTime(Track(None, c), at) {
      var username, server :| Track(None, c) == Some(SessionJson(username, server, at));
      if c.change.Login? {
        SameTime(c.change.username, "", c.at, username, server, at);
      } else if c.change.Switch? {
        SameTime(c.change.username, c.change.server, c.at, username, server, at);
      }
    }
  }

  // The time in a current entry is what the player's last task read from the clock.
  lemma {:induction false} JoinedAtExactly(ls: seq<Label>, player: Uuid, at: nat)
    requires Current(Run(ls), player)
    ensures var s := Run(ls);
      var last := LastTask(s.tasks, player);
      HasTime(Get(s.hash, Print(player)), at)
      <==> && last.Some? && s.tasks[last.value].change != Disconnect
           && last.value in s.clocks && s.clocks[last.value] == at
  {
    var read := LastTaskDecides(ls, player);
    var s := Run(ls);
    var last := LastTask(s.tasks, player);
    hide Run, Track, SessionJson, Print, Current, LastTask;
    if last.Some? {
      TrackedTime(Stamped(last.value, s.tasks[last.value].change, read), at);
    } else {
      hide HasTime;
      NoTime(s.hash, Print(player), at);
    }
  }

  lemma {:induction false} NoTime(h: map<string, string>, key: string, at: nat)
    requires key !in h
    ensures !HasTime(Get(h, key), at)
  {
  }

  // So an entry carries the time of the login by task n exactly while that login is the
  // player's last task, given that what came after was submitted in a later second.
  lemma {:induction false} JoinedAtIsLoginExactly(ls: seq<Label>, player: Uuid, i: nat)
    requires Current(Run(ls), player)
    requires i < |Run(ls).writes| && Run(ls).writes[i].key == Print(player)
    requires Run(ls).writes[i].change.change.Login?
    requires var s := Run(ls);
      forall t :: s.writes[i].change.task < t < |s.tasks| && s.tasks[t].player == player
        ==> s.writes[i].change.at < s.tasks[t].submitted
    ensures var s := Run(ls);
      HasTime(Get(s.hash, Print(player)), s.writes[i].change.at)
      <==> LastTask(s.tasks, player) == Some(s.writes[i].change.task)
  {
    RunGood(ls);
    var s := Run(ls);
    var w := s.writes[i].change;
    assert w.task < |s.tasks| && w.change == s.tasks[w.task].change && s.writes[i].key == Print(s.tasks[w.task].player);
    assert w.task in s.clocks && s.clocks[w.task] == w.at;
    JoinedAtExactly(ls, player, w.at);
    var read := LastTaskDecides(ls, player);
    SamePrint(s.tasks[w.task].player, player);
    hide Run, Good, GoodWrites, GoodStages, GoodClocks, GoodPublished, Track, Print, Current, HasTime, Get;
  }

  // What the player did, in order of submission.
  function Lifecycle(tasks: seq<Task>, player: Uuid): seq<Change> {
    if tasks == [] then []
    else
      var t := tasks[|tasks| - 1];
      Lifecycle(tasks[..|tasks| - 1], player) + if t.player == player then [t.change] else []
  }

  lemma {:induction false} LastOfLifecycle(tasks: seq<Task>, player: Uuid)
    ensures var last, changes := LastTask(tasks, player), Lifecycle(tasks, player);
      && (last.None? <==> changes == [])
      && (last.Some? ==> changes[|changes| - 1] == tasks[last.value].change)
  {
    if tasks != [] {
      LastOfLifecycle(tasks[..|tasks| - 1], player);
    }
  }

  // Entries equal but for the time.
  ghost predicate SameUpToTime(e: Option<string>, e': Option<string>) {
    || (e.None? && e'.None?)
    || exists username, server, at, at'
         {:trigger SessionJson(username, server, at), SessionJson(username, server, at')} ::
         e == Some(SessionJson(username, server, at)) && e' == Some(SessionJson(username, server, at'))
  }

  lemma {:induction false} SameChange(c: Change, task: nat, at: nat, task': nat, at': nat)
    ensures SameUpToTime(Track(None, Stamped(task, c, at)), Track(None, Stamped(task', c, at')))
  {
    hide SessionJson;
  }

  // Two runs in which a player did the same things in the same order leave that player
  // the same entry up to the recorded time.
  lemma {:induction false} EntryConfluence(ls: seq<Label>, other: seq<Label>, player: Uuid)
    requires Current(Run(ls), player) && Current(Run(other), player)
    requires Lifecycle(Run(ls).tasks, player) == Lifecycle(Run(other).tasks, player)
    ensures SameUpToTime(Get(Run(ls).hash, Print(player)), Get(Run(other).hash, Print(player)))
  {
    hide Run, Current, Lifecycle, LastTask, Track, Print, Get, SameUpToTime;
    var s, t := Run(ls), Run(other);
    var at := LastTaskDecides(ls, player);
    var at' := LastTaskDecides(other, player);
    LastOfLifecycle(s.tasks, player);
    LastOfLifecycle(t.tasks, player);
    var last, last' := LastTask(s.tasks, player), LastTask(t.tasks, player);
    if last.Some? {
      SameChange(s.tasks[last.value].change, last.value, at, last'.value, at');
    } else {
      NoEntries(s.hash, t.hash, Print(player));
    }
  }

  lemma {:induction false} NoEntries(h: map<string, string>, h': map<string, string>, key: string)
    requires key !in h && key !in h'
    ensures SameUpToTime(Get(h, key), Get(h', key))
  {
  }

  lemma {:induction false} KeyIsPlayer(ls: seq<Label>, key: string) returns (player: Uuid)
    requires key in Run(ls).hash
    ensures key == Print(player)
  {
    RunGood(ls);
    var s := Run(ls);
    hide Run, Apply, Print, Track, GoodPublished, GoodStages, GoodClocks;
    var n := LastWriteDecides(s.writes, key);
    player := s.tasks[s.writes[n.value].change.task].player;
  }

  // Two runs in which every player did the same things in the same order, whatever the
  // interleaving, the timing and the failures to publish, end in the same hash up to the
  // recorded times.
  lemma {:induction false} HashConfluence(ls: seq<Label>, other: seq<Label>)
    requires forall p: Uuid :: Current(Run(ls), p) && Current(Run(other), p)
    requires forall p: Uuid :: Lifecycle(Run(ls).tasks, p) == Lifecycle(Run(other).tasks, p)
    ensures forall key :: SameUpToTime(Get(Run(ls).hash, key), Get(Run(other).hash, key))
  {
    hide Run, Print, SameUpToTime, Current, Lifecycle;
    forall key: string
      ensures SameUpToTime(Get(Run(ls).hash, key), Get(Run(other).hash, key))
    {
      if key in Run(ls).hash {
        var player := KeyIsPlayer(ls, key);
        EntryConfluence(ls, other, player);
      } else if key in Run(other).hash {
        var player := KeyIsPlayer(other, key);
        EntryConfluence(ls, other, player);
      } else {
        NoEntries(Run(ls).hash, Run(other).hash, key);
      }
    }
  }

  // The order of submission matters: from any state, a login overtaken by the disconnect
  // submitted after it leaves the player in the hash.
  lemma {:induction false} OvertakenLoginStays(s: State, player: Uuid, username: string)
    requires |s.stages| == |s.tasks|
    ensures var n := |s.tasks|;
      var submitted := Step(Step(s, Submit(player, Login(username))), Submit(player, Disconnect));
      var left := Step(submitted, WriteHash(n + 1, true, true));
      var end := Step(Step(left, ReadClock(n)), WriteHash(n, true, true));
      && LastTask(end.tasks, player) == Some(n + 1) && end.tasks[n + 1].change == Disconnect
      && end.stages[n] == Recorded && end.stages[n + 1] == Recorded
      && Get(end.hash, Print(player)) == Some(SessionJson(username, "", s.now))
  {
    hide SessionJson, Print;
    var n := |s.tasks|;
    var submitted := Step(Step(s, Submit(player, Login(username))), Submit(player, Disconnect));
    assert submitted.tasks[n].change == Login(username) && submitted.tasks[n + 1].change == Disconnect;
    assert submitted.stages[n] == Waiting && submitted.stages[n + 1] == Waiting;
    var left := Step(submitted, WriteHash(n + 1, true, true));
    assert left.stages == submitted.stages[n + 1 := Recorded] && left.tasks == submitted.tasks && left.now == s.now;
    var clocked := Step(left, ReadClock(n));
    assert clocked.stages[n] == Clocked(s.now) && clocked.tasks == submitted.tasks;
  }

  // The recorded time is not that of the first login: whatever the entry was before, a
  // switch puts the time of its own task there.
  lemma {:induction false} SwitchRewritesJoinedAt(
    s: State, player: Uuid, username: string, server: string, seconds: nat
  )
    requires |s.stages| == |s.tasks|
    ensures var n := |s.tasks|;
      var waited := Step(Step(s, Submit(player, Switch(username, server))), Tick(seconds));
      Get(Step(Step(waited, ReadClock(n)), WriteHash(n, true, true)).hash, Print(player))
      == Some(SessionJson(username, server, s.now + seconds))
  {
    hide SessionJson, Print;
    var n := |s.tasks|;
    var waited := Step(Step(s, Submit(player, Switch(username, server))), Tick(seconds));
    var clocked := Step(waited, ReadClock(n));
    assert clocked.stages[n] == Clocked(s.now + seconds) && clocked.tasks[n].change == Switch(username, server);
  }

  // ------------------------------------------------------------------
  // The listeners' tasks, in place
  // ------------------------------------------------------------------

  method SessionJoin(redis: Redis, playerUuid: string, username: string, server: string)
    modifies redis`sessions
    ensures redis.sessions == old(redis.sessions)[playerUuid := SessionJson(username, server, redis.now)]
  {
    var json := SessionJson(username, server, redis.now);
    redis.Hset(playerUuid, json);
  }

  method SessionLeave(redis: Redis, playerUuid: string)
    modifies redis`sessions
    ensures redis.sessions == old(redis.sessions) - {playerUuid}
  {
    redis.Hdel(playerUuid);
  }

  ghost predicate Represents(redis: Redis, s: State)
    reads redis
  {
    redis.now == s.now && redis.sessions == s.hash && redis.channel == s.channel && |s.stages| == |s.tasks|
  }

  // The last submitted task from start to end, nothing failing and nothing in between.
  function RunLast(s: State): State
    requires |s.stages| == |s.tasks| > 0
  {
    var n := |s.tasks| - 1;
    Step(Step(Step(s, ReadClock(n)), WriteHash(n, true, true)), Publish(n, true))
  }

  lemma {:induction false} RunLastEffect(s: State, player: Uuid, change: Change)
    requires |s.stages| == |s.tasks|
    ensures var s' := RunLast(Step(s, Submit(player, change)));
      && s'.now == s.now
      && s'.hash == Put(s.hash, Print(player), Track(None, Stamped(|s.tasks|, change, s.now)))
      && s'.channel == s.channel + [Events.ToJson(EventOf(player, change))]
  {
    hide SessionJson, Print, Events.ToJson, EventOf, Put;
    var n := |s.tasks|;
    var submitted := Step(s, Submit(player, change));
    assert submitted.tasks[n] == Task(player, change, s.now) && submitted.stages[n] == Waiting;
    var clocked := Step(submitted, ReadClock(n));
    assert clocked.tasks == submitted.tasks && clocked.hash == s.hash && clocked.channel == s.channel;
    var recorded := Step(clocked, WriteHash(n, true, true));
    assert recorded.tasks == submitted.tasks && recorded.stages[n] == Recorded && recorded.channel == s.channel;
  }

  method OnPostLogin(redis: Redis, player: Uuid, username: string, ghost s: State)
    requires Represents(redis, s)
    modifies redis`sessions, redis`channel, redis`recent
    ensures Represents(redis, RunLast(Step(s, Submit(player, Login(username)))))
    ensures redis.recent
         == Trim([Events.ToJson(Events.PlayerConnect(player, username))] + old(redis.recent), Feed.CAP - 1)
  {
    RunLastEffect(s, player, Login(username));
    hide Step, RunLast, SessionJson, Print, Events.ToJson;
    var playerId := Print(player);
    SessionJoin(redis, playerId, username, "");
    Feed.PublishAndRecord(redis, Events.ToJson(Events.PlayerConnect(player, username)));
  }

  method OnServerConnected(redis: Redis, player: Uuid, username: string, server: string, ghost s: State)
    requires Represents(redis, s)
    modifies redis`sessions, redis`channel, redis`recent
    ensures Represents(redis, RunLast(Step(s, Submit(player, Switch(username, server)))))
    ensures redis.recent == Trim([Events.ToJson(Events.ServerSwitch(player, server))] + old(redis.recent), Feed.CAP - 1)
  {
    RunLastEffect(s, player, Switch(username, server));
    hide Step, RunLast, SessionJson, Print, Events.ToJson;
    var playerId := Print(player);
    SessionJoin(redis, playerId, username, server);
    Feed.PublishAndRecord(redis, Events.ToJson(Events.ServerSwitch(player, server)));
  }

  method OnDisconnect(redis: Redis, player: Uuid, ghost s: State)
    requires Represents(redis, s)
    modifies redis`sessions, redis`channel, redis`recent
    ensures Represents(redis, RunLast(Step(s, Submit(player, Disconnect))))
    ensures redis.recent == Trim([Events.ToJson(Events.PlayerDisconnect(player))] + old(redis.recent), Feed.CAP - 1)
  {
    RunLastEffect(s, player, Disconnect);
    hide Step, RunLast, SessionJson, Print, Events.ToJson;
    var playerId := Print(player);
    SessionLeave(redis, playerId);
    Feed.PublishAndRecord(redis, Events.ToJson(Events.PlayerDisconnect(player)));
  }

  // ------------------------------------------------------------------
  // Read off the run
  // ------------------------------------------------------------------

  function Seconds(ls: seq<Label>): nat {
    if ls == [] then 0
    else Seconds(ls[..|ls| - 1]) + match ls[|ls| - 1] case Tick(seconds) => seconds case _ => 0
  }

  // The tasks submitted, each at its time.
  function Submissions(ls: seq<Label>): seq<Task> {
    if ls == [] then []
    else
      var n := |ls| - 1;
      Submissions(ls[..n])
        + match ls[n] case Submit(player, change) => [Task(player, change, Seconds(ls[..n]))] case _ => []
  }

  lemma {:induction false} TasksAreSubmissions(ls: seq<Label>)
    ensures Run(ls).now == Seconds(ls) && Run(ls).tasks == Submissions(ls)
  {
    hide Record;
    if ls != [] {
      TasksAreSubmissions(ls[..|ls| - 1]);
      RecordKeeps(Run(ls[..|ls| - 1]), ls[|ls| - 1]);
    }
  }

  lemma {:induction false} RecordKeeps(s: State, l: Label)
    requires |s.stages| == |s.tasks|
    ensures l.WriteHash? ==> Step(s, l).now == s.now && Step(s, l).tasks == s.tasks && Step(s, l).clocks == s.clocks
  {
    hide Track, Get, Put;
  }

  // A task's clock reading is the time at which it read the clock.
  lemma {:induction false} ClockWasRead(ls: seq<Label>, task: nat) returns (k: nat)
    requires task in Run(ls).clocks
    ensures k < |ls| && ls[k] == ReadClock(task) && Run(ls).clocks[task] == Seconds(ls[..k])
  {
    hide Record;
    var n := |ls| - 1;
    var s := Run(ls[..n]);
    RecordKeeps(s, ls[n]);
    TasksAreSubmissions(ls[..n]);
    if task in s.clocks && Run(ls).clocks[task] == s.clocks[task] {
      k := ClockWasRead(ls[..n], task);
      assert ls[..n][..k] == ls[..k];
    } else {
      k := n;
    }
  }

  // A command that takes effect changes the player's entry whether or not its reply
  // comes; one that does not leaves the hash alone.
  lemma {:induction false} EffectIsWritten(ls: seq<Label>, task: nat, effect: bool, ok: bool)
    requires task < |Run(ls).tasks| && Run(ls).stages[task].Clocked? && (ok ==> effect)
    ensures var s, t := Run(ls), Run(ls + [WriteHash(task, effect, ok)]);
      var key := Print(s.tasks[task].player);
      && task in s.clocks
      && match s.tasks[task].change
      case Login(username) =>
        t.hash == if effect then s.hash[key := SessionJson(username, "", s.clocks[task])] else s.hash
      case Switch(username, server) =>
        t.hash == if effect then s.hash[key := SessionJson(username, server, s.clocks[task])] else s.hash
      case Disconnect => true
  {
    assert (ls + [WriteHash(task, effect, ok)])[..|ls|] == ls;
    RunGood(ls);
    hide SessionJson, Print, Run;
    var s := Run(ls);
    assert GoodClocks(s.stages, s.clocks, s.writes);
  }
}
