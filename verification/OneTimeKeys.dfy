// Single-use keys: five kinds of short-lived key share one Redis keyspace, written by
// the plugin or a relay node and consumed by GETDEL from any node. The credentials
// minted from them, and who accepts those.
module OneTimeKeys {
  import opened Options
  import opened Uuids
  import opened RedisServer

  datatype Family = AudioOtt | PortalOtt | AdminOtt | AdminTicket | PendingUpload

  function Prefix(f: Family): string {
    match f
    case AudioOtt => "audio:auth:token:"
    case PortalOtt => "audio:portal:token:"
    case AdminOtt => "admin:login:"
    case AdminTicket => "admin:ticket:"
    case PendingUpload => "audio:media:pending:"
  }

  function Ttl(f: Family): nat {
    match f
    case AudioOtt => 60
    case PortalOtt => 300
    case AdminOtt => 300
    case AdminTicket => 15
    case PendingUpload => 3600
  }

  function Key(f: Family, token: string): string {
    Prefix(f) + token
  }

  // No text a client supplies makes a key of one family out of another's prefix.
  lemma {:induction false} KeysApart(f: Family, token: string, g: Family, other: string)
    ensures Key(f, token) == Key(g, other) <==> f == g && token == other
  {
    if Key(f, token) == Key(g, other) {
      assert Key(f, token)[1] == Prefix(f)[1] && Key(g, other)[1] == Prefix(g)[1];
      assert Key(f, token)[6] == Prefix(f)[6] && Key(g, other)[6] == Prefix(g)[6];
      assert f == g;
      assert Key(f, token)[|Prefix(f)|..] == token && Key(g, other)[|Prefix(g)|..] == other;
    }
  }

  // ------------------------------------------------------------------
  // What a key stands for, and its text
  // ------------------------------------------------------------------

  datatype Subject =
    | Listener(uuid: Uuid)
    | PortalUser(uuid: Uuid, username: string)
    | Administrator(uuid: Uuid)
    | FeedTicket
    | Upload(pendingJson: string)

  function FamilyOf(s: Subject): Family {
    match s
    case Listener(_) => AudioOtt
    case PortalUser(_, _) => PortalOtt
    case Administrator(_) => AdminOtt
    case FeedTicket => AdminTicket
    case Upload(_) => PendingUpload
  }

  function ValueOf(s: Subject): string {
    match s
    case Listener(uuid) => Print(uuid)
    case PortalUser(uuid, username) => Print(uuid) + ":" + username
    case Administrator(uuid) => Print(uuid)
    case FeedTicket => ""
    case Upload(pendingJson) => pendingJson
  }

  // Splits at the first colon.
  function SplitOnce(s: string): (r: Option<(string, string)>)
    ensures r.None? <==> ':' !in s
    ensures r.Some? ==> s == r.value.0 + ":" + r.value.1 && ':' !in r.value.0
  {
    if s == "" then None
    else if s[0] == ':' then Some(("", s[1..]))
    else
      var rest :- SplitOnce(s[1..]);
      Some(([s[0]] + rest.0, rest.1))
  }

  predicate IsWhitespace(c: char) {
    || '\t' <= c <= '\r' || c == ' ' || c == '\U{85}' || c == '\U{A0}' || c == '\U{1680}'
    || '\U{2000}' <= c <= '\U{200A}' || c == '\U{2028}' || c == '\U{2029}' || c == '\U{202F}'
    || c == '\U{205F}' || c == '\U{3000}'
  }

  function Trimmed(s: string): string {
    if s != "" && IsWhitespace(s[0]) then Trimmed(s[1..])
    else if s != "" && IsWhitespace(s[|s| - 1]) then Trimmed(s[..|s| - 1])
    else s
  }

  // What the consumer of a family reads out of a value.
  function Decode(f: Family, value: string): Option<Subject> {
    match f
    case AudioOtt =>
      var uuid :- Parse(value);
      Some(Listener(uuid))
    case PortalOtt =>
      var (left, username) :- SplitOnce(value);
      var uuid :- Parse(left);
      Some(PortalUser(uuid, username))
    case AdminOtt =>
      var uuid :- Parse(Trimmed(value));
      Some(Administrator(uuid))
    case AdminTicket => Some(FeedTicket)
    case PendingUpload => Some(Upload(value))
  }

  lemma {:induction false} SplitFirst(left: string, right: string)
    requires ':' !in left
    ensures SplitOnce(left + ":" + right) == Some((left, right))
  {
    var s := left + ":" + right;
    if left == "" {
      assert s[1..] == right;
    } else {
      assert s[1..] == left[1..] + ":" + right;
      SplitFirst(left[1..], right);
      assert [left[0]] + left[1..] == left;
    }
  }

  lemma {:induction false} PrintNotTrimmed(uuid: Uuid)
    ensures Trimmed(Print(uuid)) == Print(uuid)
  {
    PrintCharacters(uuid);
    hide Print;
    assert Print(uuid)[0] in Print(uuid) && Print(uuid)[35] in Print(uuid);
  }

  ghost predicate AllWhitespace(s: string) {
    forall i :: 0 <= i < |s| ==> IsWhitespace(s[i])
  }

  ghost predicate Bare(s: string) {
    s != "" && !IsWhitespace(s[0]) && !IsWhitespace(s[|s| - 1])
  }

  lemma {:induction false} TrimsBehind(core: string, behind: string)
    requires Bare(core) && AllWhitespace(behind)
    ensures Trimmed(core + behind) == core
    decreases |behind|
  {
    var t := core + behind;
    assert t[0] == core[0];
    if behind == "" {
      assert t == core;
    } else {
      var n := |behind| - 1;
      assert t[|t| - 1] == behind[n] && t[..|t| - 1] == core + behind[..n];
      TrimsBehind(core, behind[..n]);
    }
  }

  // Trimming takes away the white space around a text, and nothing else.
  lemma {:induction false} TrimsAround(before: string, core: string, behind: string)
    requires AllWhitespace(before) && Bare(core) && AllWhitespace(behind)
    ensures Trimmed(before + core + behind) == core
    decreases |before|
  {
    var t := before + core + behind;
    if before == "" {
      assert t == core + behind;
      TrimsBehind(core, behind);
    } else {
      assert t[0] == before[0] && t[1..] == before[1..] + core + behind;
      TrimsAround(before[1..], core, behind);
    }
  }

  // An admin link is read although white space got around the identifier.
  lemma {:induction false} AdminLinkTolerates(before: string, uuid: Uuid, behind: string)
    requires AllWhitespace(before) && AllWhitespace(behind)
    ensures Decode(AdminOtt, before + Print(uuid) + behind) == Some(Administrator(uuid))
  {
    PrintCharacters(uuid);
    PrintReadsBack(uuid);
    hide Print, Parse, Trimmed;
    assert Print(uuid)[0] in Print(uuid) && Print(uuid)[35] in Print(uuid);
    TrimsAround(before, Print(uuid), behind);
  }

  // Every consumer gets back what its issuer wrote, whatever the username.
  lemma {:induction false} DecodesOwn(s: Subject)
    ensures Decode(FamilyOf(s), ValueOf(s)) == Some(s)
  {
    match s
    case Listener(uuid) => PrintReadsBack(uuid);
    case PortalUser(uuid, username) =>
      PrintReadsBack(uuid);
      PrintCharacters(uuid);
      hide Parse, Print;
      SplitFirst(Print(uuid), username);
    case Administrator(uuid) =>
      PrintReadsBack(uuid);
      PrintNotTrimmed(uuid);
      hide Parse, Print;
    case _ =>
  }

  // ------------------------------------------------------------------
  // The system
  // ------------------------------------------------------------------

  datatype Issue = Issue(subject: Subject, token: string, time: nat)

  // A consumer that went through; `lifetime` is the node's token lifetime.
  datatype Grant = Grant(issue: nat, family: Family, subject: Subject, time: nat, lifetime: nat)

  datatype PasswordLogin = PasswordLogin(admin: Uuid, time: nat, lifetime: nat)

  datatype State = State(
    now: nat,
    keys: map<string, Entry>,
    origin: map<string, nat>,   // which issue wrote the key's present value
    issues: seq<Issue>,
    grants: seq<Grant>,
    logins: seq<PasswordLogin>)

  datatype Label =
    | Tick(seconds: nat)
    | Write(subject: Subject, token: string)
    // `through` is false when the reply is lost or a later step of the handler fails.
    | Consume(family: Family, token: string, through: bool, lifetime: nat)
    | Login(admin: Uuid, lifetime: nat)

  function Step(s: State, l: Label): State
    requires s.keys.Keys == s.origin.Keys
  {
    match l
    case Tick(seconds) => s.(now := s.now + seconds)
    case Write(subject, token) =>
      var key := Key(FamilyOf(subject), token);
      s.(keys := s.keys[key := Entry(ValueOf(subject), s.now + Ttl(FamilyOf(subject)))],
         origin := s.origin[key := |s.issues|],
         issues := s.issues + [Issue(subject, token, s.now)])
    case Consume(family, token, through, lifetime) =>
      var key := Key(family, token);
      var value := Lookup(s.keys, key, s.now);
      var decoded := if value.Some? then Decode(family, value.value) else None;
      s.(keys := s.keys - {key}, origin := s.origin - {key},
         grants := s.grants +
           if decoded.Some? && through
           then [Grant(s.origin[key], family, decoded.value, s.now, lifetime)] else [])
    case Login(admin, lifetime) => s.(logins := s.logins + [PasswordLogin(admin, s.now, lifetime)])
  }

  function Run(ls: seq<Label>): (s: State)
    ensures s.keys.Keys == s.origin.Keys
  {
    if ls == [] then State(0, map[], map[], [], [], [])
    else Step(Run(ls[..|ls| - 1]), ls[|ls| - 1])
  }

  // ------------------------------------------------------------------
  // Invariant
  // ------------------------------------------------------------------

  // A key present holds what its issue wrote, and that issue has granted nothing.
  ghost predicate GoodKey(s: State, key: string)
    requires key in s.keys && key in s.origin
  {
    && s.origin[key] < |s.issues|
    && var i := s.issues[s.origin[key]];
    && key == Key(FamilyOf(i.subject), i.token)
    && s.keys[key] == Entry(ValueOf(i.subject), i.time + Ttl(FamilyOf(i.subject)))
    && i.time <= s.now
    && forall g :: 0 <= g < |s.grants| ==> s.grants[g].issue != s.origin[key]
  }

  ghost predicate GoodGrant(issues: seq<Issue>, g: Grant) {
    && g.issue < |issues|
    && var i := issues[g.issue];
    && g.subject == i.subject && g.family == FamilyOf(i.subject)
    && i.time <= g.time < i.time + Ttl(g.family)
  }

  ghost predicate Good(s: State) {
    && s.keys.Keys == s.origin.Keys
    && (forall key :: key in s.keys ==> GoodKey(s, key))
    && (forall g :: 0 <= g < |s.grants| ==> GoodGrant(s.issues, s.grants[g]))
    && (forall g, h :: 0 <= g < h < |s.grants| ==> s.grants[g].issue != s.grants[h].issue)
  }

  lemma {:induction false} WriteGood(s: State, subject: Subject, token: string)
    requires Good(s)
    ensures Good(Step(s, Write(subject, token)))
  {
    hide Key, ValueOf, Decode;
    var s' := Step(s, Write(subject, token));
    forall key | key in s'.keys
      ensures GoodKey(s', key)
    {
      assert key != Key(FamilyOf(subject), token) ==> GoodKey(s, key);
      assert forall g :: 0 <= g < |s.grants| ==> GoodGrant(s.issues, s.grants[g]);
    }
    forall g | 0 <= g < |s'.grants|
      ensures GoodGrant(s'.issues, s'.grants[g])
    {
      assert GoodGrant(s.issues, s.grants[g]);
    }
  }

  // What a consumption that goes through grants.
  lemma {:induction false} Granted(s: State, family: Family, token: string, lifetime: nat)
    requires Good(s)
    requires Lookup(s.keys, Key(family, token), s.now).Some?
    ensures var key := Key(family, token);
      var i := s.issues[s.origin[key]];
      && FamilyOf(i.subject) == family && i.token == token
      && Decode(family, s.keys[key].value) == Some(i.subject)
      && GoodGrant(s.issues, Grant(s.origin[key], family, i.subject, s.now, lifetime))
  {
    var key := Key(family, token);
    assert GoodKey(s, key);
    var i := s.issues[s.origin[key]];
    KeysApart(family, token, FamilyOf(i.subject), i.token);
    DecodesOwn(i.subject);
  }

  lemma {:induction false} ConsumeGood(s: State, family: Family, token: string, through: bool, lifetime: nat)
    requires Good(s)
    ensures Good(Step(s, Consume(family, token, through, lifetime)))
  {
    var key := Key(family, token);
    if Lookup(s.keys, key, s.now).Some? {
      Granted(s, family, token, lifetime);
      assert GoodKey(s, key);
    }
    hide Key, ValueOf, Decode;
    var s' := Step(s, Consume(family, token, through, lifetime));
    forall k | k in s'.keys
      ensures GoodKey(s', k)
    {
      assert GoodKey(s, k);
      assert key in s.keys ==> GoodKey(s, key);
    }
  }

  lemma {:induction false} StepGood(s: State, l: Label)
    requires Good(s)
    ensures Good(Step(s, l))
  {
    match l
    case Tick(_) =>
      forall key | key in s.keys ensures GoodKey(Step(s, l), key) {
        assert GoodKey(s, key);
      }
    case Write(subject, token) => WriteGood(s, subject, token);
    case Consume(family, token, through, lifetime) => ConsumeGood(s, family, token, through, lifetime);
    case Login(_, _) =>
      forall key | key in s.keys ensures GoodKey(Step(s, l), key) {
        assert GoodKey(s, key);
      }
  }

  lemma {:induction false} RunGood(ls: seq<Label>)
    ensures Good(Run(ls))
  {
    if ls != [] {
      RunGood(ls[..|ls| - 1]);
      StepGood(Run(ls[..|ls| - 1]), ls[|ls| - 1]);
    }
  }

  // ------------------------------------------------------------------
  // What holds in every run
  // ------------------------------------------------------------------

  // Whatever the interleaving of writers, consumers on any node, lost replies and time:
  // each issue is granted at most once, only to a consumer of its own family, only
  // before it expires, and for exactly the subject it was written for.
  lemma {:induction false} OneGrantPerIssue(ls: seq<Label>)
    ensures var s := Run(ls);
      && (forall g, h :: 0 <= g < h < |s.grants| ==> s.grants[g].issue != s.grants[h].issue)
      && forall g :: 0 <= g < |s.grants| ==> GoodGrant(s.issues, s.grants[g])
  {
    RunGood(ls);
  }

  // How long each kind of key is good, in seconds.
  lemma {:induction false} GrantedInTime(ls: seq<Label>, g: nat)
    requires g < |Run(ls).grants|
    ensures var s := Run(ls);
      && s.grants[g].issue < |s.issues|
      && s.grants[g].time - s.issues[s.grants[g].issue].time < match s.grants[g].subject
         case Listener(_) => 60
         case PortalUser(_, _) => 300
         case Administrator(_) => 300
         case FeedTicket => 15
         case Upload(_) => 3600
  {
    RunGood(ls);
    hide Run;
    assert GoodGrant(Run(ls).issues, Run(ls).grants[g]);
  }

  lemma {:induction false} RunNext(ls: seq<Label>, l: Label)
    ensures Run(ls + [l]) == Step(Run(ls), l)
  {
    assert (ls + [l])[..|ls + [l]| - 1] == ls;
    assert (ls + [l])[|ls + [l]| - 1] == l;
  }

  function Seconds(ls: seq<Label>): nat {
    if ls == [] then 0
    else Seconds(ls[..|ls| - 1]) + if ls[|ls| - 1].Tick? then ls[|ls| - 1].seconds else 0
  }

  lemma {:induction false} ClockIsTicks(ls: seq<Label>)
    ensures Run(ls).now == Seconds(ls)
  {
    if ls != [] {
      ClockIsTicks(ls[..|ls| - 1]);
    }
  }

  // Every issue is one of the writes of the run, at its time.
  lemma {:induction false} IssueWasWritten(ls: seq<Label>, i: nat) returns (k: nat)
    requires i < |Run(ls).issues|
    ensures var issue := Run(ls).issues[i];
      k < |ls| && ls[k] == Write(issue.subject, issue.token) && issue.time == Seconds(ls[..k])
    decreases |ls|
  {
    var n := |ls| - 1;
    if i < |Run(ls[..n]).issues| {
      k := IssueWasWritten(ls[..n], i);
      assert ls[..n][..k] == ls[..k];
      hide Key, ValueOf, Decode;
    } else {
      k := n;
      ClockIsTicks(ls[..n]);
    }
  }

  // Every grant is one of the consumptions of the run that went through, at its time and
  // with the lifetime of the node that took it.
  lemma {:induction false} GrantWasConsumed(ls: seq<Label>, g: nat) returns (k: nat, token: string)
    requires g < |Run(ls).grants|
    ensures var grant := Run(ls).grants[g];
      && k < |ls| && ls[k] == Consume(grant.family, token, true, grant.lifetime) && grant.time == Seconds(ls[..k])
    decreases |ls|
  {
    var n := |ls| - 1;
    if g < |Run(ls[..n]).grants| {
      k, token := GrantWasConsumed(ls[..n], g);
      assert ls[..n][..k] == ls[..k];
      hide Key, ValueOf, Decode;
    } else {
      k, token := n, ls[n].token;
      ClockIsTicks(ls[..n]);
      hide Key, ValueOf, Decode;
    }
  }

  lemma {:induction false} LoginWasMade(ls: seq<Label>, i: nat) returns (k: nat)
    requires i < |Run(ls).logins|
    ensures var l := Run(ls).logins[i];
      k < |ls| && ls[k] == Login(l.admin, l.lifetime) && l.time == Seconds(ls[..k])
    decreases |ls|
  {
    var n := |ls| - 1;
    hide Key, ValueOf, Decode;
    if i < |Run(ls[..n]).logins| {
      k := LoginWasMade(ls[..n], i);
      assert ls[..n][..k] == ls[..k];
    } else {
      k := n;
      ClockIsTicks(ls[..n]);
    }
  }

  // A consumer can remove only a key that was written by its own family's issuer under
  // the very token the client presented.
  lemma {:induction false} ConsumesOwnFamilyOnly(
    ls: seq<Label>, family: Family, token: string, through: bool, lifetime: nat, key: string
  )
    requires key in Run(ls).keys
    requires key !in Step(Run(ls), Consume(family, token, through, lifetime)).keys
    ensures Run(ls).origin[key] < |Run(ls).issues|
    ensures var i := Run(ls).issues[Run(ls).origin[key]];
      FamilyOf(i.subject) == family && i.token == token
  {
    RunGood(ls);
    assert GoodKey(Run(ls), key);
    var i := Run(ls).issues[Run(ls).origin[key]];
    KeysApart(family, token, FamilyOf(i.subject), i.token);
  }

  predicate Touches(l: Label, f: Family, token: string) {
    match l
    case Write(subject, t) => FamilyOf(subject) == f && t == token
    case Consume(family, t, _, _) => family == f && t == token
    case _ => false
  }

  ghost predicate Holds(s: State, key: string, e: Entry, issue: nat) {
    key in s.keys && s.keys[key] == e && key in s.origin && s.origin[key] == issue
  }

  lemma {:induction false} StepUntouched(s: State, l: Label, f: Family, token: string, e: Entry, issue: nat)
    requires s.keys.Keys == s.origin.Keys
    requires Holds(s, Key(f, token), e, issue) && !Touches(l, f, token)
    ensures Holds(Step(s, l), Key(f, token), e, issue)
  {
    match l {
      case Write(subject, t) => KeysApart(FamilyOf(subject), t, f, token);
      case Consume(family, t, _, _) => KeysApart(family, t, f, token);
      case _ =>
    }
    hide Key, ValueOf, Decode;
  }

  lemma {:induction false} Untouched(ls: seq<Label>, rest: seq<Label>, f: Family, token: string, e: Entry, issue: nat)
    requires Holds(Run(ls), Key(f, token), e, issue)
    requires forall i :: 0 <= i < |rest| ==> !Touches(rest[i], f, token)
    ensures Holds(Run(ls + rest), Key(f, token), e, issue)
    decreases |rest|
  {
    hide Key, Holds, Step;
    if rest == [] {
      assert ls + rest == ls;
    } else {
      var n := |rest| - 1;
      Untouched(ls, rest[..n], f, token, e, issue);
      assert (ls + rest)[..|ls + rest| - 1] == ls + rest[..n];
      StepUntouched(Run(ls + rest[..n]), rest[n], f, token, e, issue);
    }
  }

  // And the first consumer in time does get it: nothing but a write or consumption of
  // the same family and token stands between an issue and its grant, except time.
  lemma {:induction false} FirstConsumerSucceeds(
    ls: seq<Label>, subject: Subject, token: string, rest: seq<Label>, lifetime: nat
  )
    requires forall i :: 0 <= i < |rest| ==> !Touches(rest[i], FamilyOf(subject), token)
    requires Run(ls + [Write(subject, token)] + rest).now < Run(ls).now + Ttl(FamilyOf(subject))
    ensures var before := Run(ls + [Write(subject, token)] + rest);
      Step(before, Consume(FamilyOf(subject), token, true, lifetime)).grants
      == before.grants + [Grant(|Run(ls).issues|, FamilyOf(subject), subject, before.now, lifetime)]
  {
    var written := ls + [Write(subject, token)];
    assert written[..|ls|] == ls;
    hide Key, ValueOf, Decode;
    var e := Entry(ValueOf(subject), Run(ls).now + Ttl(FamilyOf(subject)));
    Untouched(written, rest, FamilyOf(subject), token, e, |Run(ls).issues|);
    DecodesOwn(subject);
  }

  // ------------------------------------------------------------------
  // Credentials
  // ------------------------------------------------------------------

  datatype Claims = Claims(sub: string, exp: nat, iat: nat, role: Option<string>)

  function Sign(uuid: Uuid, time: nat, lifetime: nat): Claims {
    Claims(Print(uuid), time + lifetime, time, None)
  }

  function SignAdmin(id: Uuid, time: nat, lifetime: nat): Claims {
    Claims(Print(id), time + lifetime, time, Some("admin"))
  }

  // The credential a grant gives: none for a feed ticket or an upload.
  function CredentialOf(g: Grant): Option<Claims> {
    match g.subject
    case Listener(uuid) => Some(Sign(uuid, g.time, g.lifetime))
    case PortalUser(uuid, _) => Some(Sign(uuid, g.time, g.lifetime))
    case Administrator(uuid) => Some(SignAdmin(uuid, g.time, g.lifetime))
    case _ => None
  }

  // With an ideal signature the tokens that verify are the ones some node minted.
  ghost predicate Minted(s: State, c: Claims) {
    || (exists g :: 0 <= g < |s.grants| && CredentialOf(s.grants[g]) == Some(c))
    || (exists i :: 0 <= i < |s.logins| && c == SignAdmin(s.logins[i].admin, s.logins[i].time, s.logins[i].lifetime))
  }

  // Verification allows a leeway after the expiry time (section 4.1.4 of RFC 7519).
  ghost predicate Verifies(s: State, c: Claims, leeway: nat) {
    Minted(s, c) && s.now <= c.exp + leeway
  }

  ghost predicate AcceptedAsPlayer(s: State, c: Claims, leeway: nat) {
    Verifies(s, c, leeway) && c.role.None? && Parse(c.sub).Some?
  }

  ghost predicate AcceptedAsAdmin(s: State, c: Claims, leeway: nat) {
    Verifies(s, c, leeway) && c.role == Some("admin")
  }

  // A token accepted on player routes was minted, within its time, for an audio or
  // portal link that the plugin wrote for that very player, at a time when the link
  // was still good, and that link was used once. Two links of one player used in the
  // same second give equal tokens, but no two players ever share one.
  lemma {:induction false} PlayerTokenTraces(ls: seq<Label>, c: Claims, leeway: nat) returns (g: nat)
    requires AcceptedAsPlayer(Run(ls), c, leeway)
    ensures var s := Run(ls);
      && g < |s.grants| && s.grants[g].issue < |s.issues|
      && var i := s.issues[s.grants[g].issue];
      && (i.subject.Listener? || i.subject.PortalUser?)
      && Parse(c.sub) == Some(i.subject.uuid) && c.sub == Print(i.subject.uuid)
      && i.time <= c.iat < i.time + Ttl(FamilyOf(i.subject))
      && c.exp == c.iat + s.grants[g].lifetime && s.now <= c.exp + leeway
      && (forall h :: 0 <= h < |s.grants| && h != g ==> s.grants[h].issue != s.grants[g].issue)
      // Any other grant of an equal credential was to the same player, at the same time.
      && forall h :: 0 <= h < |s.grants| && CredentialOf(s.grants[h]) == Some(c) ==>
           && (s.grants[h].subject.Listener? || s.grants[h].subject.PortalUser?)
           && s.grants[h].subject.uuid == i.subject.uuid
           && s.grants[h].time == c.iat && s.grants[h].lifetime == s.grants[g].lifetime
  {
    RunGood(ls);
    var s := Run(ls);
    g :| 0 <= g < |s.grants| && CredentialOf(s.grants[g]) == Some(c);
    assert GoodGrant(s.issues, s.grants[g]);
    PrintReadsBack(s.grants[g].subject.uuid);
    forall h | 0 <= h < |s.grants| && CredentialOf(s.grants[h]) == Some(c)
      ensures s.grants[h].subject.Listener? || s.grants[h].subject.PortalUser?
      ensures s.grants[h].subject.uuid == s.grants[g].subject.uuid
    {
      SamePrint(s.grants[h].subject.uuid, s.grants[g].subject.uuid);
    }
  }

  // A token accepted on admin routes comes from an admin link or a password login, and
  // no token is accepted on both kinds of route.
  lemma {:induction false} AdminTokenTraces(ls: seq<Label>, c: Claims, leeway: nat)
    requires AcceptedAsAdmin(Run(ls), c, leeway)
    ensures !AcceptedAsPlayer(Run(ls), c, leeway)
    ensures var s := Run(ls);
      || (exists g :: 0 <= g < |s.grants| && FromAdminLink(s, s.grants[g], c))
      || (exists i :: 0 <= i < |s.logins| && FromLogin(s.logins[i], c))
  {
    RunGood(ls);
    var s := Run(ls);
    if g :| 0 <= g < |s.grants| && CredentialOf(s.grants[g]) == Some(c) {
      assert GoodGrant(s.issues, s.grants[g]);
      assert FromAdminLink(s, s.grants[g], c);
    } else {
      var i :| 0 <= i < |s.logins| && c == SignAdmin(s.logins[i].admin, s.logins[i].time, s.logins[i].lifetime);
      assert FromLogin(s.logins[i], c);
    }
  }

  // The credential of an admin link: for its subject, from the time it was used, for the
  // lifetime of the node that took it.
  ghost predicate FromAdminLink(s: State, g: Grant, c: Claims) {
    && g.family == AdminOtt && GoodGrant(s.issues, g) && g.subject.Administrator?
    && c.sub == Print(g.subject.uuid) && c.iat == g.time && c.exp == c.iat + g.lifetime
  }

  ghost predicate FromLogin(l: PasswordLogin, c: Claims) {
    c.sub == Print(l.admin) && c.iat == l.time && c.exp == c.iat + l.lifetime
  }

  // Every minted admin token is accepted on admin routes exactly until it expires.
  lemma {:induction false} AdminTokenAccepted(ls: seq<Label>, g: nat, leeway: nat)
    requires g < |Run(ls).grants| && Run(ls).grants[g].subject.Administrator?
    ensures CredentialOf(Run(ls).grants[g]).Some?
    ensures AcceptedAsAdmin(Run(ls), CredentialOf(Run(ls).grants[g]).value, leeway)
       <==> Run(ls).now <= Run(ls).grants[g].time + Run(ls).grants[g].lifetime + leeway
  {
    assert CredentialOf(Run(ls).grants[g]).Some?;
    hide Run;
  }

  lemma {:induction false} LoginTokenAccepted(ls: seq<Label>, i: nat, leeway: nat)
    requires i < |Run(ls).logins|
    ensures var l := Run(ls).logins[i];
      AcceptedAsAdmin(Run(ls), SignAdmin(l.admin, l.time, l.lifetime), leeway)
      <==> Run(ls).now <= l.time + l.lifetime + leeway
  {
    hide Run;
  }

  // Every minted player token is accepted on player routes exactly until it expires.
  lemma {:induction false} PlayerTokenAccepted(ls: seq<Label>, g: nat, leeway: nat)
    requires g < |Run(ls).grants|
    requires Run(ls).grants[g].subject.Listener? || Run(ls).grants[g].subject.PortalUser?
    ensures AcceptedAsPlayer(Run(ls), CredentialOf(Run(ls).grants[g]).value, leeway)
       <==> Run(ls).now <= Run(ls).grants[g].time + Run(ls).grants[g].lifetime + leeway
  {
    PrintReadsBack(Run(ls).grants[g].subject.uuid);
  }

  // ------------------------------------------------------------------
  // Writers and consumers, in place
  // ------------------------------------------------------------------

  ghost predicate Represents(redis: Redis, s: State)
    reads redis
  {
    redis.now == s.now && redis.keys == s.keys && s.keys.Keys == s.origin.Keys
  }

  method WriteOttToken(redis: Redis, token: string, player: Uuid, ghost s: State)
    requires Represents(redis, s)
    modifies redis`keys
    ensures Represents(redis, Step(s, Write(Listener(player), token)))
    ensures redis.keys == old(redis.keys)["audio:auth:token:" + token := Entry(Print(player), redis.now + 60)]
  {
    redis.Setex("audio:auth:token:" + token, 60, Print(player));
  }

  method WritePortalOttToken(redis: Redis, token: string, player: Uuid, username: string, ghost s: State)
    requires Represents(redis, s)
    modifies redis`keys
    ensures Represents(redis, Step(s, Write(PortalUser(player, username), token)))
    ensures redis.keys
      == old(redis.keys)["audio:portal:token:" + token := Entry(Print(player) + ":" + username, redis.now + 300)]
  {
    var value := Print(player) + ":" + username;
    redis.Setex("audio:portal:token:" + token, 300, value);
  }

  method WriteAdminOttToken(redis: Redis, token: string, player: Uuid, ghost s: State)
    requires Represents(redis, s)
    modifies redis`keys
    ensures Represents(redis, Step(s, Write(Administrator(player), token)))
    ensures redis.keys == old(redis.keys)["admin:login:" + token := Entry(Print(player), redis.now + 300)]
  {
    redis.Setex("admin:login:" + token, 300, Print(player));
  }

  method IssueTicket(redis: Redis, ticket: Uuid, ghost s: State)
    requires Represents(redis, s)
    modifies redis`keys
    ensures Represents(redis, Step(s, Write(FeedTicket, Print(ticket))))
    ensures redis.keys == old(redis.keys)["admin:ticket:" + Print(ticket) := Entry("", redis.now + 15)]
  {
    redis.Setex("admin:ticket:" + Print(ticket), 15, "");
  }

  datatype OttResult = Valid(subject: Subject) | Absent | MalformedUuid | RedisError

  // The state after a consumer's GETDEL, which may not have reached Redis.
  ghost function Consumed(
    s: State, f: Family, token: string, outcome: Outcome, through: bool, lifetime: nat
  ): (s': State)
    requires s.keys.Keys == s.origin.Keys
    ensures s'.keys.Keys == s'.origin.Keys
  {
    if outcome == Lost(false) then s else Step(s, Consume(f, token, through, lifetime))
  }

  // What the token a client presents stands for, if anything.
  ghost function Presented(s: State, f: Family, token: string): Option<Subject> {
    var value :- Lookup(s.keys, Key(f, token), s.now);
    Decode(f, value)
  }

  ghost predicate Answers(before: State, f: Family, token: string, outcome: Outcome, r: OttResult) {
    && (r == RedisError <==> outcome.Lost?)
    && (r.Valid? <==> outcome == Done && Presented(before, f, token).Some?)
    && (r.Valid? ==> Some(r.subject) == Presented(before, f, token))
  }

  // Whether a consumer goes through makes no difference to the keys.
  lemma {:induction false} SameKeysLeft(
    s: State, f: Family, token: string, outcome: Outcome, a: bool, m: nat, b: bool, n: nat
  )
    requires s.keys.Keys == s.origin.Keys
    ensures var t, u := Consumed(s, f, token, outcome, a, m), Consumed(s, f, token, outcome, b, n);
      t.keys == u.keys && t.now == u.now
  {
    hide Key, Decode;
  }

  // Once a consumer is through, the answer it gives is the grant of that step.
  lemma {:induction false} AnswerIsGrant(
    s: State, f: Family, token: string, outcome: Outcome, r: OttResult, lifetime: nat
  )
    requires s.keys.Keys == s.origin.Keys && Answers(s, f, token, outcome, r)
    ensures var s' := Consumed(s, f, token, outcome, r.Valid?, lifetime);
      if r.Valid? then
        && |s'.grants| == |s.grants| + 1
        && s'.grants[|s.grants|].subject == r.subject
        && s'.grants[|s.grants|].time == s.now && s'.grants[|s.grants|].lifetime == lifetime
      else s'.grants == s.grants
  {
  }

  // A family's key never stands for another family's subject.
  lemma {:induction false} PresentedSubject(s: State, f: Family, token: string)
    ensures Presented(s, f, token).Some? ==> FamilyOf(Presented(s, f, token).value) == f
  {
  }

  method ValidateOtt(redis: Redis, token: string, outcome: Outcome, ghost s: State) returns (r: OttResult)
    requires Represents(redis, s)
    modifies redis`keys
    ensures redis.keys
      == if outcome == Lost(false) then old(redis.keys) else old(redis.keys) - {"audio:auth:token:" + token}
    ensures Represents(redis, Consumed(s, AudioOtt, token, outcome, r.Valid?, 0))
    ensures Answers(s, AudioOtt, token, outcome, r)
    ensures r == Absent <==> outcome == Done && Lookup(s.keys, Key(AudioOtt, token), s.now).None?
  {
    var reply := redis.TryGetdel("audio:auth:token:" + token, outcome);
    if reply.None? {
      return RedisError;
    }
    var raw := reply.value;
    if raw.None? {
      return Absent;
    }
    var uuid := Parse(raw.value);
    r := if uuid.Some? then Valid(Listener(uuid.value)) else MalformedUuid;
  }

  method ValidatePlayerOtt(redis: Redis, token: string, outcome: Outcome, ghost s: State) returns (r: OttResult)
    requires Represents(redis, s)
    modifies redis`keys
    ensures redis.keys
      == if outcome == Lost(false) then old(redis.keys) else old(redis.keys) - {"audio:portal:token:" + token}
    ensures Represents(redis, Consumed(s, PortalOtt, token, outcome, r.Valid?, 0))
    ensures Answers(s, PortalOtt, token, outcome, r)
    ensures r != MalformedUuid
  {
    var reply := redis.TryGetdel("audio:portal:token:" + token, outcome);
    if reply.None? {
      return RedisError;
    }
    var raw := reply.value;
    if raw.None? {
      return Absent;
    }
    var parts := SplitOnce(raw.value);
    if parts.None? {
      return Absent;
    }
    var (left, username) := parts.value;
    var uuid := Parse(left);
    r := if uuid.Some? then Valid(PortalUser(uuid.value, username)) else Absent;
  }

  method ValidateAdminOtt(redis: Redis, token: string, outcome: Outcome, ghost s: State) returns (r: OttResult)
    requires Represents(redis, s)
    modifies redis`keys
    ensures redis.keys
      == if outcome == Lost(false) then old(redis.keys) else old(redis.keys) - {"admin:login:" + token}
    ensures Represents(redis, Consumed(s, AdminOtt, token, outcome, r.Valid?, 0))
    ensures Answers(s, AdminOtt, token, outcome, r)
    ensures r != MalformedUuid
  {
    var reply := redis.TryGetdel("admin:login:" + token, outcome);
    if reply.None? {
      return RedisError;
    }
    var raw := reply.value;
    if raw.None? {
      return Absent;
    }
    var uuid := Parse(Trimmed(raw.value));
    r := if uuid.Some? then Valid(Administrator(uuid.value)) else Absent;
  }

  method ValidateTicket(redis: Redis, ticket: string, outcome: Outcome, ghost s: State) returns (valid: Option<bool>)
    requires Represents(redis, s)
    modifies redis`keys
    ensures redis.keys
      == if outcome == Lost(false) then old(redis.keys) else old(redis.keys) - {"admin:ticket:" + ticket}
    ensures Represents(redis, Consumed(s, AdminTicket, ticket, outcome, valid == Some(true), 0))
    ensures Answers(s, AdminTicket, ticket, outcome, match valid
      case None => RedisError
      case Some(true) => Valid(FeedTicket)
      case Some(false) => Absent)
  {
    var reply := redis.TryGetdel("admin:ticket:" + ticket, outcome);
    if reply.None? {
      return None;
    }
    valid := Some(reply.value.Some?);
  }
}
