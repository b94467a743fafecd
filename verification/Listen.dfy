// The browser's listen page: what the server last asked for (`desired`) against the
// clip that is loaded. First the page as a value, with the tab around it (socket,
// pending AudioContext resumes, unmounting); then the page as it is written.
module Listen {
  import opened Options
  import opened Events

  datatype Howl = Howl(clip: Clip, live: bool)

  // `howls` lists every clip ever created; `active` points at the current one.
  datatype Page = Page(
    authenticated: bool, enabled: bool, desired: Option<Clip>,
    howls: seq<Howl>, active: Option<nat>, activeSrc: Option<string>)

  const BLANK := Page(false, false, None, [], None, None)

  ghost predicate InRange(p: Page) {
    p.active.Some? ==> p.active.value < |p.howls|
  }

  function Unloaded(p: Page): (q: Page)
    requires InRange(p)
    ensures InRange(q)
  {
    if p.active.None? then p
    else p.(howls := p.howls[p.active.value := p.howls[p.active.value].(live := false)])
  }

  function Reconcile(p: Page): (q: Page)
    requires InRange(p)
    ensures InRange(q)
  {
    if !p.enabled then p
    else match p.desired
      case None => Unloaded(p).(active := None, activeSrc := None)
      case Some(d) =>
        if p.activeSrc == Some(d.src) && p.active.Some? then
          var h := p.howls[p.active.value];
          p.(howls := p.howls[p.active.value := h.(clip := Clip(h.clip.src, d.volume, d.loop))])
        else
          var q := Unloaded(p);
          q.(howls := q.howls + [Howl(d, true)], active := Some(|q.howls|), activeSrc := Some(d.src))
  }

  function EnableAudio(p: Page, suspended: bool): (q: Page)
    requires InRange(p)
    ensures InRange(q)
  {
    if suspended then p.(enabled := true) else Reconcile(p.(enabled := true))
  }

  function OnMessage(p: Page, m: Message): (q: Page)
    requires InRange(p)
    ensures InRange(q)
  {
    match m
    case AuthSuccess(_, _) => p.(authenticated := true)
    case Play(clip) => Reconcile(p.(desired := Some(clip)))
    case Stop => Reconcile(p.(desired := None))
    case Other => p
  }

  function OnClose(p: Page): (q: Page)
    requires InRange(p)
    ensures InRange(q)
  {
    if !p.authenticated then p else Reconcile(p.(desired := None))
  }

  // ------------------------------------------------------------------
  // The tab
  // ------------------------------------------------------------------

  datatype Socket = Open | Closing | Closed

  datatype Tab = Tab(page: Page, socket: Socket, pending: nat, mounted: bool)

  datatype Act =
    | Receive(m: Message)
    | Click(suspended: bool)
    | Resumed
    | SocketClosed
    | Unmount

  // Messages arrive while the socket is open; the button shows once authenticated and
  // until it is clicked; unmounting closes the socket and unloads the clip.
  function Step(t: Tab, a: Act): (t': Tab)
    requires InRange(t.page)
    ensures InRange(t'.page)
  {
    match a
    case Receive(m) =>
      if t.socket == Open then t.(page := OnMessage(t.page, m)) else t
    case Click(suspended) =>
      if t.mounted && t.page.authenticated && !t.page.enabled then
        t.(page := EnableAudio(t.page, suspended), pending := t.pending + if suspended then 1 else 0)
      else t
    case Resumed =>
      if t.pending > 0 then t.(page := Reconcile(t.page), pending := t.pending - 1) else t
    case SocketClosed =>
      if t.socket != Closed then t.(page := OnClose(t.page), socket := Closed) else t
    case Unmount =>
      if t.mounted then
        t.(page := Unloaded(t.page), mounted := false,
           socket := if t.socket == Open then Closing else t.socket)
      else t
  }

  function Steps(t: Tab, acts: seq<Act>): (t': Tab)
    requires InRange(t.page)
    ensures InRange(t'.page)
  {
    if acts == [] then t else Step(Steps(t, acts[..|acts| - 1]), acts[|acts| - 1])
  }

  // A page with a token starts with a socket, one without never has any.
  function Start(hasToken: bool): Tab {
    Tab(BLANK, if hasToken then Open else Closed, 0, true)
  }

  // The loaded clip is the wanted one: its source, its volume and its looping.
  predicate Matches(p: Page)
    requires InRange(p)
  {
    match p.desired
    case None => p.active.None?
    case Some(d) => p.active.Some? && p.howls[p.active.value] == Howl(d, true)
  }

  ghost predicate Sound(t: Tab) {
    var p := t.page;
    && InRange(p)
    // Only the current clip can be live, so a replaced one is unloaded.
    && (forall i :: 0 <= i < |p.howls| && p.howls[i].live ==> p.active == Some(i))
    && (p.active.Some? <==> p.activeSrc.Some?)
    && (p.active.Some? ==> p.activeSrc == Some(p.howls[p.active.value].clip.src))
    && (p.enabled ==> p.authenticated)
    && (!p.enabled ==> p.howls == [] && p.active.None? && t.pending == 0)
    && (t.mounted && p.active.Some? ==> p.howls[p.active.value].live)
    && (t.mounted && p.enabled && !Matches(p) ==> t.pending > 0)
    && (t.socket == Closed && p.enabled ==> p.active.None?)
    && (t.socket == Closed && p.authenticated ==> p.desired.None?)
    && (t.mounted ==> t.socket != Closing)
  }

  lemma {:induction false} ReceiveSound(t: Tab, m: Message)
    requires Sound(t)
    ensures Sound(Step(t, Receive(m)))
  {
  }

  lemma {:induction false} ClickSound(t: Tab, suspended: bool)
    requires Sound(t)
    ensures Sound(Step(t, Click(suspended)))
  {
  }

  lemma {:induction false} ResumedSound(t: Tab)
    requires Sound(t)
    ensures Sound(Step(t, Resumed))
  {
  }

  lemma {:induction false} SocketClosedSound(t: Tab)
    requires Sound(t)
    ensures Sound(Step(t, SocketClosed))
  {
  }

  lemma {:induction false} UnmountSound(t: Tab)
    requires Sound(t)
    ensures Sound(Step(t, Unmount))
  {
  }

  lemma {:induction false} StepSound(t: Tab, a: Act)
    requires Sound(t)
    ensures Sound(Step(t, a))
  {
    assert InRange(t.page);
    hide Sound, Step;
    match a
    case Receive(m) => ReceiveSound(t, m);
    case Click(suspended) => ClickSound(t, suspended);
    case Resumed => ResumedSound(t);
    case SocketClosed => SocketClosedSound(t);
    case Unmount => UnmountSound(t);
  }

  lemma {:induction false} StepsSound(t: Tab, acts: seq<Act>)
    requires Sound(t)
    ensures Sound(Steps(t, acts))
  {
    if acts != [] {
      StepsSound(t, acts[..|acts| - 1]);
      StepSound(Steps(t, acts[..|acts| - 1]), acts[|acts| - 1]);
    }
  }

  lemma {:induction false} OnlyMessagesAskForClips(t: Tab, a: Act)
    requires InRange(t.page) && !a.Receive? && Step(t, a).socket == Open
    ensures Step(t, a).page.desired == t.page.desired
  {
  }

  ghost predicate Silent(p: Page) {
    forall i :: 0 <= i < |p.howls| ==> !p.howls[i].live
  }

  // In every reachable state at most one clip is live, and once audio is enabled and no
  // resume is outstanding the loaded clip is the one last asked for.
  lemma {:induction false} LoadedIsDesired(hasToken: bool, acts: seq<Act>)
    ensures var t := Steps(Start(hasToken), acts);
      && (forall i, j :: 0 <= i < j < |t.page.howls| ==> !(t.page.howls[i].live && t.page.howls[j].live))
      && (t.mounted && t.page.enabled && t.pending == 0 ==> Matches(t.page))
  {
    StepsSound(Start(hasToken), acts);
  }

  // Once the socket has closed nothing is live, whether the page was unmounted before
  // or after and whatever resumes are still to come.
  lemma {:induction false} ClosedIsSilent(hasToken: bool, acts: seq<Act>)
    requires Steps(Start(hasToken), acts).socket == Closed
    ensures Silent(Steps(Start(hasToken), acts).page)
  {
    StepsSound(Start(hasToken), acts);
  }

  // Reconciling would change nothing: the current clip, live or already unloaded by the
  // unmounting, is the wanted one.
  ghost predicate Settled(p: Page) {
    && InRange(p) && p.enabled
    && match p.desired
       case None => p.active.None? && p.activeSrc.None?
       case Some(d) =>
         p.active.Some? && p.howls[p.active.value].clip == d && p.activeSrc == Some(d.src)
  }

  lemma {:induction false} SettledStays(p: Page)
    requires Settled(p)
    ensures Reconcile(p) == p
  {
    if p.active.Some? {
      assert p.howls[p.active.value := p.howls[p.active.value]] == p.howls;
    }
  }

  lemma {:induction false} AskedIsSettled(p: Page, m: Message)
    requires InRange(p) && p.enabled && (m.Play? || m.Stop?)
    requires p.active.Some? ==> p.activeSrc == Some(p.howls[p.active.value].clip.src)
    ensures Settled(OnMessage(p, m))
  {
  }

  lemma {:induction false} StepSettled(t: Tab, a: Act)
    requires Sound(t) && Settled(t.page)
    ensures Settled(Step(t, a).page)
  {
    SettledStays(t.page);
    match a
    case Receive(m) =>
      if m.Play? || m.Stop? {
        AskedIsSettled(t.page, m);
      }
    case _ =>
  }

  lemma {:induction false} StepsSettled(t: Tab, acts: seq<Act>)
    requires Sound(t) && Settled(t.page)
    ensures Settled(Steps(t, acts).page)
  {
    if acts != [] {
      StepsSound(t, acts[..|acts| - 1]);
      StepsSettled(t, acts[..|acts| - 1]);
      StepSettled(Steps(t, acts[..|acts| - 1]), acts[|acts| - 1]);
    }
  }

  // Once audio is enabled and a play or stop has been taken, no resume reloads or changes
  // anything, however late it settles and whatever happens before it does.
  lemma {:induction false} LateResumeChangesNothing(hasToken: bool, before: seq<Act>, m: Message, after: seq<Act>)
    requires m.Play? || m.Stop?
    requires var t := Steps(Start(hasToken), before); t.socket == Open && t.page.enabled
    ensures var u := Steps(Step(Steps(Start(hasToken), before), Receive(m)), after);
      Step(u, Resumed).page == u.page
  {
    StepsSound(Start(hasToken), before);
    var t := Steps(Start(hasToken), before);
    StepSound(t, Receive(m));
    AskedIsSettled(t.page, m);
    StepsSettled(Step(t, Receive(m)), after);
    SettledStays(Steps(Step(t, Receive(m)), after).page);
  }

  // ------------------------------------------------------------------
  // What brings a page where it is
  // ------------------------------------------------------------------

  // At action k the credential arrives over an open socket.
  ghost predicate AuthenticatesAt(hasToken: bool, acts: seq<Act>, k: nat) {
    && k < |acts| && acts[k].Receive? && acts[k].m.AuthSuccess?
    && Steps(Start(hasToken), acts[..k]).socket == Open
  }

  // At action k the button is there and clicked.
  ghost predicate EnablesAt(hasToken: bool, acts: seq<Act>, k: nat) {
    && k < |acts| && acts[k].Click?
    && Steps(Start(hasToken), acts[..k]).mounted && Steps(Start(hasToken), acts[..k]).page.authenticated
  }

  lemma {:induction false} StepAuthenticates(t: Tab, a: Act)
    requires InRange(t.page)
    ensures Step(t, a).page.authenticated
       <==> t.page.authenticated || (a.Receive? && a.m.AuthSuccess? && t.socket == Open)
  {
  }

  lemma {:induction false} StepEnables(t: Tab, a: Act)
    requires InRange(t.page)
    ensures Step(t, a).page.enabled <==> t.page.enabled || (a.Click? && t.mounted && t.page.authenticated)
  {
  }

  // The page is authenticated exactly when the credential has arrived.
  lemma {:induction false} AuthenticatedExactly(hasToken: bool, acts: seq<Act>)
    ensures Steps(Start(hasToken), acts).page.authenticated
       <==> exists k :: AuthenticatesAt(hasToken, acts, k)
  {
    if acts != [] {
      var n := |acts| - 1;
      AuthenticatedExactly(hasToken, acts[..n]);
      StepAuthenticates(Steps(Start(hasToken), acts[..n]), acts[n]);
      assert acts == acts[..n] + [acts[n]];
      forall k: nat | k < n
        ensures AuthenticatesAt(hasToken, acts, k) <==> AuthenticatesAt(hasToken, acts[..n], k)
      {
        assert acts[..n][..k] == acts[..k];
      }
      assert AuthenticatesAt(hasToken, acts, n)
        <==> acts[n].Receive? && acts[n].m.AuthSuccess? && Steps(Start(hasToken), acts[..n]).socket == Open;
      hide Step, Steps;
    }
  }

  // Audio is enabled exactly when the button was clicked on an authenticated page.
  lemma {:induction false} EnabledExactly(hasToken: bool, acts: seq<Act>)
    ensures Steps(Start(hasToken), acts).page.enabled <==> exists k :: EnablesAt(hasToken, acts, k)
  {
    if acts != [] {
      var n := |acts| - 1;
      EnabledExactly(hasToken, acts[..n]);
      StepEnables(Steps(Start(hasToken), acts[..n]), acts[n]);
      assert acts == acts[..n] + [acts[n]];
      forall k: nat | k < n
        ensures EnablesAt(hasToken, acts, k) <==> EnablesAt(hasToken, acts[..n], k)
      {
        assert acts[..n][..k] == acts[..k];
      }
      var before := Steps(Start(hasToken), acts[..n]);
      assert EnablesAt(hasToken, acts, n) <==> acts[n].Click? && before.mounted && before.page.authenticated;
      hide Step, Steps, EnablesAt;
    }
  }

  // The socket is open exactly on a page with a token that was neither unmounted nor
  // cut off, and the page is mounted until it is unmounted.
  lemma {:induction false} SocketExactly(hasToken: bool, acts: seq<Act>)
    ensures var t := Steps(Start(hasToken), acts);
      && (t.mounted <==> Unmount !in acts)
      && (t.socket == Closed <==> !hasToken || SocketClosed in acts)
      && (t.socket == Open <==> hasToken && SocketClosed !in acts && Unmount !in acts)
  {
    if acts != [] {
      var n := |acts| - 1;
      SocketExactly(hasToken, acts[..n]);
      assert acts == acts[..n] + [acts[n]];
      hide OnMessage, EnableAudio, Reconcile, OnClose, Unloaded;
    }
  }

  lemma {:induction false} OneResume(hasToken: bool, acts: seq<Act>)
    ensures var t := Steps(Start(hasToken), acts); t.pending <= 1 && (t.pending == 1 ==> t.page.enabled)
  {
    if acts != [] {
      var n := |acts| - 1;
      OneResume(hasToken, acts[..n]);
      StepEnables(Steps(Start(hasToken), acts[..n]), acts[n]);
      hide OnMessage, EnableAudio, Reconcile, OnClose, Unloaded;
    }
  }

  // A resume leaves none outstanding, and the clip last asked for loaded if the page is
  // mounted and enabled: a click that found the audio suspended is made good.
  lemma {:induction false} ResumeLoads(hasToken: bool, acts: seq<Act>)
    ensures var t := Step(Steps(Start(hasToken), acts), Resumed);
      t.pending == 0 && (t.mounted && t.page.enabled ==> Matches(t.page))
  {
    OneResume(hasToken, acts);
    StepsSound(Start(hasToken), acts);
  }

  lemma {:induction false} UnmountSilences(t: Tab)
    requires Sound(t) && t.mounted
    ensures var u := Step(t, Unmount); !u.mounted && u.socket != Open && Silent(u.page)
  {
  }

  lemma {:induction false} StaysSilent(t: Tab, a: Act)
    requires InRange(t.page) && !t.mounted && t.socket != Open && Silent(t.page) && a != Resumed
    ensures var u := Step(t, a); !u.mounted && u.socket != Open && Silent(u.page)
  {
  }

  // Unmounting silences the page, and unless a resume settles it stays so, whatever else
  // is still to come.
  lemma {:induction false} UnmountedIsSilent(hasToken: bool, before: seq<Act>, after: seq<Act>)
    requires Steps(Start(hasToken), before).mounted && Resumed !in after
    ensures var t := Steps(Step(Steps(Start(hasToken), before), Unmount), after);
      !t.mounted && t.socket != Open && Silent(t.page)
  {
    hide Silent, Step;
    if after == [] {
      StepsSound(Start(hasToken), before);
      UnmountSilences(Steps(Start(hasToken), before));
    } else {
      var n := |after| - 1;
      UnmountedIsSilent(hasToken, before, after[..n]);
      StaysSilent(Steps(Step(Steps(Start(hasToken), before), Unmount), after[..n]), after[n]);
    }
  }

  // The button enables audio: at once with the clip asked for, or, if the audio is
  // suspended, with nothing loaded until its resume.
  lemma {:induction false} ClickExactly(t: Tab)
    requires Sound(t) && t.mounted && t.page.authenticated && !t.page.enabled
    ensures var u := Step(t, Click(false)); u.page.enabled && Matches(u.page) && u.pending == t.pending
    ensures Step(t, Click(true)) == t.(page := t.page.(enabled := true), pending := t.pending + 1)
  {
  }

  // When the socket closes an authenticated page wants nothing and, if enabled, has
  // nothing loaded; one that was never authenticated is left as it is.
  lemma {:induction false} CloseExactly(t: Tab)
    requires Sound(t) && t.socket != Closed
    ensures var u := Step(t, SocketClosed);
      && u.socket == Closed && |u.page.howls| == |t.page.howls|
      && if t.page.authenticated then u.page.desired.None? && (t.page.enabled ==> u.page.active.None? && Silent(u.page))
         else u.page == t.page
  {
  }

  // A play for the source already loaded only adjusts that clip; one for another source
  // loads a new clip, and one clip only.
  lemma {:induction false} PlayLoadsExactly(t: Tab, clip: Clip)
    requires Sound(t) && t.page.enabled && t.socket == Open
    ensures var p, q := t.page, Step(t, Receive(Play(clip))).page;
      if p.active.Some? && p.howls[p.active.value].clip.src == clip.src then
        q.active == p.active && |q.howls| == |p.howls| && q.howls[q.active.value].clip == clip
      else
        q.active == Some(|p.howls|) && |q.howls| == |p.howls| + 1 && q.howls[|p.howls|] == Howl(clip, true)
  {
  }

  // ------------------------------------------------------------------
  // The page as it is written
  // ------------------------------------------------------------------

  class HowlObject {
    const src: string
    var volume: real
    var loop: bool
    var loaded: bool

    constructor (clip: Clip)
      ensures src == clip.src && volume == clip.volume && loop == clip.loop && loaded
    {
      src := clip.src;
      volume := clip.volume;
      loop := clip.loop;
      loaded := true;
    }

    function Value(): Howl
      reads this
    {
      Howl(Clip(src, volume, loop), loaded)
    }
  }

  class ListenPage {
    var authenticated: bool
    var enabled: bool
    var playerUuid: Option<string>
    var storedJwt: Option<string>
    var desired: Option<Clip>
    var activeHowl: HowlObject?
    var activeSrc: Option<string>
    var ws: Socket
    // Every clip created so far, and where the current one is among them.
    ghost var created: seq<HowlObject>
    ghost var current: Option<nat>

    ghost predicate Valid()
      reads this
    {
      && (forall i, j :: 0 <= i < j < |created| ==> created[i] != created[j])
      && (activeHowl == null <==> current.None?)
      && (current.Some? ==> current.value < |created| && created[current.value] == activeHowl)
    }

    ghost function Howls(): (hs: seq<Howl>)
      reads this, created
      ensures |hs| == |created|
      ensures forall i :: 0 <= i < |created| ==> hs[i] == created[i].Value()
    {
      seq(|created|, i requires 0 <= i < |created| reads this, created => created[i].Value())
    }

    ghost function Abs(): (p: Page)
      requires Valid()
      reads this, created
      ensures InRange(p)
    {
      Page(authenticated, enabled, desired, Howls(), current, activeSrc)
    }

    // Mounted; a page without a token opens no socket.
    constructor (hasToken: bool)
      ensures Valid() && fresh(created) && Tab(Abs(), ws, 0, true) == Start(hasToken)
    {
      ws := if hasToken then Open else Closed;
      authenticated, enabled := false, false;
      playerUuid, storedJwt, desired, activeSrc := None, None, None, None;
      activeHowl := null;
      created, current := [], None;
    }

    method UnloadActive()
      requires Valid()
      modifies created
      ensures Valid() && Abs() == Unloaded(old(Abs()))
    {
      if activeHowl != null {
        activeHowl.loaded := false;
      }
      assert Howls() == Unloaded(old(Abs())).howls;
    }

    method Load(d: Clip)
      requires Valid()
      modifies this`activeHowl, this`activeSrc, this`created, this`current
      ensures Valid() && |created| == |old(created)| + 1 && created[..|old(created)|] == old(created)
      ensures fresh(created[|old(created)|])
      ensures current == Some(|old(created)|) && activeSrc == Some(d.src)
      ensures created[|old(created)|].Value() == Howl(d, true)
    {
      activeHowl := new HowlObject(d);
      created, current := created + [activeHowl], Some(|created|);
      activeSrc := Some(d.src);
    }

    method Adjust(d: Clip)
      requires Valid() && activeHowl != null
      modifies activeHowl
      ensures Valid()
      ensures Howls() == old(Howls())[current.value :=
        old(Howls())[current.value].(clip := Clip(activeHowl.src, d.volume, d.loop))]
    {
      activeHowl.volume := d.volume;
      activeHowl.loop := d.loop;
    }

    method Replace(d: Clip)
      requires Valid()
      modifies this`activeHowl, this`activeSrc, this`created, this`current, created
      ensures Valid() && fresh(set h | h in created && h !in old(created))
      ensures Howls() == Unloaded(old(Abs())).howls + [Howl(d, true)]
      ensures current == Some(|old(created)|) && activeSrc == Some(d.src)
    {
      UnloadActive();
      ghost var unloaded := Howls();
      hide Unloaded;
      Load(d);
      assert Howls() == unloaded + [Howl(d, true)];
    }

    method ReconcileNow()
      requires Valid()
      modifies this`activeHowl, this`activeSrc, this`created, this`current, created
      ensures Valid() && fresh(set h | h in created && h !in old(created))
      ensures Abs() == Reconcile(old(Abs()))
    {
      if !enabled {
        return;
      }
      if desired.None? {
        UnloadActive();
        activeHowl, current := null, None;
        activeSrc := None;
        return;
      }
      if activeSrc == Some(desired.value.src) && activeHowl != null {
        Adjust(desired.value);
        return;
      }
      Replace(desired.value);
    }

    method Enable(suspended: bool)
      requires Valid()
      modifies this`enabled, this`activeHowl, this`activeSrc, this`created, this`current, created
      ensures Valid() && Abs() == EnableAudio(old(Abs()), suspended)
    {
      enabled := true;
      assert Howls() == old(Howls());
      if !suspended {
        ReconcileNow();
      }
    }

    method HandleMessage(m: Message)
      requires Valid()
      modifies this, created
      ensures Valid() && Abs() == OnMessage(old(Abs()), m) && ws == old(ws)
      ensures m.AuthSuccess? ==> storedJwt == Some(m.jwt) && playerUuid == Some(m.playerUuid)
      ensures !m.AuthSuccess? ==> storedJwt == old(storedJwt) && playerUuid == old(playerUuid)
    {
      match m
      case AuthSuccess(jwt, uuid) =>
        storedJwt := Some(jwt);
        playerUuid := Some(uuid);
        authenticated := true;
        assert Howls() == old(Howls());
      case Play(clip) =>
        desired := Some(clip);
        assert Howls() == old(Howls());
        ReconcileNow();
      case Stop =>
        desired := None;
        assert Howls() == old(Howls());
        ReconcileNow();
      case Other =>
    }

    method HandleClose()
      requires Valid()
      modifies this`desired, this`activeHowl, this`activeSrc, this`created, this`current, created
      ensures Valid() && Abs() == OnClose(old(Abs()))
    {
      if authenticated {
        desired := None;
        ReconcileNow();
      }
    }

    method Destroy()
      requires Valid()
      modifies this`ws, created
      ensures Valid() && forall pending: nat ::
        Tab(Abs(), ws, pending, false) == Step(Tab(old(Abs()), old(ws), pending, true), Unmount)
      ensures ws != Open && (activeHowl != null ==> !activeHowl.loaded)
    {
      if ws == Open {
        ws := Closing;
      }
      assert Howls() == old(Howls());
      UnloadActive();
    }
  }
}
