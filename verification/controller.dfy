/** The consent controller: page start-up and the click dispatch, as pure
    transitions over the observable state of the page. */
module Controller {
  import opened Options
  import opened Consent
  import opened Storage
  import opened Scripts

  /** The `style.display` of the banner or the preferences panel: as the
      markup left it, set to `block`, or set to `none`. */
  datatype Visibility = Unmanaged | Shown | Hidden

  /** Page-level flag: when `webflow` is set, an external animation system
      owns the banner's visibility. */
  datatype Config = Config(webflow: bool)

  /** What the controller observes and changes: the two panels, the page's
      scripts in document order, the preference checkboxes in document
      order, and the browser store. */
  datatype Page = Page(
    banner: Visibility,
    preferences: Visibility,
    scripts: seq<Node>,
    checkboxes: seq<Checkbox>,
    store: Store)

  /** After start-up the page either listens for clicks or, when start-up
      threw, has no click handlers bound. */
  datatype Session = Listening(page: Page) | Halted(page: Page)

  const Allow: string := "allow"
  const Deny: string := "deny"
  const Close: string := "close"
  const OpenPreferences: string := "open-preferences"
  const Submit: string := "submit"

  /** Hides the banner unless the external animation system owns it. */
  function HideBanner(cfg: Config, p: Page): (q: Page)
    ensures q.banner == (if cfg.webflow then p.banner else Hidden)
    ensures q == p.(banner := q.banner)
  {
    if cfg.webflow then p else p.(banner := Hidden)
  }

  /** Stores a record and applies it to the page's scripts. */
  function Commit(p: Page, rec: Record): (q: Page)
    ensures GetConsent(q.store) == Success(Some(rec))
    ensures q.scripts == ApplyConsent(rec, p.scripts)
    ensures q.store.Keys == p.store.Keys + {ConsentKey}
    ensures forall k :: k in p.store && k != ConsentKey ==> q.store[k] == p.store[k]
    ensures q == p.(store := q.store, scripts := q.scripts)
  {
    p.(store := SetConsent(p.store, rec), scripts := ApplyConsent(rec, p.scripts))
  }

  /** `handleConsentAction` for `allow` and `deny`: the stored record is read
      first (its value is discarded, but a malformed one throws before
      anything changes), then the fixed record is stored and applied and the
      banner hidden. */
  function HandleConsentAction(cfg: Config, p: Page, rec: Record): (r: Result<Page, ReadError>)
    ensures r.Failure? <==> !Readable(p.store)
    ensures r.Success? ==> r.value == HideBanner(cfg, Commit(p, rec))
  {
    match GetConsent(p.store)
    case Failure(e) => Failure(e)
    case Success(_) => Success(HideBanner(cfg, Commit(p, rec)))
  }

  /** The click handler bound to an element whose action marker is `action`. */
  function Click(cfg: Config, p: Page, action: string): (r: Result<Page, ReadError>)
    ensures r.Failure? <==> (action == Allow || action == Deny) && !Readable(p.store)
    ensures r.Success? ==> r.value.checkboxes == p.checkboxes
    ensures r.Success? ==> |r.value.scripts| == |p.scripts|
    ensures r.Success? ==> forall i :: 0 <= i < |p.scripts| && !IsPending(p.scripts[i]) ==>
                                        r.value.scripts[i] == p.scripts[i]
    ensures r.Success? && action != Allow && action != Deny && action != Submit ==>
              r.value.store == p.store && r.value.scripts == p.scripts
    ensures r.Success? && cfg.webflow ==> r.value.banner == p.banner
    ensures r.Success? && action != OpenPreferences && action != Submit ==>
              r.value.preferences == p.preferences
  {
    if action == Allow then HandleConsentAction(cfg, p, AllowRecord())
    else if action == Deny then HandleConsentAction(cfg, p, DenyRecord())
    else if action == Close then Success(HideBanner(cfg, p))
    else if action == OpenPreferences then Success(p.(preferences := Shown))
    else if action == Submit then
      Success(Commit(p, SubmitRecord(p.checkboxes)).(preferences := Hidden))
    else Success(p)
  }

  /** `init`: with a stored record, apply it and hide the banner; with none,
      show the banner; a malformed slot throws before anything changes. */
  function Init(cfg: Config, p: Page): (r: Result<Page, ReadError>)
    ensures r.Failure? <==> !Readable(p.store)
    ensures r.Success? ==> r.value.store == p.store && r.value.checkboxes == p.checkboxes
    ensures r.Success? ==> r.value.preferences == p.preferences
    ensures r.Success? && cfg.webflow ==> r.value.banner == p.banner
  {
    match GetConsent(p.store)
    case Failure(e) => Failure(e)
    case Success(Some(rec)) => Success(HideBanner(cfg, p.(scripts := ApplyConsent(rec, p.scripts))))
    case Success(None) =>
      Success(if cfg.webflow then p else p.(banner := Shown))
  }

  /** Page start-up: `init` runs and, only if it did not throw, binds the
      click handlers. */
  function Boot(cfg: Config, p: Page): (s: Session)
    ensures s.Listening? <==> Readable(p.store)
    ensures s.Listening? ==> Init(cfg, p).Success? && s.page == Init(cfg, p).value
    ensures s.Halted? ==> s.page == p
  {
    match Init(cfg, p)
    case Success(q) => Listening(q)
    case Failure(_) => Halted(p)
  }

  /** A click on a marked element. Without bound handlers nothing happens; a
      handler that throws does so before changing anything. */
  function Dispatch(cfg: Config, s: Session, action: string): (t: Session)
    ensures t.Listening? == s.Listening?
    ensures s.Halted? ==> t == s
    ensures s.Listening? && Click(cfg, s.page, action).Failure? ==> t == s
    ensures s.Listening? && Click(cfg, s.page, action).Success? ==>
              t == Listening(Click(cfg, s.page, action).value)
  {
    match s
    case Halted(_) => s
    case Listening(p) =>
      match Click(cfg, p, action)
      case Success(q) => Listening(q)
      case Failure(_) => s
  }

  /** A run of clicks, in order. */
  function DispatchAll(cfg: Config, s: Session, actions: seq<string>): Session
    decreases |actions|
  {
    if |actions| == 0 then s
    else DispatchAll(cfg, Dispatch(cfg, s, actions[0]), actions[1..])
  }

  /** Start-up with a stored record applies it to the scripts and hides the
      banner (unless the external animation system owns it). */
  lemma InitWithRecord(cfg: Config, p: Page, rec: Record)
    requires ConsentKey in p.store && p.store[ConsentKey] == Saved(rec)
    ensures Init(cfg, p).Success?
    ensures Init(cfg, p).value.scripts == ApplyConsent(rec, p.scripts)
    ensures Init(cfg, p).value.banner == (if cfg.webflow then p.banner else Hidden)
  {
  }

  /** Start-up without a record activates no script and shows the banner
      (unless the external animation system owns it). */
  lemma InitWithoutRecord(cfg: Config, p: Page)
    requires ConsentKey !in p.store || p.store[ConsentKey].Blank?
    ensures Init(cfg, p) == Success(if cfg.webflow then p else p.(banner := Shown))
  {
  }

  /** `allow` stores and applies the all-granted record and hides the banner. */
  lemma AllowClick(cfg: Config, p: Page)
    requires Readable(p.store)
    ensures Click(cfg, p, Allow).Success?
    ensures var q := Click(cfg, p, Allow).value;
            && GetConsent(q.store) == Success(Some(AllowRecord()))
            && q.store == SetConsent(p.store, AllowRecord())
            && q.scripts == ApplyConsent(AllowRecord(), p.scripts)
            && q.banner == (if cfg.webflow then p.banner else Hidden)
            && q.preferences == p.preferences
  {
  }

  /** `deny` stores and applies the essential-only record and hides the
      banner. */
  lemma DenyClick(cfg: Config, p: Page)
    requires Readable(p.store)
    ensures Click(cfg, p, Deny).Success?
    ensures var q := Click(cfg, p, Deny).value;
            && GetConsent(q.store) == Success(Some(DenyRecord()))
            && q.store == SetConsent(p.store, DenyRecord())
            && q.scripts == ApplyConsent(DenyRecord(), p.scripts)
            && q.banner == (if cfg.webflow then p.banner else Hidden)
            && q.preferences == p.preferences
  {
  }

  /** `close` only hides the banner: the record and the scripts stay. */
  lemma CloseClick(cfg: Config, p: Page)
    ensures Click(cfg, p, Close) == Success(if cfg.webflow then p else p.(banner := Hidden))
  {
  }

  /** `open-preferences` shows the panel whatever the webflow flag says, and
      changes nothing else. */
  lemma OpenPreferencesClick(cfg: Config, p: Page)
    ensures Click(cfg, p, OpenPreferences) == Success(p.(preferences := Shown))
  {
  }

  /** `submit` stores and applies the record read off the checkboxes and
      hides the panel whatever the webflow flag says; it leaves the banner. */
  lemma SubmitClick(cfg: Config, p: Page)
    ensures Click(cfg, p, Submit).Success?
    ensures var q := Click(cfg, p, Submit).value;
            && GetConsent(q.store) == Success(Some(SubmitRecord(p.checkboxes)))
            && q.store == SetConsent(p.store, SubmitRecord(p.checkboxes))
            && q.scripts == ApplyConsent(SubmitRecord(p.checkboxes), p.scripts)
            && q.preferences == Hidden
            && q.banner == p.banner
  {
  }

  /** Any other action value, such as the `banner` and `preferences` markers
      of the panels themselves, changes nothing. */
  lemma OtherClick(cfg: Config, p: Page, action: string)
    requires action !in {Allow, Deny, Close, OpenPreferences, Submit}
    ensures Click(cfg, p, action) == Success(p)
  {
  }

  /** Clicking the same element twice has the effect of clicking it once. */
  lemma ClickIdempotent(cfg: Config, p: Page, action: string)
    requires Click(cfg, p, action).Success?
    ensures Click(cfg, Click(cfg, p, action).value, action) == Click(cfg, p, action)
  {
    var q := Click(cfg, p, action).value;
    if action == Allow || action == Deny || action == Submit {
      var rec := if action == Allow then AllowRecord()
                 else if action == Deny then DenyRecord()
                 else SubmitRecord(p.checkboxes);
      ApplyIdempotent(rec, p.scripts);
      SetReplaces(p.store, rec, rec);
      assert q.checkboxes == p.checkboxes;
      assert Readable(q.store);
    }
  }

  /** Once the page listens, its store stays readable, so no click handler
      ever throws. */
  lemma {:induction false} ListeningStaysReadable(cfg: Config, p: Page, actions: seq<string>)
    requires Boot(cfg, p).Listening?
    ensures DispatchAll(cfg, Boot(cfg, p), actions).Listening?
    ensures Readable(DispatchAll(cfg, Boot(cfg, p), actions).page.store)
  {
    ReadableRun(cfg, Boot(cfg, p), actions);
  }

  /** Clicks on a listening page with a readable store keep it readable. */
  lemma {:induction false} ReadableRun(cfg: Config, s: Session, actions: seq<string>)
    requires s.Listening? && Readable(s.page.store)
    ensures DispatchAll(cfg, s, actions).Listening?
    ensures Readable(DispatchAll(cfg, s, actions).page.store)
    decreases |actions|
  {
    if |actions| != 0 {
      var t := Dispatch(cfg, s, actions[0]);
      assert Click(cfg, s.page, actions[0]).Success?;
      assert Readable(t.page.store);
      ReadableRun(cfg, t, actions[1..]);
    }
  }

  /** With the external animation system in charge, no run of clicks ever
      changes the banner (start-up keeps it too, by the contract of `Init`). */
  lemma {:induction false} WebflowKeepsBanner(cfg: Config, s: Session, actions: seq<string>)
    requires cfg.webflow
    ensures DispatchAll(cfg, s, actions).page.banner == s.page.banner
    decreases |actions|
  {
    if |actions| != 0 {
      WebflowKeepsBanner(cfg, Dispatch(cfg, s, actions[0]), actions[1..]);
    }
  }

  /** A live script, or any node that is not a placeholder, is never changed
      by any run of clicks. */
  lemma {:induction false} LiveStaysLive(cfg: Config, s: Session, actions: seq<string>, i: int)
    requires 0 <= i < |s.page.scripts| && !IsPending(s.page.scripts[i])
    ensures |DispatchAll(cfg, s, actions).page.scripts| == |s.page.scripts|
    ensures DispatchAll(cfg, s, actions).page.scripts[i] == s.page.scripts[i]
    decreases |actions|
  {
    if |actions| != 0 {
      LiveStaysLive(cfg, Dispatch(cfg, s, actions[0]), actions[1..], i);
    }
  }

  /** A returning visitor: start-up binds the handlers on a page where the
      stored record is already applied and the banner hidden (unless the
      external animation system owns it). */
  lemma ReturningVisitor(cfg: Config, p: Page, rec: Record)
    requires ConsentKey in p.store && p.store[ConsentKey] == Saved(rec)
    ensures Boot(cfg, p).Listening?
    ensures Boot(cfg, p).page.scripts == ApplyConsent(rec, p.scripts)
    ensures Boot(cfg, p).page.banner == (if cfg.webflow then p.banner else Hidden)
  {
  }

  /** Start-up without a record followed by `allow`: the banner ends hidden
      and exactly the placeholders naming a known category are live. */
  lemma FirstVisitAllow(p: Page, i: int)
    requires ConsentKey !in p.store
    requires 0 <= i < |p.scripts| && IsPending(p.scripts[i])
    ensures var s := Dispatch(Config(false), Boot(Config(false), p), Allow);
            && s.Listening?
            && s.page.banner == Hidden
            && (s.page.scripts[i] != p.scripts[i] <==>
                  exists j :: 0 <= j < |GatingCategories(p.scripts[i])| &&
                                GatingCategories(p.scripts[i])[j] in Categories)
  {
    AllowActivates(p.scripts[i]);
  }
}
