/** What a display says at an event, exactly: for each output the condition on the display and the event,
    whatever the code that handles it. */
module DisplayCauses {
  import opened LoginTypes
  import opened DisplaySpec
  import opened Runs = DisplaySafety

  // ---------- requests ----------

  predicate IsRequest(e: Event) {
    e.Login? || e.FingerprintLogin?
  }

  /** An event that may begin an attempt, and what it brings along. */
  predicate Attempts(e: Event) {
    IsRequest(e) || ((e.StartDisplay? || e.ServerReady?) && e.plan.AutologinAs?)
  }

  function UserOf(e: Event): string
    requires Attempts(e)
  {
    if IsRequest(e) then e.user else e.plan.user
  }

  function PassPhraseOf(e: Event): string
    requires Attempts(e)
  {
    if e.Login? then e.passPhrase else ""
  }

  function SessionOf(e: Event): SessionChoice
    requires Attempts(e)
  {
    if IsRequest(e) then e.session else e.plan.session
  }

  function OwnerOf(e: Event): Option<Request>
    requires Attempts(e)
  {
    if IsRequest(e) then Some(e.request) else None
  }

  predicate MayReuse(e: Event)
    requires Attempts(e)
  {
    if IsRequest(e) then e.canReuse else e.plan.canReuse
  }

  predicate Complete(session: SessionChoice) {
    session.valid && session.xdgType != "" && session.exec != ""
  }

  /** A request that cannot be taken: by its own contents, or because the display has another. A
      password takes over from a finger that is still awaited. */
  predicate Refused(d: Daemon, e: Event)
    requires IsRequest(e)
  {
    || e.user == "gxdm" || !Complete(e.session) || (e.FingerprintLogin? && e.user == "")
    || (Busy(d.phase) && !(e.Login? && Cancellable(d.phase)))
  }

  predicate Begins(d: Daemon, e: Event) {
    Attempts(e)
    && if IsRequest(e) then !Refused(d, e)
       else Complete(e.plan.session) && !d.started && (e.ServerReady? <==> d.rootful)
  }

  // ---------- the search ----------

  /** A detached session of the wanted type that this display manager opened for a user. */
  predicate Fits(p: Properties, sessionType: string) {
    && p.service in {"gxdm", "gxdm-autologin"} && p.state == "online"
    && p.sessionClass == "user" && p.sessionType == sessionType
  }

  /** Something comes back of the search for a session to reuse. */
  predicate Searches(e: Event) {
    e.SessionsListed? || e.PropertiesRead? || e.LookupTimeout?
  }

  predicate FindsFit(d: Daemon, e: Event) {
    && d.phase.LookingUp? && e.PropertiesRead? && e.properties.Some?
    && Fits(e.properties.value, d.phase.search.sessionType)
  }

  /** Nothing was found, and nothing more is waited for. */
  predicate FindsNothing(d: Daemon, e: Event) {
    d.phase.LookingUp? && !FindsFit(d, e)
    && match e
       case LookupTimeout => true
       case SessionsListed(reply) =>
         reply.Some? && d.phase.search.Listing? ==> forall x <- reply.value :: x.userName != d.phase.search.user
       case PropertiesRead(entry, _) => d.phase.search.Collecting? && d.phase.search.waiting == multiset{entry}
       case _ => false
  }

  // ---------- the course of a login ----------

  predicate Accepts(e: Event) {
    e.HelperSays? && e.message.Authenticated? && e.message.user != ""
  }

  /** The greeter has announced that it animates. */
  predicate HeldBack(d: Daemon) {
    Owner(d.phase).Some? && Owner(d.phase).value.socket in d.transitions
  }

  predicate Completes(d: Daemon, e: Event) {
    d.phase.Held?
    && (e.TransitionTimeout?
        || (e.TransitionReady? && d.phase.owner.Some? && e.socket == d.phase.owner.value.socket))
  }

  /** The helper is released. */
  predicate GoesOn(d: Daemon, e: Event) {
    (Accepts(e) && !HeldBack(d)) || Completes(d, e)
  }

  /** The login under way comes to nothing. */
  predicate Fails(d: Daemon, e: Event) {
    || e == HelperSays(Authenticated("")) || e == HelperSays(SessionStatus(false))
    || e == UnlockAnswered(false) || e == SwitchAnswered(false) || e.ActivationTimeout?
    || (e.HelperExits? && !d.phase.Activating?) || e.Stop?
  }

  predicate Succeeds(e: Event) {
    e == HelperSays(SessionStatus(true)) || e == SwitchAnswered(true)
  }

  predicate CallsOff(d: Daemon, e: Event) {
    Cancellable(d.phase)
    && (e.Login? || e.PromptCancelFires? || e == FingerprintCancel(Owner(d.phase).value.socket))
  }

  predicate Stops(d: Daemon, e: Event) {
    d.started
    && (|| e.Stop?
        || (e.HelperExits? && !d.phase.Activating? && e.how != Exited(1))
        || (d.phase.Activating? && !d.phase.helperAlive
            && (e == UnlockAnswered(false) || e.SwitchAnswered? || e.ActivationTimeout?)))
  }

  predicate IsFinger(owner: Option<Request>) {
    owner.Some? && owner.value.fingerprint
  }

  /** One or two prompts come back with the pass phrase in the last and, of two, the name in the first. */
  predicate Answered(prompts: seq<Prompt>, answers: seq<Prompt>, user: string, passPhrase: string) {
    && 1 <= |prompts| <= 2 && |answers| == |prompts|
    && (forall i | 0 <= i < |prompts| ::
          && answers[i].kind == prompts[i].kind && answers[i].message == prompts[i].message
          && answers[i].hidden == prompts[i].hidden)
    && answers[|answers| - 1].response == passPhrase
    && (|answers| == 2 ==> answers[0].response == user)
  }

  /** What a helper is started for: an attempt that begins, or one whose search is over. */
  predicate StartsHelper(d: Daemon, e: Event, user: string, path: string, autologin: bool, fingerprint: bool) {
    if Attempts(e) then
      && Begins(d, e) && !MayReuse(e) && user == UserOf(e) && path == SessionOf(e).exec
      && autologin == OwnerOf(e).None? && fingerprint == e.FingerprintLogin?
    else
      && (FindsFit(d, e) || FindsNothing(d, e)) && d.attempt.Attempt?
      && user == d.attempt.user && path == (if FindsFit(d, e) then "" else d.attempt.path)
      && autologin == d.phase.owner.None? && fingerprint == IsFinger(d.phase.owner)
  }

  /** When a display in state `d` says `o` at the event `e`. */
  predicate Cause(d: Daemon, e: Event, o: Output) {
    match o
    case LoginSucceeded(r) => Owner(d.phase) == Some(r) && Succeeds(e)
    case LoginFailed(r) =>
      || (Owner(d.phase) == Some(r) && Fails(d, e) && (!r.fingerprint || Accepted(d.phase)))
      || (e.Login? && e.request == r && Refused(d, e))
    case FingerprintFinished(r) =>
      || (Owner(d.phase) == Some(r) && Fails(d, e) && r.fingerprint && !Accepted(d.phase))
      || (Owner(d.phase) == Some(r) && CallsOff(d, e) && e.PromptCancelFires?)
      || (e.FingerprintLogin? && e.request == r && Refused(d, e))
    case QuietlyCancelled(r) => Owner(d.phase) == Some(r) && CallsOff(d, e) && !e.PromptCancelFires?
    case FingerprintRejected(r, text) =>
      Owner(d.phase) == Some(r) && r.fingerprint && e == HelperSays(Error(text, AuthenticationError))
    case Information(r, text) =>
      Owner(d.phase) == Some(r) && !r.fingerprint
      && (|| e == HelperSays(Info(text))
          || (e.HelperSays? && e.message.Error? && e.message.text == text)
          || e == HelperExits(Crashed(text)))
    case PrepareTransition(r, preserve) =>
      && Accepts(e) && HeldBack(d) && Owner(d.phase) == Some(r) && d.phase.Proving? && d.attempt.Attempt?
      && preserve == (d.attempt.sharedX11 && d.phase.reuse.None?)
    case TransitionOver => Completes(d, e)
    case HelperStarted(user, path, autologin, fingerprint) => StartsHelper(d, e, user, path, autologin, fingerprint)
    case HelperEnded => HelperAlive(d.phase) && (e.HelperExits? || (e.Stop? && d.started) || CallsOff(d, e))
    case PamAccepted(owner) => Accepts(e) && Owner(d.phase) == owner
    case SendReply(PromptReply(answers)) =>
      && e.HelperSays? && e.message.PromptRequest? && !IsFinger(Owner(d.phase)) && d.attempt.Attempt?
      && Answered(e.message.prompts, answers, d.attempt.user, d.attempt.passPhrase)
    case SendReply(AuthenticatedReply) => GoesOn(d, e)
    case SendReply(SessionStatusReply) => e.HelperSays? && e.message.SessionStatus?
    case ListSessions => Begins(d, e) && MayReuse(e)
    case GetProperties(id) =>
      && d.phase.LookingUp? && d.phase.search.Listing? && e.SessionsListed? && e.reply.Some?
      && exists x <- e.reply.value :: x.userName == d.phase.search.user && x.id == id
    case UnlockSession(sid) => GoesOn(d, e) && (d.phase.Proving? || d.phase.Held?) && d.phase.reuse == Some(sid)
    case ActivateSession(sid) => d.phase.Activating? && d.phase.sid == sid && e == UnlockAnswered(true)
    case SessionRegistered => Accepts(e) && d.phase.Proving? && d.phase.reuse.None?
    case SessionUnregistered =>
      Registered(d.phase) && (e.HelperExits? || (e.Stop? && d.started) || e == HelperSays(SessionStatus(false)))
    case StartDisplayServer =>
      || (e.StartDisplay? && !d.started && !Begins(d, e))
      || (e == HelperSays(Authenticated("")) && d.autologin && !d.rootful)
    case GreeterStarted =>
      || (e.ServerReady? && !d.started && !Begins(d, e))
      || (e == HelperSays(Authenticated("")) && d.autologin && d.rootful)
    case GreeterStopped => e == HelperSays(SessionStatus(true)) && d.greeterUp
    case DisplayStopped => Stops(d, e)
  }

  /** The step says exactly what has a cause. */
  ghost predicate Caused(d: Daemon, e: Event, d': Daemon) {
    d.log <= d'.log && forall o :: o in d'.log[|d.log|..] <==> Cause(d, e, o)
  }

  lemma AllTold(d: Daemon, e: Event, d': Daemon, outputs: seq<Output>)
    requires d'.log == d.log + outputs && forall o :: o in outputs <==> Cause(d, e, o)
    ensures Caused(d, e, d')
  {
    assert d'.log[|d.log|..] == outputs;
  }

  lemma FailureIs(p: Phase, o: Output)
    ensures o in Failure(p) <==>
      && (o.LoginFailed? || o.FingerprintFinished?) && Owner(p) == Some(o.request)
      && (o.FingerprintFinished? <==> o.request.fingerprint && !Accepted(p))
  {
  }

  lemma NoticeIs(p: Phase, how: HelperExit, o: Output)
    ensures o in Notice(p, how) <==>
      o.Information? && Owner(p) == Some(o.request) && !o.request.fingerprint && how == Crashed(o.text)
  {
  }

  // ---------- event by event ----------

  lemma BeginSays(d: Daemon, owner: Option<Request>, user: string, passPhrase: string,
                  session: SessionChoice, canReuse: bool)
    ensures Begin(d, owner, user, passPhrase, session, canReuse).log == d.log +
      [if canReuse then ListSessions
       else HelperStarted(user, session.exec, d.autologin, owner.Some? && owner.value.fingerprint)]
  {
  }

  function TakenOver(d: Daemon): seq<Output> {
    if Cancellable(d.phase) then Death(d.phase) + [QuietlyCancelled(Owner(d.phase).value)] else []
  }

  function LoginSays(d: Daemon, e: Event): Output
    requires e.Login?
  {
    if Refused(d, e) then LoginFailed(e.request)
    else if e.canReuse then ListSessions
    else HelperStarted(e.user, e.session.exec, false, false)
  }

  lemma TakenOverLog(d: Daemon)
    requires Cancellable(d.phase)
    ensures var before := Emit(CancelFingerprint(d), [QuietlyCancelled(Owner(d.phase).value)]);
      before.log == d.log + TakenOver(d) && !Busy(before.phase) && before.autologin == d.autologin
  {
  }

  /** What a password request leads to on a display that listens for no finger. */
  lemma FreeLoginLog(d: Daemon, e: Event)
    requires e.Login? && !e.request.fingerprint && !Cancellable(d.phase) && !d.autologin
    ensures OnLogin(d, e.request, e.user, e.passPhrase, e.session, e.canReuse).log == d.log + [LoginSays(d, e)]
  {
    BeginSays(d.(issued := d.issued + 1), Some(e.request), e.user, e.passPhrase, e.session, e.canReuse);
    hide Begin, Cancellable, Busy;
  }

  lemma TakingLoginLog(d: Daemon, e: Event)
    requires e.Login? && !e.request.fingerprint && Cancellable(d.phase) && !d.autologin
    ensures OnLogin(d, e.request, e.user, e.passPhrase, e.session, e.canReuse).log
         == d.log + TakenOver(d) + [LoginSays(d, e)]
  {
    var before := d.(issued := d.issued + 1);
    TakenOverLog(before);
    assert TakenOver(before) == TakenOver(d);
    before := Emit(CancelFingerprint(before), [QuietlyCancelled(Owner(d.phase).value)]);
    BeginSays(before, Some(e.request), e.user, e.passPhrase, e.session, e.canReuse);
    hide Begin, CancelFingerprint, Cancellable, Busy, TakenOver, Owner;
  }

  lemma LoginLog(d: Daemon, e: Event)
    requires WellFormed(d) && Enabled(d, e) && e.Login?
    ensures Step(d, e).log == d.log + (TakenOver(d) + [LoginSays(d, e)])
  {
    assert !d.autologin && Step(d, e) == OnLogin(d, e.request, e.user, e.passPhrase, e.session, e.canReuse);
    if Cancellable(d.phase) { TakingLoginLog(d, e); } else { FreeLoginLog(d, e); }
    hide Step, Enabled, WellFormed, OnLogin, LoginSays;
  }

  lemma LoginIsCaused(d: Daemon, e: Event)
    requires WellFormed(d) && Enabled(d, e) && e.Login?
    ensures Caused(d, e, Step(d, e))
  {
    LoginLog(d, e);
    assert d.serving && e.request.id == d.issued && !e.request.fingerprint;
    assert Owner(d.phase).Some? ==> Owner(d.phase).value.id < d.issued;
    hide Step, WellFormed, Enabled;
    AllTold(d, e, Step(d, e), TakenOver(d) + [LoginSays(d, e)]);
  }

  lemma FingerprintLoginIsCaused(d: Daemon, e: Event)
    requires WellFormed(d) && Enabled(d, e) && e.FingerprintLogin?
    ensures Caused(d, e, Step(d, e))
  {
    BeginSays(d.(issued := d.issued + 1), Some(e.request), e.user, "", e.session, e.canReuse);
    hide Begin;
    var said := if Refused(d, e) then FingerprintFinished(e.request)
                else if e.canReuse then ListSessions
                else HelperStarted(e.user, e.session.exec, false, true);
    assert Step(d, e).log == d.log + [said];
    hide Step, WellFormed;
    AllTold(d, e, Step(d, e), [said]);
  }

  lemma CancelIsCaused(d: Daemon, e: Event)
    requires WellFormed(d) && Enabled(d, e) && (e.FingerprintCancel? || e.PromptCancelFires?)
    ensures Caused(d, e, Step(d, e))
  {
    var said := [];
    if CallsOff(d, e) {
      var r := Owner(d.phase).value;
      said := Death(d.phase) + [if e.PromptCancelFires? then FingerprintFinished(r) else QuietlyCancelled(r)];
    }
    assert Step(d, e).log == d.log + said;
    hide Step, WellFormed;
    AllTold(d, e, Step(d, e), said);
  }

  function StartSays(d: Daemon, e: Event): seq<Output>
    requires e.StartDisplay? || e.ServerReady?
  {
    if d.started then []
    else if !Begins(d, e) then [if e.StartDisplay? then StartDisplayServer else GreeterStarted]
    else if e.plan.canReuse then [ListSessions]
    else [HelperStarted(e.plan.user, e.plan.session.exec, true, false)]
  }

  lemma StartLog(d: Daemon, e: Event)
    requires WellFormed(d) && Enabled(d, e) && (e.StartDisplay? || e.ServerReady?)
    ensures Step(d, e).log == d.log + StartSays(d, e)
  {
    if e.plan.AutologinAs? {
      BeginSays(d.(started := true, autologin := true), None, e.plan.user, "", e.plan.session, e.plan.canReuse);
    }
    hide Begin, WellFormed;
  }

  lemma StartTold(d: Daemon, e: Event, o: Output)
    requires e.StartDisplay? || e.ServerReady?
    ensures o in StartSays(d, e) <==> Cause(d, e, o)
  {
    assert d.started ==> !Begins(d, e);
    hide Complete, Cancellable, HelperAlive, Registered;
  }

  lemma StartIsCaused(d: Daemon, e: Event)
    requires WellFormed(d) && Enabled(d, e) && (e.StartDisplay? || e.ServerReady?)
    ensures Caused(d, e, Step(d, e))
  {
    StartLog(d, e);
    hide Step, WellFormed, Cause, StartSays;
    forall o ensures o in StartSays(d, e) <==> Cause(d, e, o) { StartTold(d, e, o); }
    AllTold(d, e, Step(d, e), StartSays(d, e));
  }

  function SearchSays(d: Daemon, e: Event): seq<Output>
    requires d.phase.LookingUp? && d.attempt.Attempt?
  {
    if !FindsFit(d, e) && !FindsNothing(d, e) then []
    else
      [HelperStarted(d.attempt.user, if FindsFit(d, e) then "" else d.attempt.path,
                     d.phase.owner.None?, IsFinger(d.phase.owner))]
  }

  lemma FinishSays(d: Daemon, found: Option<string>)
    requires WellFormed(d) && d.phase.LookingUp?
    ensures FinishLookup(d, found).log == d.log + [HelperStarted(d.attempt.user,
      if found.Some? then "" else d.attempt.path, d.phase.owner.None?, IsFinger(d.phase.owner))]
  {
  }

  lemma ReplyLog(d: Daemon, entry: SessionEntry, properties: Option<Properties>)
    requires WellFormed(d) && d.phase.LookingUp? && d.phase.search.Collecting? && entry in d.phase.search.waiting
    ensures OnPropertiesRead(d, entry, properties).log == d.log + SearchSays(d, PropertiesRead(entry, properties))
  {
    var waiting := d.phase.search.waiting;
    assert waiting == waiting - multiset{entry} + multiset{entry};
    FinishSays(d, None);
    FinishSays(d, Some(entry.id));
    hide FinishLookup, WellFormed, IsFinger;
  }

  lemma SearchLog(d: Daemon, e: Event)
    requires WellFormed(d) && Enabled(d, e) && (e.PropertiesRead? || e.LookupTimeout?)
    ensures Step(d, e).log == d.log + SearchSays(d, e)
  {
    if e.PropertiesRead? {
      ReplyLog(d, e.entry, e.properties);
      hide OnPropertiesRead, SearchSays, WellFormed;
    } else {
      FinishSays(d, None);
      hide FinishLookup, WellFormed;
    }
  }

  lemma SearchTold(d: Daemon, e: Event, o: Output)
    requires d.phase.LookingUp? && d.attempt.Attempt? && (e.PropertiesRead? || e.LookupTimeout?)
    ensures o in SearchSays(d, e) <==> Cause(d, e, o)
  {
    hide FindsFit, FindsNothing, IsFinger;
  }

  lemma SearchIsCaused(d: Daemon, e: Event)
    requires WellFormed(d) && Enabled(d, e) && (e.PropertiesRead? || e.LookupTimeout?)
    ensures Caused(d, e, Step(d, e))
  {
    SearchLog(d, e);
    assert d.phase.LookingUp? && d.attempt.Attempt?;
    hide Step, WellFormed, Cause, SearchSays;
    forall o ensures o in SearchSays(d, e) <==> Cause(d, e, o) { SearchTold(d, e, o); }
    AllTold(d, e, Step(d, e), SearchSays(d, e));
  }

  lemma {:induction false} CandidatesAre(entries: seq<SessionEntry>, user: string, x: SessionEntry)
    ensures x in Candidates(entries, user) <==> x in entries && x.userName == user
  {
    if entries != [] { CandidatesAre(entries[1..], user, x); }
  }

  function ListSays(d: Daemon, candidates: seq<SessionEntry>): seq<Output>
    requires d.phase.LookingUp? && d.attempt.Attempt?
  {
    if candidates != [] then PropertyQueries(candidates)
    else [HelperStarted(d.attempt.user, d.attempt.path, d.phase.owner.None?, IsFinger(d.phase.owner))]
  }

  lemma ListLog(d: Daemon, e: Event) returns (candidates: seq<SessionEntry>)
    requires WellFormed(d) && Enabled(d, e) && e.SessionsListed?
    ensures Step(d, e).log == d.log + ListSays(d, candidates)
    ensures forall x: SessionEntry ::
      x in candidates <==> e.reply.Some? && x in e.reply.value && x.userName == d.phase.search.user
  {
    var user := d.phase.search.user;
    candidates := if e.reply.Some? then Candidates(e.reply.value, user) else [];
    FinishSays(d, None);
    hide FinishLookup, WellFormed, Candidates, PropertyQueries;
    forall x: SessionEntry ensures x in candidates <==> e.reply.Some? && x in e.reply.value && x.userName == user {
      if e.reply.Some? { CandidatesAre(e.reply.value, user, x); }
    }
  }

  lemma ListTold(d: Daemon, e: Event, candidates: seq<SessionEntry>, o: Output)
    requires d.phase.LookingUp? && d.phase.search.Listing? && d.attempt.Attempt? && e.SessionsListed?
    requires forall x: SessionEntry ::
      x in candidates <==> e.reply.Some? && x in e.reply.value && x.userName == d.phase.search.user
    ensures o in ListSays(d, candidates) <==> Cause(d, e, o)
  {
    assert candidates != [] ==> candidates[0] in candidates;
    assert candidates == [] <==> FindsNothing(d, e);
    QueriesAre(candidates);
    hide PropertyQueries, FindsNothing, IsFinger;
  }

  lemma ListIsCaused(d: Daemon, e: Event)
    requires WellFormed(d) && Enabled(d, e) && e.SessionsListed?
    ensures Caused(d, e, Step(d, e))
  {
    var candidates := ListLog(d, e);
    assert d.phase.LookingUp? && d.phase.search.Listing? && d.attempt.Attempt?;
    hide Step, WellFormed, Cause, ListSays;
    forall o ensures o in ListSays(d, candidates) <==> Cause(d, e, o) { ListTold(d, e, candidates, o); }
    AllTold(d, e, Step(d, e), ListSays(d, candidates));
  }

  lemma QueriesAre(entries: seq<SessionEntry>)
    ensures forall o :: o in PropertyQueries(entries) <==> o.GetProperties? && exists x <- entries :: x.id == o.id
  {
    forall x <- entries ensures GetProperties(x.id) in PropertyQueries(entries) {
      var i :| 0 <= i < |entries| && entries[i] == x;
      assert PropertyQueries(entries)[i] == GetProperties(x.id);
    }
  }

  function AcceptanceSays(d: Daemon): seq<Output>
    requires d.phase.Proving? && d.attempt.Attempt?
  {
    var (owner, reuse) := (d.phase.owner, d.phase.reuse);
    var registration := if reuse.None? then [SessionRegistered] else [];
    [PamAccepted(owner)]
    + if HeldBack(d) then [PrepareTransition(owner.value, d.attempt.sharedX11 && reuse.None?)] + registration
      else registration + Released(reuse)
  }

  lemma AcceptanceLog(d: Daemon, e: Event)
    requires WellFormed(d) && Enabled(d, e) && Accepts(e)
    ensures Step(d, e).log == d.log + AcceptanceSays(d)
  {
  }

  lemma AcceptanceIsCaused(d: Daemon, e: Event)
    requires WellFormed(d) && Enabled(d, e) && Accepts(e)
    ensures Caused(d, e, Step(d, e))
  {
    AcceptanceLog(d, e);
    hide Step, WellFormed, HeldBack;
    AllTold(d, e, Step(d, e), AcceptanceSays(d));
  }

  function Released(reuse: Option<string>): seq<Output> {
    (if reuse.Some? then [UnlockSession(reuse.value)] else []) + [SendReply(AuthenticatedReply)]
  }

  lemma RefusalIsCaused(d: Daemon, e: Event)
    requires WellFormed(d) && Enabled(d, e) && e == HelperSays(Authenticated(""))
    ensures Caused(d, e, Step(d, e))
  {
    var said := if d.autologin then [if d.rootful then GreeterStarted else StartDisplayServer] else Failure(d.phase);
    assert Step(d, e).log == d.log + said;
    assert d.autologin ==> Owner(d.phase).None?;
    hide Step, WellFormed;
    AllTold(d, e, Step(d, e), said);
  }

  function StatusSays(d: Daemon, ok: bool): seq<Output> {
    [SendReply(SessionStatusReply)]
    + if ok then Success(d.phase) + (if d.greeterUp then [GreeterStopped] else [])
      else Failure(d.phase) + Unregistration(d.phase)
  }

  lemma StatusTold(d: Daemon, ok: bool, o: Output)
    ensures o in StatusSays(d, ok) <==> Cause(d, HelperSays(SessionStatus(ok)), o)
  {
    FailureIs(d.phase, o);
    hide Failure, Accepted, Cancellable, HelperAlive, Registered;
  }

  lemma SessionStatusIsCaused(d: Daemon, e: Event)
    requires WellFormed(d) && Enabled(d, e) && e.HelperSays? && e.message.SessionStatus?
    ensures Caused(d, e, Step(d, e))
  {
    assert Step(d, e).log == d.log + StatusSays(d, e.message.ok);
    hide Step, WellFormed, Cause, StatusSays;
    forall o ensures o in StatusSays(d, e.message.ok) <==> Cause(d, e, o) { StatusTold(d, e.message.ok, o); }
    AllTold(d, e, Step(d, e), StatusSays(d, e.message.ok));
  }

  lemma RemarkIsCaused(d: Daemon, e: Event)
    requires WellFormed(d) && Enabled(d, e) && e.HelperSays? && (e.message.Info? || e.message.Error?)
    ensures Caused(d, e, Step(d, e))
  {
    var owner := Owner(d.phase);
    var said := if owner.None? then []
      else if !owner.value.fingerprint then [Information(owner.value, e.message.text)]
      else if e.message.Error? && e.message.kind.AuthenticationError? then
        [FingerprintRejected(owner.value, e.message.text)]
      else [];
    assert Step(d, e).log == d.log + said;
    hide Step, WellFormed;
    AllTold(d, e, Step(d, e), said);
  }

  lemma PromptIsCaused(d: Daemon, e: Event)
    requires WellFormed(d) && Enabled(d, e) && e.HelperSays? && e.message.PromptRequest?
    ensures Caused(d, e, Step(d, e))
  {
    var (user, passPhrase, prompts) := (d.attempt.user, d.attempt.passPhrase, e.message.prompts);
    var answers := Answers(prompts, user, passPhrase);
    var said := if IsFinger(Owner(d.phase)) || answers.None? then [] else [SendReply(PromptReply(answers.value))];
    assert Step(d, e).log == d.log + said;
    forall a: seq<Prompt> ensures Answered(prompts, a, user, passPhrase) <==> answers == Some(a) {
      AnswersAre(prompts, a, user, passPhrase);
    }
    hide Step, WellFormed, Answers, Answered;
    AllTold(d, e, Step(d, e), said);
  }

  lemma AnswersAre(prompts: seq<Prompt>, a: seq<Prompt>, user: string, passPhrase: string)
    ensures Answered(prompts, a, user, passPhrase) <==> Answers(prompts, user, passPhrase) == Some(a)
  {
    if Answered(prompts, a, user, passPhrase) {
      assert a[0] == prompts[0].(response := a[0].response);
      if |prompts| == 2 {
        assert a[1] == prompts[1].(response := a[1].response) && a == [a[0], a[1]];
      } else {
        assert a == [a[0]];
      }
    }
  }

  function TransitionSays(d: Daemon, e: Event): seq<Output> {
    if Completes(d, e) && d.phase.Held? then [TransitionOver] + Released(d.phase.reuse) else []
  }

  lemma TransitionLog(d: Daemon, e: Event)
    requires WellFormed(d) && Enabled(d, e) && (e.TransitionReady? || e.TransitionTimeout?)
    ensures Step(d, e).log == d.log + TransitionSays(d, e)
  {
  }

  lemma TransitionTold(d: Daemon, e: Event, o: Output)
    requires e.TransitionReady? || e.TransitionTimeout?
    ensures o in TransitionSays(d, e) <==> Cause(d, e, o)
  {
  }

  lemma TransitionIsCaused(d: Daemon, e: Event)
    requires WellFormed(d) && Enabled(d, e) && (e.TransitionReady? || e.TransitionTimeout?)
    ensures Caused(d, e, Step(d, e))
  {
    TransitionLog(d, e);
    hide Step, WellFormed, Cause, TransitionSays;
    forall o ensures o in TransitionSays(d, e) <==> Cause(d, e, o) { TransitionTold(d, e, o); }
    AllTold(d, e, Step(d, e), TransitionSays(d, e));
  }

  /** What a display says that stops at rest. */
  lemma StopAtRestSays(d: Daemon)
    requires d.phase.Idle?
    ensures StopDisplay(d).log == d.log + if d.started then [DisplayStopped] else []
  {
  }

  function ActivationSays(d: Daemon, e: Event): seq<Output>
    requires d.phase.Activating?
  {
    if e == UnlockAnswered(true) then [ActivateSession(d.phase.sid)]
    else
      (if Succeeds(e) then Success(d.phase) else Failure(d.phase))
      + if Stops(d, e) then [DisplayStopped] else []
  }

  lemma ActivationLog(d: Daemon, e: Event)
    requires WellFormed(d) && Enabled(d, e) && (e.UnlockAnswered? || e.SwitchAnswered? || e.ActivationTimeout?)
    ensures Step(d, e).log == d.log + ActivationSays(d, e)
  {
    var ok := Succeeds(e);
    if e != UnlockAnswered(true) {
      FinishActivationLog(d, ok);
      assert Step(d, e) == FinishActivation(d, ok);
      assert Stops(d, e) <==> d.started && !d.phase.helperAlive;
      hide Step, FinishActivation, WellFormed, Success, Failure, Stops;
    }
  }

  lemma FinishActivationLog(d: Daemon, ok: bool)
    requires d.phase.Activating?
    ensures FinishActivation(d, ok).log == d.log
      + (if ok then Success(d.phase) else Failure(d.phase))
      + if d.started && !d.phase.helperAlive then [DisplayStopped] else []
  {
    StopAtRestSays(Rest(Emit(d, if ok then Success(d.phase) else Failure(d.phase))));
    hide StopDisplay, Success, Failure;
  }

  lemma ActivationTold(d: Daemon, e: Event, o: Output)
    requires d.phase.Activating? && (e.UnlockAnswered? || e.SwitchAnswered? || e.ActivationTimeout?)
    ensures o in ActivationSays(d, e) <==> Cause(d, e, o)
  {
    FailureIs(d.phase, o);
    assert Accepted(d.phase) && !Cancellable(d.phase);
    hide Failure, Stops, Cancellable, Accepted;
  }

  lemma ActivationIsCaused(d: Daemon, e: Event)
    requires WellFormed(d) && Enabled(d, e) && (e.UnlockAnswered? || e.SwitchAnswered? || e.ActivationTimeout?)
    ensures Caused(d, e, Step(d, e))
  {
    ActivationLog(d, e);
    hide Step, WellFormed, Cause, ActivationSays;
    forall o ensures o in ActivationSays(d, e) <==> Cause(d, e, o) { ActivationTold(d, e, o); }
    AllTold(d, e, Step(d, e), ActivationSays(d, e));
  }

  function ExitSays(d: Daemon, e: Event): seq<Output>
    requires e.HelperExits?
  {
    [HelperEnded] + Notice(d.phase, e.how) + Unregistration(d.phase)
    + (if d.phase.Activating? then [] else Failure(d.phase)) + if Stops(d, e) then [DisplayStopped] else []
  }

  lemma ExitLog(d: Daemon, e: Event)
    requires WellFormed(d) && Enabled(d, e) && e.HelperExits?
    ensures Step(d, e).log == d.log + ExitSays(d, e)
  {
    StopAtRestSays(Rest(Emit(Bury(d, e.how), Failure(d.phase))));
    hide StopDisplay, WellFormed, Failure, Unregistration, Notice;
  }

  lemma ExitTold(d: Daemon, e: Event, o: Output)
    requires HelperAlive(d.phase) && e.HelperExits?
    ensures o in ExitSays(d, e) <==> Cause(d, e, o)
  {
    FailureIs(d.phase, o);
    NoticeIs(d.phase, e.how, o);
    hide HelperAlive, Stops, Failure, Notice, Owner, Accepted;
  }

  lemma ExitIsCaused(d: Daemon, e: Event)
    requires WellFormed(d) && Enabled(d, e) && e.HelperExits?
    ensures Caused(d, e, Step(d, e))
  {
    ExitLog(d, e);
    assert HelperAlive(d.phase);
    hide Step, WellFormed, Cause, ExitSays, HelperAlive;
    forall o ensures o in ExitSays(d, e) <==> Cause(d, e, o) { ExitTold(d, e, o); }
    AllTold(d, e, Step(d, e), ExitSays(d, e));
  }

  function StopSays(d: Daemon): seq<Output> {
    if d.started then Failure(d.phase) + Unregistration(d.phase) + Death(d.phase) + [DisplayStopped] else []
  }

  lemma StopTold(d: Daemon, o: Output)
    requires Owner(d.phase).Some? || Registered(d.phase) ==> d.started
    ensures o in StopSays(d) <==> Cause(d, Event.Stop, o)
  {
    FailureIs(d.phase, o);
    hide Failure, Accepted, Owner, HelperAlive, Registered;
  }

  lemma StopIsCaused(d: Daemon, e: Event)
    requires WellFormed(d) && Enabled(d, e) && e.Stop?
    ensures Caused(d, e, Step(d, e))
  {
    assert Step(d, e).log == d.log + StopSays(d);
    assert Owner(d.phase).Some? || Registered(d.phase) ==> d.started;
    hide Step, WellFormed, Cause, StopSays, Owner, Registered;
    forall o ensures o in StopSays(d) <==> Cause(d, e, o) { StopTold(d, o); }
    AllTold(d, e, Step(d, e), StopSays(d));
  }

  /** Whatever the event: the display says an output if and only if the output has a cause. */
  lemma EveryOutputHasItsCause(d: Daemon, e: Event)
    requires WellFormed(d) && Enabled(d, e)
    ensures Caused(d, e, Step(d, e))
  {
    hide Caused, Cause, WellFormed;
    match e
    case StartDisplay(_) => StartIsCaused(d, e);
    case ServerReady(_) => StartIsCaused(d, e);
    case EnableTransitions(_) => AnnouncementIsCaused(d, e);
    case Login(_, _, _, _, _) => LoginIsCaused(d, e);
    case FingerprintLogin(_, _, _, _) => FingerprintLoginIsCaused(d, e);
    case FingerprintCancel(_) => CancelIsCaused(d, e);
    case PromptCancelFires => CancelIsCaused(d, e);
    case SessionsListed(_) => ListIsCaused(d, e);
    case PropertiesRead(_, _) => SearchIsCaused(d, e);
    case LookupTimeout => SearchIsCaused(d, e);
    case HelperSays(message) =>
      if message.Authenticated? {
        if message.user != "" { AcceptanceIsCaused(d, e); } else { RefusalIsCaused(d, e); }
      } else if message.SessionStatus? {
        SessionStatusIsCaused(d, e);
      } else if message.PromptRequest? {
        PromptIsCaused(d, e);
      } else {
        RemarkIsCaused(d, e);
      }
    case TransitionReady(_) => TransitionIsCaused(d, e);
    case TransitionTimeout => TransitionIsCaused(d, e);
    case UnlockAnswered(_) => ActivationIsCaused(d, e);
    case SwitchAnswered(_) => ActivationIsCaused(d, e);
    case ActivationTimeout => ActivationIsCaused(d, e);
    case HelperExits(_) => ExitIsCaused(d, e);
    case Stop => StopIsCaused(d, e);
  }

  lemma AnnouncementIsCaused(d: Daemon, e: Event)
    requires WellFormed(d) && Enabled(d, e) && e.EnableTransitions?
    ensures Caused(d, e, Step(d, e))
  {
    AllTold(d, e, Step(d, e), []);
  }

  predicate ComesToNothing(d: Daemon, e: Event, r: Request) {
    || e == HelperSays(Authenticated("")) || e == HelperSays(SessionStatus(false))
    || e == UnlockAnswered(false) || e == SwitchAnswered(false) || e == ActivationTimeout || e == Stop
    || (e.HelperExits? && !d.phase.Activating?)
    || (r.fingerprint && !Accepted(d.phase)
        && (e.Login? || e == FingerprintCancel(r.socket) || e == PromptCancelFires))
  }

  /** What becomes of the request that waits: it succeeds exactly when the session has been opened or the
      switch to the reused one has been made, and is failed, unmatched or called off exactly otherwise. */
  lemma ResultIsTold(d: Daemon, e: Event, r: Request) returns (news: seq<Output>)
    requires WellFormed(d) && Enabled(d, e) && Owner(d.phase) == Some(r)
    ensures Step(d, e).log == d.log + news
    ensures LoginSucceeded(r) in news <==> e == HelperSays(SessionStatus(true)) || e == SwitchAnswered(true)
    ensures LoginFailed(r) in news || FingerprintFinished(r) in news || QuietlyCancelled(r) in news
      <==> ComesToNothing(d, e, r)
    ensures FingerprintFinished(r) in news ==> r.fingerprint && !Accepted(d.phase)
    ensures LoginFailed(r) in news ==> !r.fingerprint || Accepted(d.phase)
  {
    EveryOutputHasItsCause(d, e);
    NewRequest(d, e, r);
    news := Step(d, e).log[|d.log|..];
    hide Step, WellFormed, Enabled, Cause, ComesToNothing;
    ResultCauses(d, e, r);
  }

  lemma ResultCauses(d: Daemon, e: Event, r: Request)
    requires Owner(d.phase) == Some(r) && (IsRequest(e) ==> e.request != r)
    ensures Cause(d, e, LoginSucceeded(r)) <==> e == HelperSays(SessionStatus(true)) || e == SwitchAnswered(true)
    ensures Cause(d, e, LoginFailed(r)) || Cause(d, e, FingerprintFinished(r)) || Cause(d, e, QuietlyCancelled(r))
      <==> ComesToNothing(d, e, r)
    ensures Cause(d, e, FingerprintFinished(r)) ==> r.fingerprint && !Accepted(d.phase)
    ensures Cause(d, e, LoginFailed(r)) ==> !r.fingerprint || Accepted(d.phase)
  {
    assert Fails(d, e) || (Cancellable(d.phase) && CallsOff(d, e)) <==> ComesToNothing(d, e, r);
    assert CallsOff(d, e) ==> Cancellable(d.phase) && r.fingerprint && !Accepted(d.phase);
    hide Refused, Accepted, Owner, Fails, CallsOff, ComesToNothing;
  }

  lemma NewRequest(d: Daemon, e: Event, r: Request)
    requires WellFormed(d) && Enabled(d, e) && Owner(d.phase) == Some(r)
    ensures IsRequest(e) ==> e.request != r
  {
  }

  // ---------- at most one helper for each attempt ----------

  function Starts(log: seq<Output>): nat {
    if log == [] then 0 else Starts(log[..|log| - 1]) + if log[|log| - 1].HelperStarted? then 1 else 0
  }

  /** A search still has the start of its helper before it. */
  function Owed(p: Phase): nat {
    if p.LookingUp? then 1 else 0
  }

  function AttemptsIn(events: seq<Event>): nat {
    if events == [] then 0 else (if Attempts(events[0]) then 1 else 0) + AttemptsIn(events[1..])
  }

  lemma {:induction false} NoStarts(log: seq<Output>, more: seq<Output>)
    requires forall o <- more :: !o.HelperStarted?
    ensures Starts(log + more) == Starts(log)
  {
    if more == [] {
      assert log + more == log;
    } else {
      assert more[|more| - 1] in more && forall o <- more[..|more| - 1] :: o in more;
      assert (log + more)[..|log + more| - 1] == log + more[..|more| - 1];
      NoStarts(log, more[..|more| - 1]);
    }
  }

  lemma BeginStarts(d: Daemon, owner: Option<Request>, user: string, passPhrase: string,
                    session: SessionChoice, canReuse: bool)
    ensures var d' := Begin(d, owner, user, passPhrase, session, canReuse);
      Starts(d'.log) + Owed(d'.phase) == Starts(d.log) + 1
  {
    var d' := Begin(d, owner, user, passPhrase, session, canReuse);
    assert d'.log[..|d'.log| - 1] == d.log;
  }

  lemma FinishStarts(d: Daemon, found: Option<string>)
    requires d.phase.LookingUp? && d.attempt.Attempt?
    ensures Starts(FinishLookup(d, found).log) == Starts(d.log) + 1 && FinishLookup(d, found).phase.Proving?
  {
    assert FinishLookup(d, found).log[..|d.log|] == d.log;
  }

  lemma AttemptStarts(d: Daemon, e: Event)
    requires WellFormed(d) && Enabled(d, e) && Attempts(e)
    ensures Starts(Step(d, e).log) + Owed(Step(d, e).phase) <= Starts(d.log) + Owed(d.phase) + 1
  {
    hide Begin, Starts;
    NoStarts(d.log, [StartDisplayServer]);
    NoStarts(d.log, [GreeterStarted]);
    match e
    case StartDisplay(plan) =>
      if plan.AutologinAs? {
        BeginStarts(d.(started := true, autologin := true), None, plan.user, "", plan.session, plan.canReuse);
      }
    case ServerReady(plan) =>
      if plan.AutologinAs? {
        BeginStarts(d.(started := true, autologin := true), None, plan.user, "", plan.session, plan.canReuse);
      }
    case Login(request, user, passPhrase, session, canReuse) => LoginStarts(d, e);
    case FingerprintLogin(request, user, session, canReuse) =>
      NoStarts(d.log, [FingerprintFinished(request)]);
      BeginStarts(d.(issued := d.issued + 1), Some(request), user, "", session, canReuse);
  }

  lemma LoginStarts(d: Daemon, e: Event)
    requires WellFormed(d) && Enabled(d, e) && e.Login?
    ensures Starts(Step(d, e).log) + Owed(Step(d, e).phase) <= Starts(d.log) + Owed(d.phase) + 1
  {
    hide Begin, Starts;
    var before := d.(issued := d.issued + 1);
    if Cancellable(d.phase) {
      var told := [QuietlyCancelled(Owner(d.phase).value)];
      NoStarts(d.log, Death(d.phase));
      NoStarts(d.log + Death(d.phase), told);
      before := Emit(CancelFingerprint(before), told);
    }
    NoStarts(before.log, [LoginFailed(e.request)]);
    BeginStarts(before, Some(e.request), e.user, e.passPhrase, e.session, e.canReuse);
  }

  lemma SearchStarts(d: Daemon, e: Event)
    requires WellFormed(d) && Enabled(d, e) && Searches(e)
    ensures Starts(Step(d, e).log) + Owed(Step(d, e).phase) <= Starts(d.log) + Owed(d.phase)
  {
    hide FinishLookup, Candidates, Starts;
    FinishStarts(d, None);
    if e.PropertiesRead? {
      FinishStarts(d, Some(e.entry.id));
    } else if e.SessionsListed? && e.reply.Some? {
      NoStarts(d.log, PropertyQueries(Candidates(e.reply.value, d.phase.search.user)));
    }
  }

  /** Nothing else begins a search. */
  lemma NoNewSearch(d: Daemon, e: Event)
    requires WellFormed(d) && Enabled(d, e) && !Attempts(e) && !Searches(e)
    ensures Step(d, e).phase.LookingUp? ==> d.phase.LookingUp?
  {
    StopBeginsNone(d);
    hide StopDisplay;
    if e.HelperSays? {
      SayingBeginsNone(d, e.message);
    } else if e.HelperExits? {
      ExitBeginsNone(d, e.how);
    } else if d.phase.Activating? && (e.UnlockAnswered? || e.SwitchAnswered? || e.ActivationTimeout?) {
      ActivationBeginsNone(d, e);
    }
    hide OnHelperSays, OnHelperExits, OnUnlockAnswered, FinishActivation;
  }

  lemma StopBeginsNone(d: Daemon)
    ensures StopDisplay(d).phase.LookingUp? ==> d.phase.LookingUp?
  {
  }

  lemma SayingBeginsNone(d: Daemon, message: HelperMessage)
    requires WellFormed(d) && Enabled(d, HelperSays(message))
    ensures !OnHelperSays(d, message).phase.LookingUp?
  {
    assert !d.phase.LookingUp?;
    hide WellFormed, Failure, Success, Unregistration, Answers;
  }

  lemma ExitBeginsNone(d: Daemon, how: HelperExit)
    requires HelperAlive(d.phase)
    ensures !OnHelperExits(d, how).phase.LookingUp?
  {
    StopBeginsNone(Rest(Emit(Bury(d, how), Failure(d.phase))));
    hide StopDisplay, Failure, Unregistration, Notice;
  }

  lemma ActivationBeginsNone(d: Daemon, e: Event)
    requires WellFormed(d) && Enabled(d, e) && (e.UnlockAnswered? || e.SwitchAnswered? || e.ActivationTimeout?)
    ensures !Step(d, e).phase.LookingUp?
  {
    forall result: seq<Output> { StopBeginsNone(Rest(Emit(d, result))); }
    hide StopDisplay, WellFormed;
  }

  lemma NothingStarted(d: Daemon, e: Event, d': Daemon)
    requires Caused(d, e, d') && !Attempts(e) && !Searches(e)
    ensures Starts(d'.log) == Starts(d.log)
  {
    var more := d'.log[|d.log|..];
    assert d'.log == d.log + more;
    hide Starts;
    forall o <- more ensures !o.HelperStarted? { assert Cause(d, e, o); }
    NoStarts(d.log, more);
  }

  lemma StepStarts(d: Daemon, e: Event)
    requires WellFormed(d) && Enabled(d, e)
    ensures Starts(Step(d, e).log) + Owed(Step(d, e).phase)
         <= Starts(d.log) + Owed(d.phase) + if Attempts(e) then 1 else 0
  {
    hide Step, Starts, WellFormed, Enabled, Caused;
    if Attempts(e) {
      AttemptStarts(d, e);
    } else if Searches(e) {
      SearchStarts(d, e);
    } else {
      NoNewSearch(d, e);
      EveryOutputHasItsCause(d, e);
      NothingStarted(d, e, Step(d, e));
    }
  }

  /** Over any part of a run no more helpers are started than attempts begin in it, but for one that a
      search has been waiting to start. */
  lemma {:induction false} OneHelperPerAttempt(d: Daemon, events: seq<Event>)
    requires Feasible(d, events)
    ensures Starts(Run(d, events).log) + Owed(Run(d, events).phase)
         <= Starts(d.log) + Owed(d.phase) + AttemptsIn(events)
    decreases |events|
  {
    hide Step, Starts, Enabled, WellFormed;
    if events != [] {
      StepStarts(d, events[0]);
      OneHelperPerAttempt(Step(d, events[0]), events[1..]);
    }
  }
}
