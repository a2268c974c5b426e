/** The login protocol as a phase machine: what the display's flags, generation counters, timers
    and pending callbacks are meant to implement. The class in Display.dfy is proved to refine it. */
module DisplaySpec {
  import opened LoginTypes
  import opened SessionReuse

  /** Where the search for a reusable logind session stands. */
  datatype Search =
    | Listing(user: string, sessionType: string)
    | Collecting(sessionType: string, waiting: multiset<SessionEntry>)

  datatype ActivationStep = Unlocking | Switching

  /** `owner` is the greeter request that still waits for its result; an automatic login has none. */
  datatype Phase =
    | Idle
    | LookingUp(owner: Option<Request>, search: Search)
    | Proving(owner: Option<Request>, reuse: Option<string>)   // helper runs PAM
    | Held(owner: Option<Request>, reuse: Option<string>)      // accepted; greeter animates, helper waits
    | Opening(owner: Option<Request>)                          // helper opens the session
    | Activating(owner: Option<Request>, sid: string, helperAlive: bool, step: ActivationStep)
    | Detached(registered: bool)                               // helper alive, nobody waits for it

  datatype Attempt = NoAttempt | Attempt(user: string, passPhrase: string, path: string, sharedX11: bool)

  datatype Daemon = Daemon(
    rootful: bool, started: bool, ended: bool, serving: bool, greeterUp: bool, autologin: bool,
    phase: Phase, attempt: Attempt, transitions: set<nat>, promptCancels: nat,
    issued: nat, log: seq<Output>)

  datatype Event =
    | StartDisplay(plan: AutologinPlan)
    | ServerReady(plan: AutologinPlan)
    | EnableTransitions(socket: nat)
    | Login(request: Request, user: string, passPhrase: string, session: SessionChoice, canReuse: bool)
    | FingerprintLogin(request: Request, user: string, session: SessionChoice, canReuse: bool)
    | FingerprintCancel(socket: nat)
    | PromptCancelFires
    | SessionsListed(reply: Option<seq<SessionEntry>>)
    | PropertiesRead(entry: SessionEntry, properties: Option<Properties>)
    | LookupTimeout
    | HelperSays(message: HelperMessage)
    | TransitionReady(socket: nat)
    | TransitionTimeout
    | UnlockAnswered(ok: bool)
    | SwitchAnswered(ok: bool)
    | ActivationTimeout
    | HelperExits(how: HelperExit)
    | Stop

  // ---------- reading a phase ----------

  function Owner(p: Phase): Option<Request> {
    match p
    case Idle => None
    case Detached(_) => None
    case _ => p.owner
  }

  predicate HelperAlive(p: Phase) {
    match p
    case Idle => false
    case LookingUp(_, _) => false
    case Activating(_, _, alive, _) => alive
    case _ => true
  }

  /** PAM has accepted the owner of this phase. */
  predicate Accepted(p: Phase) {
    p.Held? || p.Opening? || p.Activating?
  }

  /** The display's session is in the display manager's registry. */
  predicate Registered(p: Phase) {
    match p
    case Held(_, reuse) => reuse.None?
    case Opening(_) => true
    case Detached(registered) => registered
    case _ => false
  }

  /** A fingerprint run that a password, the greeter or a stray prompt may still call off. */
  predicate Cancellable(p: Phase) {
    Owner(p).Some? && Owner(p).value.fingerprint && !Accepted(p)
  }

  predicate Busy(p: Phase) {
    HelperAlive(p) || p.LookingUp? || Owner(p).Some?
  }

  // ---------- small steps ----------

  function Emit(d: Daemon, outputs: seq<Output>): Daemon {
    d.(log := d.log + outputs)
  }

  /** What a failure means to the owner: an unmatched finger is no failed login. */
  function Failure(p: Phase): seq<Output> {
    match Owner(p)
    case None => []
    case Some(r) => [if r.fingerprint && !Accepted(p) then FingerprintFinished(r) else LoginFailed(r)]
  }

  function Success(p: Phase): seq<Output> {
    match Owner(p)
    case None => []
    case Some(r) => [LoginSucceeded(r)]
  }

  function Unregistration(p: Phase): seq<Output> {
    if Registered(p) then [SessionUnregistered] else []
  }

  function Death(p: Phase): seq<Output> {
    if HelperAlive(p) then [HelperEnded] else []
  }

  function Rest(d: Daemon): Daemon {
    d.(phase := Idle, attempt := NoAttempt)
  }

  function StartHelper(d: Daemon, owner: Option<Request>, reuse: Option<string>): Daemon
    requires d.attempt.Attempt?
  {
    var path := if reuse.Some? then "" else d.attempt.path;
    var d := d.(attempt := d.attempt.(path := path), phase := Proving(owner, reuse));
    Emit(d, [HelperStarted(d.attempt.user, path, d.autologin, owner.Some? && owner.value.fingerprint)])
  }

  /** A new attempt for a usable session. */
  function Begin(d: Daemon, owner: Option<Request>, user: string, passPhrase: string,
                 session: SessionChoice, canReuse: bool): Daemon
  {
    var d := d.(attempt := Attempt(user, passPhrase, session.exec, session.x11 && d.rootful));
    if canReuse then
      Emit(d.(phase := LookingUp(owner, Listing(user, session.xdgType))), [ListSessions])
    else
      StartHelper(d, owner, None)
  }

  function Serve(d: Daemon): Daemon {
    Emit(d.(started := true, serving := true, greeterUp := true), [GreeterStarted])
  }

  function StopDisplay(d: Daemon): Daemon {
    if !d.started then d else
    var outputs := Failure(d.phase) + Unregistration(d.phase) + Death(d.phase) + [DisplayStopped];
    Rest(Emit(d, outputs)).(started := false, ended := true, serving := false, greeterUp := false)
  }

  function CancelFingerprint(d: Daemon): Daemon
    requires Cancellable(d.phase)
  {
    Rest(Emit(d, Death(d.phase)))
  }

  // ---------- the steps ----------

  /** Tries an automatic login; the flag says whether it is under way. */
  function TryAutologin(d: Daemon, plan: AutologinPlan): (r: (Daemon, bool)) {
    if plan.AutologinAs? && plan.session.Usable() then
      (Begin(d.(autologin := true), None, plan.user, "", plan.session, plan.canReuse), true)
    else
      (d.(autologin := false), false)
  }

  function OnStartDisplay(d: Daemon, plan: AutologinPlan): Daemon {
    if d.started then d
    else if !plan.NotRequested? && !d.rootful && TryAutologin(d.(started := true), plan).1 then
      TryAutologin(d.(started := true), plan).0
    else
      Emit(if !plan.NotRequested? && !d.rootful then d.(autologin := false) else d, [StartDisplayServer])
  }

  function OnServerReady(d: Daemon, plan: AutologinPlan): Daemon {
    if d.started then d
    else if d.rootful && !plan.NotRequested? then
      var (tried, underWay) := TryAutologin(d.(started := true), plan);
      if underWay then tried else Serve(tried)
    else
      Serve(d)
  }

  function OnLogin(d: Daemon, request: Request, user: string, passPhrase: string,
                   session: SessionChoice, canReuse: bool): Daemon
  {
    var d := d.(issued := d.issued + 1);
    var d := if Cancellable(d.phase)
             then Emit(CancelFingerprint(d), [QuietlyCancelled(Owner(d.phase).value)]) else d;
    if Busy(d.phase) || user == "gxdm" || !session.Usable() then
      Emit(d, [LoginFailed(request)])
    else
      Begin(d, Some(request), user, passPhrase, session, canReuse)
  }

  function OnFingerprintLogin(d: Daemon, request: Request, user: string,
                              session: SessionChoice, canReuse: bool): Daemon
  {
    var d := d.(issued := d.issued + 1);
    if Busy(d.phase) || user == "" || user == "gxdm" || !session.Usable() then
      Emit(d, [FingerprintFinished(request)])
    else
      Begin(d, Some(request), user, "", session, canReuse)
  }

  function OnFingerprintCancel(d: Daemon, socket: nat): Daemon {
    if Cancellable(d.phase) && Owner(d.phase).value.socket == socket then
      Emit(CancelFingerprint(d), [QuietlyCancelled(Owner(d.phase).value)])
    else
      d
  }

  function OnPromptCancelFires(d: Daemon): Daemon
    requires d.promptCancels > 0
  {
    var d := d.(promptCancels := d.promptCancels - 1);
    if Cancellable(d.phase) then
      Emit(CancelFingerprint(d), [FingerprintFinished(Owner(d.phase).value)])
    else
      d
  }

  function FinishLookup(d: Daemon, found: Option<string>): Daemon
    requires d.phase.LookingUp? && d.attempt.Attempt?
  {
    StartHelper(d, d.phase.owner, found)
  }

  function Candidates(entries: seq<SessionEntry>, user: string): (c: seq<SessionEntry>) {
    if entries == [] then []
    else (if entries[0].userName == user then [entries[0]] else []) + Candidates(entries[1..], user)
  }

  function PropertyQueries(entries: seq<SessionEntry>): seq<Output> {
    seq(|entries|, i requires 0 <= i < |entries| => GetProperties(entries[i].id))
  }

  function OnSessionsListed(d: Daemon, reply: Option<seq<SessionEntry>>): Daemon
    requires d.phase.LookingUp? && d.phase.search.Listing? && d.attempt.Attempt?
  {
    var candidates := if reply.Some? then Candidates(reply.value, d.phase.search.user) else [];
    if candidates == [] then
      FinishLookup(d, None)
    else
      var search := Collecting(d.phase.search.sessionType, multiset(candidates));
      Emit(d.(phase := LookingUp(d.phase.owner, search)), PropertyQueries(candidates))
  }

  function OnPropertiesRead(d: Daemon, entry: SessionEntry, properties: Option<Properties>): Daemon
    requires d.phase.LookingUp? && d.phase.search.Collecting? && d.attempt.Attempt?
  {
    var waiting := d.phase.search.waiting - multiset{entry};
    if properties.Some? && CanReuse(properties.value, d.phase.search.sessionType) then
      FinishLookup(d, Some(entry.id))
    else if waiting == multiset{} then
      FinishLookup(d, None)
    else
      d.(phase := LookingUp(d.phase.owner, Collecting(d.phase.search.sessionType, waiting)))
  }

  function OnPromptRequest(d: Daemon, prompts: seq<Prompt>): Daemon
    requires d.attempt.Attempt?
  {
    var owner := Owner(d.phase);
    if owner.Some? && owner.value.fingerprint then
      if prompts == [] then d else d.(promptCancels := d.promptCancels + 1)
    else
      match Answers(prompts, d.attempt.user, d.attempt.passPhrase)
      case None => d
      case Some(answered) => Emit(d, [SendReply(PromptReply(answered))])
  }

  function OnAccepted(d: Daemon, user: string): Daemon
    requires d.phase.Proving? && d.attempt.Attempt?
  {
    var (owner, reuse) := (d.phase.owner, d.phase.reuse);
    var registration := if reuse.None? then [SessionRegistered] else [];
    var d := Emit(d.(attempt := d.attempt.(user := user)), [PamAccepted(owner)]);
    if owner.Some? && owner.value.socket in d.transitions then
      var preserve := d.attempt.sharedX11 && reuse.None?;
      Emit(d.(phase := Held(owner, reuse)), [PrepareTransition(owner.value, preserve)] + registration)
    else
      Release(Emit(d, registration), owner, reuse)
  }

  /** The helper may go on; a reused session is activated instead of opened. */
  function Release(d: Daemon, owner: Option<Request>, reuse: Option<string>): Daemon {
    match reuse
    case Some(sid) =>
      Emit(d.(phase := Activating(owner, sid, true, Unlocking)), [UnlockSession(sid), SendReply(AuthenticatedReply)])
    case None =>
      Emit(d.(phase := if owner.Some? then Opening(owner) else Detached(true)), [SendReply(AuthenticatedReply)])
  }

  function OnRefused(d: Daemon): Daemon
    requires d.phase.Proving?
  {
    var d' := d.(phase := Detached(false));
    if d.autologin && d.rootful then
      Serve(d'.(autologin := false))
    else if d.autologin then
      Emit(d'.(autologin := false, started := false), [StartDisplayServer])
    else
      Emit(d', Failure(d.phase))
  }

  function OnSessionStatus(d: Daemon, ok: bool): Daemon {
    var d := Emit(d, [SendReply(SessionStatusReply)]);
    if ok then
      Emit(d.(phase := Detached(true), greeterUp := false),
           Success(d.phase) + if d.greeterUp then [GreeterStopped] else [])
    else
      Emit(d.(phase := Detached(false)), Failure(d.phase) + Unregistration(d.phase))
  }

  function OnHelperSays(d: Daemon, message: HelperMessage): Daemon
    requires HelperAlive(d.phase) && d.attempt.Attempt?
    requires message.Authenticated? ==> d.phase.Proving?
  {
    var owner := Owner(d.phase);
    match message
    case Info(text) =>
      if owner.Some? && !owner.value.fingerprint then Emit(d, [Information(owner.value, text)]) else d
    case Error(text, kind) =>
      if owner.None? then d
      else if !owner.value.fingerprint then Emit(d, [Information(owner.value, text)])
      else if kind.AuthenticationError? then Emit(d, [FingerprintRejected(owner.value, text)])
      else d
    case PromptRequest(prompts) => OnPromptRequest(d, prompts)
    case Authenticated(user) => if user != "" then OnAccepted(d, user) else OnRefused(d)
    case SessionStatus(ok) => OnSessionStatus(d, ok)
  }

  function CompleteTransition(d: Daemon): Daemon
    requires d.phase.Held?
  {
    Release(Emit(d, [TransitionOver]), d.phase.owner, d.phase.reuse)
  }

  function FinishActivation(d: Daemon, ok: bool): Daemon
    requires d.phase.Activating?
  {
    var result := if ok then Success(d.phase) else Failure(d.phase);
    if d.phase.helperAlive then
      Emit(d.(phase := Detached(false)), result)
    else
      StopDisplay(Rest(Emit(d, result)))
  }

  function OnUnlockAnswered(d: Daemon, ok: bool): Daemon
    requires d.phase.Activating?
  {
    if ok then Emit(d.(phase := d.phase.(step := Switching)), [ActivateSession(d.phase.sid)])
    else FinishActivation(d, false)
  }

  /** A crash is told to a greeter that asked with a password: once as an error of the process, and once
      as the way it ended. */
  function Notice(p: Phase, how: HelperExit): seq<Output> {
    if how.Crashed? && Owner(p).Some? && !Owner(p).value.fingerprint then
      [Information(Owner(p).value, how.message), Information(Owner(p).value, how.message)]
    else []
  }

  /** The helper process is gone. */
  function Bury(d: Daemon, how: HelperExit): Daemon {
    Emit(d, [HelperEnded] + Notice(d.phase, how) + Unregistration(d.phase))
  }

  function Mourn(d: Daemon, status: ExitStatus): Daemon {
    if d.phase.Activating? then
      d.(phase := d.phase.(helperAlive := false))
    else
      var rested := Rest(Emit(d, Failure(d.phase)));
      if status.HelperAuthError? then rested else StopDisplay(rested)
  }

  function OnHelperExits(d: Daemon, how: HelperExit): Daemon
    requires HelperAlive(d.phase)
  {
    Mourn(Bury(d, how), how.Status())
  }

  /** What the environment is relied on for. Only the clauses about the helper are promises of
      another program of this repository; Handshake.dfy discharges them. */
  predicate Enabled(d: Daemon, e: Event) {
    match e
    case StartDisplay(_) => !d.ended && d.phase.Idle?
    case ServerReady(_) => !d.ended && (d.phase.Idle? || !d.rootful)
    case EnableTransitions(_) => true
    case Login(request, _, _, _, _) => d.serving && request.id == d.issued && !request.fingerprint
    case FingerprintLogin(request, _, _, _) => d.serving && request.id == d.issued && request.fingerprint
    case FingerprintCancel(_) => true
    case PromptCancelFires => d.promptCancels > 0
    case SessionsListed(_) => d.phase.LookingUp? && d.phase.search.Listing?
    case PropertiesRead(entry, _) => d.phase.LookingUp? && d.phase.search.Collecting? && entry in d.phase.search.waiting
    case LookupTimeout => d.phase.LookingUp?
    case HelperSays(message) =>
      HelperAlive(d.phase)
      && (message.Authenticated? ==> d.phase.Proving?)
      && (message.SessionStatus? ==> d.phase.Opening? || d.phase == Detached(true))
    case TransitionReady(_) => true
    case TransitionTimeout => d.phase.Held?
    case UnlockAnswered(_) => d.phase.Activating? && d.phase.step.Unlocking?
    case SwitchAnswered(_) => d.phase.Activating? && d.phase.step.Switching?
    case ActivationTimeout => d.phase.Activating?
    case HelperExits(_) => HelperAlive(d.phase)
    case Stop => true
  }

  function Step(d: Daemon, e: Event): Daemon
    requires WellFormed(d) && Enabled(d, e)
  {
    match e
    case StartDisplay(plan) => OnStartDisplay(d, plan)
    case ServerReady(plan) => OnServerReady(d, plan)
    case EnableTransitions(socket) => d.(transitions := d.transitions + {socket})
    case Login(request, user, passPhrase, session, canReuse) => OnLogin(d, request, user, passPhrase, session, canReuse)
    case FingerprintLogin(request, user, session, canReuse) => OnFingerprintLogin(d, request, user, session, canReuse)
    case FingerprintCancel(socket) => OnFingerprintCancel(d, socket)
    case PromptCancelFires => OnPromptCancelFires(d)
    case SessionsListed(reply) => OnSessionsListed(d, reply)
    case PropertiesRead(entry, properties) => OnPropertiesRead(d, entry, properties)
    case LookupTimeout => FinishLookup(d, None)
    case HelperSays(message) => OnHelperSays(d, message)
    case TransitionReady(socket) =>
      if d.phase.Held? && d.phase.owner.Some? && d.phase.owner.value.socket == socket then CompleteTransition(d) else d
    case TransitionTimeout => CompleteTransition(d)
    case UnlockAnswered(ok) => OnUnlockAnswered(d, ok)
    case SwitchAnswered(ok) => FinishActivation(d, ok)
    case ActivationTimeout => FinishActivation(d, false)
    case HelperExits(how) => OnHelperExits(d, how)
    case Stop => StopDisplay(d)
  }

  function Initial(rootful: bool): Daemon {
    Daemon(rootful, false, false, false, false, false, Idle, NoAttempt, {}, 0, 0, [])
  }

  /** Facts that hold between any two events. */
  predicate WellFormed(d: Daemon) {
    && (d.serving ==> d.started && !d.autologin)
    && (d.greeterUp ==> d.serving)
    && (d.autologin ==> d.started || d.ended)
    && (Owner(d.phase).Some? ==> d.serving && Owner(d.phase).value.id < d.issued)
    && (d.phase.LookingUp? || d.phase.Proving? || d.phase.Activating? ==> Owner(d.phase).Some? || d.autologin)
    && (d.phase.Held? || d.phase.Opening? ==> Owner(d.phase).Some?)
    && (d.phase.LookingUp? && d.phase.search.Collecting? ==> d.phase.search.waiting != multiset{})
    && (d.phase.Idle? <==> d.attempt.NoAttempt?)
    && (!d.started ==> d.phase.Idle? || d.phase == Detached(false))
    && (d.ended ==> !d.started && d.phase.Idle? && !d.serving)
  }
}
