/** The fields of a display and its Auth as one value, and what they stand for in the phase machine. */
module DisplayFlags {
  import opened LoginTypes
  import opened SessionReuse
  import opened DisplaySpec

  /** A D-Bus call whose reply is still to come, with the values its callback captured. */
  datatype Call =
    | ListCall(generation: nat, user: string, sessionType: string)
    | PropertyCall(generation: nat, sessionType: string, entry: SessionEntry)
    | UnlockCall(generation: nat, sid: string)
    | SwitchCall(generation: nat, sid: string)
  {
    predicate ForLookup() {
      ListCall? || PropertyCall?
    }
  }

  // The fields of the source, grouped; `Reuse` holds the m_reuse* ones and `AuthState` those of Auth.

  datatype Frame = Frame(started: bool, stopping: bool, serving: bool, greeterUp: bool, transitions: set<nat>)

  datatype LoginState = LoginState(
    socket: Option<Request>, fingerprintLogin: bool, cancellingFingerprint: bool, authenticated: bool,
    passPhrase: string, sharedX11: bool, transitionTimer: bool)

  datatype Reuse = Reuse(
    sessionId: Option<string>, lookupPending: bool, lookupGeneration: nat,
    activationPending: bool, activationGeneration: nat, helperFinished: bool, activationTimer: bool)

  /** The name of the session and this display's part of DisplayManager's session list. */
  datatype Names = Names(sessionName: Option<nat>, nextSessionName: nat, registry: seq<nat>)

  /** Callbacks still to come; `remaining` counts, per search, the property replies still missing. */
  datatype Owed = Owed(calls: multiset<Call>, remaining: map<nat, nat>, lookupTimers: set<nat>, promptCancels: nat)

  datatype AuthState = AuthState(
    active: bool, connected: bool, autologin: bool, fingerprint: bool,
    deferStart: bool, authenticationPending: bool, user: string, sessionPath: string)

  /** Everything a display and its Auth store; the last four are history. */
  datatype Flags = Flags(
    rootful: bool, frame: Frame, login: LoginState, reuse: Reuse, names: Names, owed: Owed, auth: AuthState,
    ended: bool, issued: nat, search: Search, log: seq<Output>)

  // ---------- coupling ----------

  function AttemptOf(f: Flags): Attempt {
    Attempt.Attempt(f.auth.user, f.login.passPhrase, f.auth.sessionPath, f.login.sharedX11)
  }

  predicate FrameFits(f: Flags, d: Daemon) {
    && !f.frame.stopping && !f.login.cancellingFingerprint
    && d.rootful == f.rootful && d.started == f.frame.started && d.ended == f.ended && d.serving == f.frame.serving
    && d.greeterUp == f.frame.greeterUp && d.autologin == f.auth.autologin && d.transitions == f.frame.transitions
    && d.promptCancels == f.owed.promptCancels && d.issued == f.issued && d.log == f.log
    && (d.attempt.Attempt? ==> d.attempt == AttemptOf(f))
  }

  predicate SocketFits(f: Flags, owner: Option<Request>) {
    && f.login.socket == owner
    && f.login.fingerprintLogin == (owner.Some? && owner.value.fingerprint)
    && f.auth.fingerprint == f.login.fingerprintLogin
  }

  predicate PhaseFits(f: Flags, p: Phase) {
    && f.reuse.lookupPending == p.LookingUp?
    && f.reuse.activationPending == p.Activating?
    && f.reuse.activationTimer == p.Activating?
    && (Registered(p) ==> f.names.sessionName.Some?)
    && f.names.registry == (if Registered(p) then [f.names.sessionName.value] else [])
    && (p.LookingUp? || p.Proving? ==> !f.login.authenticated && f.names.sessionName.Some?)
    && (Accepted(p) ==> f.login.authenticated)
    && (p.Detached? ==> f.login.authenticated || !f.auth.autologin)
    && (p.Proving? || p.Held? ==> f.reuse.sessionId == p.reuse)
    && (p.Activating? ==> f.reuse.sessionId == Some(p.sid))
    && (p.LookingUp? ==> f.reuse.sessionId == None)
  }

  predicate HelperFits(f: Flags, p: Phase) {
    && f.auth.active == HelperAlive(p)
    && f.auth.connected == HelperAlive(p)
    && f.auth.authenticationPending == p.Held?
    && f.auth.deferStart == p.Held?
    && f.login.transitionTimer == p.Held?
    && (p.Activating? ==> f.reuse.helperFinished == !p.helperAlive)
    && (p.LookingUp? || p.Proving? || p.Held? ==> !f.reuse.helperFinished)
  }

  /** No callback is from the future. */
  ghost predicate NoneAhead(f: Flags) {
    forall c <- f.owed.calls ::
      c.generation <= if c.ForLookup() then f.reuse.lookupGeneration else f.reuse.activationGeneration
  }

  /** The pending search has its timer and exactly the calls it waits for. */
  ghost predicate SearchFits(f: Flags, s: Search) {
    && s == f.search
    && f.reuse.lookupGeneration in f.owed.lookupTimers
    && match s
       case Listing(user, sessionType) =>
         && f.owed.calls[ListCall(f.reuse.lookupGeneration, user, sessionType)] == 1
         && forall c <- f.owed.calls | c.ForLookup() && c.generation == f.reuse.lookupGeneration ::
              c == ListCall(f.reuse.lookupGeneration, user, sessionType)
       case Collecting(sessionType, waiting) =>
         && (forall c <- f.owed.calls | c.ForLookup() && c.generation == f.reuse.lookupGeneration ::
               c.PropertyCall? && c.sessionType == sessionType)
         && (forall e :: f.owed.calls[PropertyCall(f.reuse.lookupGeneration, sessionType, e)] == waiting[e])
         && f.reuse.lookupGeneration in f.owed.remaining && f.owed.remaining[f.reuse.lookupGeneration] == |waiting|
  }

  /** The pending activation waits for exactly one call. */
  predicate ActivationFits(f: Flags, sid: string, step: ActivationStep) {
    && f.owed.calls[UnlockCall(f.reuse.activationGeneration, sid)] == (if step.Unlocking? then 1 else 0)
    && f.owed.calls[SwitchCall(f.reuse.activationGeneration, sid)] == (if step.Switching? then 1 else 0)
  }

  ghost predicate CallsFit(f: Flags, p: Phase) {
    && NoneAhead(f)
    && (p.LookingUp? ==> SearchFits(f, p.search))
    && (p.Activating? ==> ActivationFits(f, p.sid, p.step))
  }

  ghost predicate Fits(f: Flags, d: Daemon) {
    && FrameFits(f, d) && SocketFits(f, Owner(d.phase)) && PhaseFits(f, d.phase) && HelperFits(f, d.phase)
    && CallsFit(f, d.phase)
  }

  /** The phase the flags stand for. */
  function PhaseOf(f: Flags): Phase {
    if f.reuse.lookupPending then LookingUp(f.login.socket, f.search)
    else if f.reuse.activationPending && f.reuse.sessionId.Some? then
      Activating(f.login.socket, f.reuse.sessionId.value, f.auth.active,
                 if UnlockCall(f.reuse.activationGeneration, f.reuse.sessionId.value) in f.owed.calls
                 then Unlocking else Switching)
    else if !f.auth.active then Idle
    else if f.auth.authenticationPending then Held(f.login.socket, f.reuse.sessionId)
    else if !f.login.authenticated && (f.login.socket.Some? || f.auth.autologin) then
      Proving(f.login.socket, f.reuse.sessionId)
    else if f.login.socket.Some? then Opening(f.login.socket)
    else Detached(f.names.registry != [])
  }

  function Abs(f: Flags): Daemon {
    var p := PhaseOf(f);
    Daemon(f.rootful, f.frame.started, f.ended, f.frame.serving, f.frame.greeterUp, f.auth.autologin, p,
           if p.Idle? then NoAttempt else AttemptOf(f),
           f.frame.transitions, f.owed.promptCancels, f.issued, f.log)
  }

  /** The invariant between any two events. */
  ghost predicate Inv(f: Flags) {
    WellFormed(Abs(f)) && Fits(f, Abs(f))
  }

  lemma Determined(f: Flags, d: Daemon)
    requires WellFormed(d) && Fits(f, d)
    ensures Inv(f) && Abs(f) == d
  {
  }

  /** Callbacks fit a phase that waits for none, whatever became of the flags. */
  lemma CallsForgotten(f: Flags, p: Phase, f': Flags, p': Phase)
    requires CallsFit(f, p) && !p'.LookingUp? && !p'.Activating?
    requires f'.owed.calls <= f.owed.calls && f.reuse.lookupGeneration <= f'.reuse.lookupGeneration
        && f.reuse.activationGeneration <= f'.reuse.activationGeneration
    ensures CallsFit(f', p')
  {
    forall c <- f'.owed.calls ensures c in f.owed.calls {}
  }

  lemma CallsUntouched(f: Flags, p: Phase, f': Flags)
    requires CallsFit(f, p) && f'.owed.calls == f.owed.calls && f'.search == f.search
    requires f'.owed.remaining == f.owed.remaining
    requires f'.owed.lookupTimers == f.owed.lookupTimers
    requires f'.reuse.lookupGeneration == f.reuse.lookupGeneration
        && f'.reuse.activationGeneration == f.reuse.activationGeneration
    ensures CallsFit(f', p)
  {
  }

  // ---------- what the internal steps do to the flags ----------

  /** What finishLogin says. */
  function Verdict(f: Flags, success: bool): seq<Output> {
    if f.login.socket.None? then []
    else if success then [LoginSucceeded(f.login.socket.value)]
    else if f.login.fingerprintLogin && !f.login.authenticated then [FingerprintFinished(f.login.socket.value)]
    else [LoginFailed(f.login.socket.value)]
  }

  function Finished(f: Flags, success: bool): Flags {
    f.(login := f.login.(transitionTimer := false, socket := None, fingerprintLogin := false),
       auth := f.auth.(fingerprint := false),
       log := f.log + Verdict(f, success))
  }

  lemma VerdictFits(f: Flags, p: Phase)
    requires SocketFits(f, Owner(p)) && PhaseFits(f, p)
    ensures Verdict(f, false) == Failure(p) && Verdict(f, true) == Success(p)
  {
  }

  /** The helper is killed or has exited. */
  function Bereft(f: Flags): Flags {
    f.(auth := f.auth.(active := false, connected := false, deferStart := false, authenticationPending := false))
  }

  /** The helper is killed while the display or its fingerprint login is being ended. */
  function Killed(f: Flags): Flags {
    Bereft(f).(names := f.names.(sessionName := None), log := f.log + [HelperEnded])
  }

  predicate Ending(f: Flags) {
    && (f.frame.stopping || f.login.cancellingFingerprint)
    && (f.frame.stopping ==> f.login.socket.None? && !f.reuse.activationPending)
    && (f.login.socket.None? || f.login.fingerprintLogin)
    && f.names.registry == []
  }

  /** What a display says while it is being stopped. */
  function Farewell(f: Flags): seq<Output> {
    Verdict(f, false) + (if f.names.registry == [] then [] else [SessionUnregistered])
    + (if f.auth.active then [HelperEnded] else []) + [DisplayStopped]
  }

  lemma FarewellFits(f: Flags, p: Phase)
    requires SocketFits(f, Owner(p)) && PhaseFits(f, p) && HelperFits(f, p)
    ensures Farewell(f) == Failure(p) + Unregistration(p) + Death(p) + [DisplayStopped]
  {
    hide Verdict, Failure;
    VerdictFits(f, p);
  }

  function Unlisted(f: Flags): Flags {
    f.(names := f.names.(sessionName := None, registry := []),
       log := f.log + if f.names.registry == [] then [] else [SessionUnregistered])
  }

  /** A display that is being stopped, up to the helper. */
  function Retired(f: Flags): Flags {
    Unlisted(Finished(f.(
      frame := f.frame.(stopping := true),
      reuse := f.reuse.(lookupPending := false, lookupGeneration := f.reuse.lookupGeneration + 1,
                        activationPending := false, helperFinished := false,
                        activationGeneration := f.reuse.activationGeneration + 1, activationTimer := false)), false))
  }

  lemma StopRefines(f: Flags)
    requires Inv(f) && f.frame.started
    ensures Ending(Retired(f))
    ensures var g := if f.auth.active then Killed(Retired(f)) else Bereft(Retired(f));
      var f' := g.(frame := g.frame.(started := false, stopping := false, serving := false, greeterUp := false),
                   ended := true, log := g.log + [DisplayStopped]);
      Inv(f') && Abs(f') == StopDisplay(Abs(f))
  {
    hide CallsFit, Farewell, Failure, Unregistration, Death;
    var g := if f.auth.active then Killed(Retired(f)) else Bereft(Retired(f));
    var f' := g.(frame := g.frame.(started := false, stopping := false, serving := false, greeterUp := false),
                 ended := true, log := g.log + [DisplayStopped]);
    FarewellFits(f, Abs(f).phase);
    assert f'.log == f.log + Farewell(f) by { FarewellInSteps(f); }
    CallsForgotten(f, Abs(f).phase, f', Idle);
    Determined(f', StopDisplay(Abs(f)));
  }

  lemma FarewellInSteps(f: Flags)
    ensures (if f.auth.active then Killed(Retired(f)) else Bereft(Retired(f))).log + [DisplayStopped]
         == f.log + Farewell(f)
  {
  }

  /** The helper of phase `d.phase` has just gone; nothing else has been done about it. */
  ghost predicate Bereaved(f: Flags, d: Daemon) {
    && WellFormed(d) && HelperAlive(d.phase)
    && FrameFits(f, d) && SocketFits(f, Owner(d.phase)) && PhaseFits(f, d.phase) && CallsFit(f, d.phase)
    && f == Bereft(f) && f.login.transitionTimer == d.phase.Held?
  }

  lemma MournWhileActivating(f: Flags, d: Daemon, status: ExitStatus)
    requires Bereaved(f, d) && d.phase.Activating?
    ensures var f' := Unlisted(f).(reuse := Unlisted(f).reuse.(helperFinished := true));
      Inv(f') && Abs(f') == Mourn(Emit(d, Unregistration(d.phase)), status)
  {
    Determined(Unlisted(f).(reuse := Unlisted(f).reuse.(helperFinished := true)),
        Mourn(Emit(d, Unregistration(d.phase)), status));
  }

  lemma MournAtRest(f: Flags, d: Daemon, status: ExitStatus)
    requires Bereaved(f, d) && !d.phase.Activating?
    ensures var f' := if f.login.socket.Some? then Finished(Unlisted(f), false) else Unlisted(f);
      && Inv(f')
      && Mourn(Emit(d, Unregistration(d.phase)), status)
         == if status.HelperAuthError? then Abs(f') else StopDisplay(Abs(f'))
  {
    hide CallsFit, StopDisplay;
    var d' := Rest(Emit(Emit(d, Unregistration(d.phase)), Failure(d.phase)));
    var f' := if f.login.socket.Some? then Finished(Unlisted(f), false) else Unlisted(f);
    VerdictFits(f, d.phase);
    CallsForgotten(f, d.phase, f', Idle);
    assert f'.log == d'.log;
    Determined(f', d');
  }

  lemma BereavedGuards(f: Flags, d: Daemon)
    requires Bereaved(f, d)
    ensures !Ending(f) && !f.login.cancellingFingerprint && f.reuse.activationPending == d.phase.Activating?
    ensures f.names.registry == [] || (f.names.sessionName.Some? && f.names.registry == [f.names.sessionName.value])
  {
  }

  /** The helper has died and a crash has been told; the display has not heard of it yet. */
  function Gone(f: Flags, how: HelperExit): Flags {
    Bereft(f).(log := f.log + [HelperEnded] +
      if how.Crashed? && f.login.socket.Some? && !f.login.fingerprintLogin
      then [Information(f.login.socket.value, how.message), Information(f.login.socket.value, how.message)] else [])
  }

  lemma DeathRefines(f: Flags, how: HelperExit)
    requires Inv(f) && f.auth.active
    ensures Bereaved(Gone(f, how), Emit(Abs(f), [HelperEnded] + Notice(Abs(f).phase, how)))
  {
    hide CallsFit;
    var d := Abs(f);
    CallsUntouched(f, d.phase, Gone(f, how));
    assert Gone(f, how).log == d.log + ([HelperEnded] + Notice(d.phase, how));
  }

  lemma DeathOnTheWayDown(f: Flags, how: HelperExit)
    requires Ending(f)
    ensures Ending(Gone(f, how)) && Gone(f, how).(names := f.names.(sessionName := None)) == Killed(f)
  {
  }

  lemma BuriedInTwoSteps(d: Daemon, how: HelperExit)
    ensures Emit(Emit(d, [HelperEnded] + Notice(d.phase, how)), Unregistration(d.phase)) == Bury(d, how)
  {
    hide Notice, Unregistration;
    assert Emit(Emit(d, [HelperEnded] + Notice(d.phase, how)), Unregistration(d.phase)).log == Bury(d, how).log;
  }

  lemma CancelRefines(f: Flags, f': Flags)
    requires Inv(f) && Cancellable(Abs(f).phase)
    requires f' == Bereft(f).(
      reuse := f.reuse.(lookupPending := false, lookupGeneration := f.reuse.lookupGeneration + 1),
      login := f.login.(socket := None, fingerprintLogin := false),
      auth := Bereft(f).auth.(fingerprint := false),
      names := f.names.(sessionName := if f.auth.active then None else f.names.sessionName),
      log := f.log + if f.auth.active then [HelperEnded] else [])
    ensures Inv(f') && Abs(f') == CancelFingerprint(Abs(f))
  {
    Determined(f', CancelFingerprint(Abs(f)));
  }

  // ---------- what the slots test ----------

  lemma Guards(f: Flags)
    requires Inv(f)
    ensures !Ending(f)
    ensures Cancellable(Abs(f).phase) == (f.login.fingerprintLogin && !f.login.authenticated)
    ensures HelperAlive(Abs(f).phase) == f.auth.active
    ensures Busy(Abs(f).phase) == (f.auth.active || f.reuse.lookupPending || f.login.socket.Some?)
    ensures Owner(Abs(f).phase) == f.login.socket
    ensures f.login.fingerprintLogin == f.auth.fingerprint == (f.login.socket.Some? && f.login.socket.value.fingerprint)
    ensures f.auth.active || !f.login.transitionTimer
    ensures f.reuse.lookupPending ==> !f.auth.active
    ensures f.names.registry == [] || (f.names.sessionName.Some? && f.names.registry == [f.names.sessionName.value])
    ensures Abs(f).serving == f.frame.serving && Abs(f).issued == f.issued && Abs(f).log == f.log
  {
  }

  lemma NotedRefines(f: Flags, outputs: seq<Output>)
    requires Inv(f)
    ensures var f' := f.(log := f.log + outputs); Inv(f') && Abs(f') == Emit(Abs(f), outputs)
  {
    hide CallsFit;
    var f' := f.(log := f.log + outputs);
    CallsUntouched(f, Abs(f).phase, f');
    Determined(f', Emit(Abs(f), outputs));
  }

  lemma ArrivedRefines(f: Flags)
    requires Inv(f)
    ensures var f' := f.(issued := f.issued + 1); Inv(f') && Abs(f') == Abs(f).(issued := f.issued + 1)
  {
    hide CallsFit;
    var f' := f.(issued := f.issued + 1);
    CallsUntouched(f, Abs(f).phase, f');
    Determined(f', Abs(f).(issued := f.issued + 1));
  }

  lemma CountdownRefines(f: Flags)
    requires Inv(f) && f.owed.promptCancels > 0
    ensures var f' := f.(owed := f.owed.(promptCancels := f.owed.promptCancels - 1));
      Inv(f') && Abs(f') == Abs(f).(promptCancels := f.owed.promptCancels - 1)
  {
    hide CallsFit;
    var f' := f.(owed := f.owed.(promptCancels := f.owed.promptCancels - 1));
    CallsUntouched(f, Abs(f).phase, f');
    Determined(f', Abs(f).(promptCancels := f.owed.promptCancels - 1));
  }

  // ---------- starting an attempt ----------

  /** At rest, but for a request that may just have been taken on. */
  ghost predicate Poised(f: Flags, d: Daemon, owner: Option<Request>) {
    && WellFormed(d) && d.phase.Idle? && d.started && !d.ended
    && FrameFits(f, d) && SocketFits(f, owner) && PhaseFits(f, Idle) && HelperFits(f, Idle) && CallsFit(f, Idle)
    && if owner.Some? then d.serving && owner.value.id < d.issued else d.autologin
  }

  function Searching(f: Flags, user: string, sessionType: string): Flags {
    var generation := f.reuse.lookupGeneration + 1;
    f.(reuse := f.reuse.(lookupPending := true, lookupGeneration := generation),
       owed := f.owed.(lookupTimers := f.owed.lookupTimers + {generation},
           calls := f.owed.calls + multiset{ListCall(generation, user, sessionType)}),
       search := Listing(user, sessionType),
       log := f.log + [ListSessions])
  }

  function Launched(f: Flags): Flags {
    f.(auth := f.auth.(active := true, connected := true, deferStart := false, authenticationPending := false),
       log := f.log + [HelperStarted(f.auth.user, f.auth.sessionPath, f.auth.autologin, f.auth.fingerprint)])
  }

  function Prepared(f: Flags, user: string, password: string, session: SessionChoice): Flags {
    f.(login := f.login.(passPhrase := password, authenticated := false, sharedX11 := session.x11 && f.rootful),
       reuse := f.reuse.(sessionId := None, lookupPending := false, lookupGeneration := f.reuse.lookupGeneration + 1,
                         activationPending := false, helperFinished := false,
                         activationGeneration := f.reuse.activationGeneration + 1, activationTimer := false),
       names := f.names.(sessionName := Some(f.names.nextSessionName), nextSessionName := f.names.nextSessionName + 1),
       auth := f.auth.(user := user, sessionPath := session.exec))
  }

  lemma BeginRefines(f: Flags, d: Daemon, owner: Option<Request>, user: string, password: string,
                     session: SessionChoice, canReuse: bool)
    requires Poised(f, d, owner)
    ensures var prepared := Prepared(f, user, password, session);
      var f' := if canReuse then Searching(prepared, user, session.xdgType) else Launched(prepared);
      Inv(f') && Abs(f') == Begin(d, owner, user, password, session, canReuse)
  {
    var prepared := Prepared(f, user, password, session);
    if canReuse {
      Determined(Searching(prepared, user, session.xdgType), Begin(d, owner, user, password, session, canReuse));
    } else {
      Determined(Launched(prepared), Begin(d, owner, user, password, session, canReuse));
    }
  }

  lemma TakenOn(f: Flags, request: Request)
    requires Inv(f) && f.frame.serving && !Busy(Abs(f).phase) && request.id < f.issued
    ensures Poised(f.(login := f.login.(socket := Some(request), fingerprintLogin := request.fingerprint),
                      auth := f.auth.(fingerprint := request.fingerprint)),
                   Abs(f), Some(request))
  {
    var f' := f.(login := f.login.(socket := Some(request), fingerprintLogin := request.fingerprint),
                 auth := f.auth.(fingerprint := request.fingerprint));
    CallsUntouched(f, Abs(f).phase, f');
  }

  /** An attempt that could not begin leaves no trace but its answer. */
  lemma RefusedAtOnce(f: Flags, request: Request)
    requires Inv(f) && !f.auth.active && f.login.socket.None? && !request.fingerprint
    ensures Finished(f.(login := f.login.(socket := Some(request)), auth := f.auth.(fingerprint := false)), false)
         == f.(log := f.log + [LoginFailed(request)])
  {
    Guards(f);
  }

  lemma PutDownRefines(f: Flags, f': Flags)
    requires Inv(f) && f.frame.serving && !Busy(Abs(f).phase)
    requires f' == f.(login := f.login.(passPhrase := f'.login.passPhrase, authenticated := false))
    ensures Inv(f') && Abs(f') == Abs(f)
  {
    Determined(f', Abs(f));
  }

  lemma AutologinPoised(f: Flags)
    requires Inv(f) && Abs(f).phase.Idle? && !f.frame.started && !f.ended
    ensures Poised(f.(frame := f.frame.(started := true),
                      auth := f.auth.(autologin := true)), Abs(f).(started := true, autologin := true), None)
  {
  }

  lemma ServeRefines(f: Flags, f': Flags)
    requires Inv(f) && !f.frame.started && !f.ended
        && (Abs(f).phase.Idle? || (!f.auth.autologin && Abs(f).phase == Detached(false)))
    requires f' == f.(frame := f.frame.(started := true, serving := true, greeterUp := true),
                      auth := f.auth.(autologin := false),
                      login := f.login.(passPhrase := f'.login.passPhrase, authenticated := f'.login.authenticated),
                      log := f.log + [GreeterStarted])
    requires Abs(f).phase.Idle?
        || (f'.login.passPhrase == f.login.passPhrase && f'.login.authenticated == f.login.authenticated)
    ensures Inv(f') && Abs(f') == Serve(Abs(f).(autologin := false))
  {
    Determined(f', Serve(Abs(f).(autologin := false)));
  }

  lemma DisplayServerRefines(f: Flags, autologin: bool, f': Flags)
    requires Inv(f) && !f.frame.started && !f.ended && Abs(f).phase.Idle?
    requires autologin ==> f.auth.autologin
    requires f' == f.(auth := f.auth.(autologin := autologin),
                      login := f.login.(passPhrase := f'.login.passPhrase, authenticated := f'.login.authenticated),
                      log := f.log + [StartDisplayServer])
    ensures Inv(f') && Abs(f') == Emit(Abs(f).(autologin := autologin), [StartDisplayServer])
  {
    Determined(f', Emit(Abs(f).(autologin := autologin), [StartDisplayServer]));
  }

  // ---------- the search for a reusable session ----------

  function LookedUp(f: Flags, found: Option<string>): Flags {
    Launched(f.(reuse := f.reuse.(lookupPending := false, sessionId := found),
                auth := f.auth.(sessionPath := if found.Some? then "" else f.auth.sessionPath)))
  }

  /** `g` is `f` after the reply or the timeout that ends the search has been taken off the lists. */
  lemma FinishLookupRefines(f: Flags, found: Option<string>, g: Flags)
    requires Inv(f) && f.reuse.lookupPending && g.owed.calls <= f.owed.calls
    requires g == f.(owed := f.owed.(calls := g.owed.calls, remaining := g.owed.remaining,
        lookupTimers := g.owed.lookupTimers))
    ensures Inv(LookedUp(g, found)) && Abs(LookedUp(g, found)) == FinishLookup(Abs(f), found)
  {
    hide CallsFit;
    CallsForgotten(f, Abs(f).phase, LookedUp(g, found), Proving(f.login.socket, found));
    Determined(LookedUp(g, found), FinishLookup(Abs(f), found));
  }

  lemma DropTimer(f: Flags, generation: nat)
    requires Inv(f) && !(f.reuse.lookupPending && generation == f.reuse.lookupGeneration)
    ensures var f' := f.(owed := f.owed.(lookupTimers := f.owed.lookupTimers - {generation}));
      Inv(f') && Abs(f') == Abs(f)
  {
    Determined(f.(owed := f.owed.(lookupTimers := f.owed.lookupTimers - {generation})), Abs(f));
  }

  /** A reply that no pending search or activation waits for changes nothing but the list of calls. */
  lemma DropCall(f: Flags, call: Call)
    requires Inv(f) && call in f.owed.calls
    requires call.ForLookup() ==> !(f.reuse.lookupPending && call.generation == f.reuse.lookupGeneration)
    requires !call.ForLookup() ==>
      !(f.reuse.activationPending && call.generation == f.reuse.activationGeneration
          && f.reuse.sessionId == Some(call.sid))
    ensures var f' := f.(owed := f.owed.(calls := f.owed.calls - multiset{call})); Inv(f') && Abs(f') == Abs(f)
  {
    Determined(f.(owed := f.owed.(calls := f.owed.calls - multiset{call})), Abs(f));
  }

  /** The calls of a search that has just learnt its candidates. */
  ghost predicate Queried(before: multiset<Call>, after: multiset<Call>, generation: nat, sessionType: string,
                          candidates: multiset<SessionEntry>)
  {
    && (forall e: SessionEntry :: after[PropertyCall(generation, sessionType, e)]
                 == before[PropertyCall(generation, sessionType, e)] + candidates[e])
    && (forall c: Call | !(c.PropertyCall? && c.generation == generation && c.sessionType == sessionType) ::
          after[c] == before[c])
  }

  lemma NothingQueried(calls: multiset<Call>, generation: nat, sessionType: string)
    ensures Queried(calls, calls, generation, sessionType, multiset{})
  {
  }

  lemma QueriedMore(before: multiset<Call>, after: multiset<Call>, generation: nat, sessionType: string,
                    candidates: seq<SessionEntry>, e: SessionEntry)
    requires Queried(before, after, generation, sessionType, multiset(candidates))
    ensures Queried(before, after + multiset{PropertyCall(generation, sessionType, e)}, generation, sessionType,
                    multiset(candidates + [e]))
  {
  }

  lemma ListedCallsFit(f: Flags, call: Call, candidates: seq<SessionEntry>, f': Flags)
    requires call.ListCall? && call.generation == f.reuse.lookupGeneration
    requires CallsFit(f, LookingUp(f.login.socket, Listing(call.user, call.sessionType)))
    requires f'.reuse.lookupGeneration == f.reuse.lookupGeneration
        && f'.reuse.activationGeneration == f.reuse.activationGeneration
    requires f'.owed.lookupTimers == f.owed.lookupTimers
    requires f'.search == Collecting(call.sessionType, multiset(candidates))
    requires f'.owed.remaining == f.owed.remaining[call.generation := |candidates|]
    requires Queried(f.owed.calls - multiset{call}, f'.owed.calls, call.generation, call.sessionType,
                     multiset(candidates))
    ensures CallsFit(f', LookingUp(f'.login.socket, f'.search))
  {
    forall c <- f'.owed.calls
      ensures c.generation <= if c.ForLookup() then f'.reuse.lookupGeneration else f'.reuse.activationGeneration
      ensures c.ForLookup() && c.generation == call.generation ==> c.PropertyCall? && c.sessionType == call.sessionType
    {
      if !(c.PropertyCall? && c.generation == call.generation && c.sessionType == call.sessionType) {
        assert c in f.owed.calls;
      }
    }
  }

  lemma ListedRefines(f: Flags, call: Call, reply: seq<SessionEntry>, f': Flags)
    requires Inv(f) && f.reuse.lookupPending && call in f.owed.calls && call.ListCall?
    requires call.generation == f.reuse.lookupGeneration
    requires var candidates := Candidates(reply, call.user);
      && candidates != []
      && Queried(f.owed.calls - multiset{call}, f'.owed.calls, call.generation, call.sessionType, multiset(candidates))
      && f' == f.(owed := f.owed.(calls := f'.owed.calls,
                                   remaining := f.owed.remaining[call.generation := |candidates|]),
                  search := Collecting(call.sessionType, multiset(candidates)),
                  log := f.log + PropertyQueries(candidates))
    ensures WellFormed(Abs(f)) && Enabled(Abs(f), SessionsListed(Some(reply)))
    ensures Inv(f') && Abs(f') == Step(Abs(f), SessionsListed(Some(reply)))
  {
    ListReplyEnds(f, call, Some(reply));
    hide Step, NoneAhead, SearchFits, ActivationFits, Queried, Candidates, PropertyQueries;
    var candidates := Candidates(reply, call.user);
    assert candidates[0] in multiset(candidates);
    ListedCallsFit(f, call, candidates, f');
    hide Inv, CallsFit;
    SearchAdvances(f, f');
  }

  /** The pending search is the one its list call was made for; without candidates it is over. */
  lemma ListReplyEnds(f: Flags, call: Call, reply: Option<seq<SessionEntry>>)
    requires Inv(f) && f.reuse.lookupPending && call in f.owed.calls && call.ListCall?
    requires call.generation == f.reuse.lookupGeneration
    ensures f.search == Listing(call.user, call.sessionType) && CallsFit(f, LookingUp(f.login.socket, f.search))
    ensures WellFormed(Abs(f)) && Enabled(Abs(f), SessionsListed(reply))
    ensures var candidates := if reply.Some? then Candidates(reply.value, call.user) else [];
      Step(Abs(f), SessionsListed(reply)) ==
        if candidates == [] then FinishLookup(Abs(f), None)
        else Emit(Abs(f).(phase := LookingUp(f.login.socket, Collecting(call.sessionType, multiset(candidates)))),
                  PropertyQueries(candidates))
  {
    assert SearchFits(f, f.search);
  }

  /** The pending search waits for the entry of each of its property calls. */
  lemma PropertyCallIsWaitedFor(f: Flags, call: Call)
    requires Inv(f) && f.reuse.lookupPending && call in f.owed.calls && call.PropertyCall?
    requires call.generation == f.reuse.lookupGeneration
    ensures f.search.Collecting? && f.search.sessionType == call.sessionType && call.entry in f.search.waiting
    ensures call.generation in f.owed.remaining && f.owed.remaining[call.generation] == |f.search.waiting| > 0
  {
    assert f.owed.calls[PropertyCall(f.reuse.lookupGeneration, call.sessionType, call.entry)] > 0;
  }

  lemma PropertyReplyEnds(f: Flags, call: Call, properties: Option<Properties>)
    requires Inv(f) && f.reuse.lookupPending && call in f.owed.calls && call.PropertyCall?
    requires call.generation == f.reuse.lookupGeneration
    ensures WellFormed(Abs(f)) && Enabled(Abs(f), PropertiesRead(call.entry, properties))
    ensures properties.Some? && CanReuse(properties.value, call.sessionType) ==>
      Step(Abs(f), PropertiesRead(call.entry, properties)) == FinishLookup(Abs(f), Some(call.entry.id))
    ensures (!(properties.Some? && CanReuse(properties.value, call.sessionType))
             && f.owed.remaining[call.generation] == 1) ==>
      Step(Abs(f), PropertiesRead(call.entry, properties)) == FinishLookup(Abs(f), None)
    ensures (!(properties.Some? && CanReuse(properties.value, call.sessionType))
             && f.owed.remaining[call.generation] > 1) ==>
      Step(Abs(f), PropertiesRead(call.entry, properties))
      == Abs(f).(phase := LookingUp(f.login.socket,
                                    Collecting(call.sessionType, f.search.waiting - multiset{call.entry})))
  {
    PropertyCallIsWaitedFor(f, call);
    assert |f.search.waiting - multiset{call.entry}| == |f.search.waiting| - 1;
  }

  lemma SearchAdvances(f: Flags, f': Flags)
    requires Inv(f) && f.reuse.lookupPending && f'.search.Collecting? && f'.search.waiting != multiset{}
    requires f' == f.(owed := f'.owed, search := f'.search, log := f'.log)
    requires f'.owed.promptCancels == f.owed.promptCancels
    requires CallsFit(f', LookingUp(f.login.socket, f'.search))
    ensures Inv(f') && Abs(f') == Abs(f).(phase := LookingUp(f.login.socket, f'.search), log := f'.log)
  {
    hide CallsFit;
    Determined(f', Abs(f).(phase := LookingUp(f.login.socket, f'.search), log := f'.log));
  }

  /** A reply that was of no use is taken off the list. */
  function Passed(f: Flags, call: Call): Flags
    requires f.search.Collecting? && call.PropertyCall? && |f.search.waiting| > 0
  {
    f.(owed := f.owed.(calls := f.owed.calls - multiset{call},
                       remaining := f.owed.remaining[call.generation := |f.search.waiting| - 1]),
       search := Collecting(f.search.sessionType, f.search.waiting - multiset{call.entry}))
  }

  lemma PassedCallsFit(f: Flags, call: Call)
    requires f.search.Collecting? && CallsFit(f, LookingUp(f.login.socket, f.search)) && call in f.owed.calls
        && call.PropertyCall?
    requires call.generation == f.reuse.lookupGeneration && call.entry in f.search.waiting
    ensures CallsFit(Passed(f, call), LookingUp(f.login.socket, Passed(f, call).search))
  {
    assert call.sessionType == f.search.sessionType;
    assert |Passed(f, call).search.waiting| == |f.search.waiting| - 1;
  }

  lemma StillWaiting(f: Flags, call: Call, properties: Option<Properties>)
    requires Inv(f) && f.reuse.lookupPending && call in f.owed.calls && call.PropertyCall?
    requires call.generation == f.reuse.lookupGeneration && f.search.Collecting? && |f.search.waiting| > 1
    requires !(properties.Some? && CanReuse(properties.value, call.sessionType))
    ensures WellFormed(Abs(f)) && Enabled(Abs(f), PropertiesRead(call.entry, properties))
    ensures Inv(Passed(f, call)) && Abs(Passed(f, call)) == Step(Abs(f), PropertiesRead(call.entry, properties))
  {
    var d' := Abs(f).(phase := LookingUp(f.login.socket, Passed(f, call).search));
    PropertyCallIsWaitedFor(f, call);
    assert d' == Step(Abs(f), PropertiesRead(call.entry, properties)) by { PropertyReplyEnds(f, call, properties); }
    assert CallsFit(Passed(f, call), d'.phase) by { PassedCallsFit(f, call); }
    hide Inv, Abs, CallsFit, Step, CanReuse;
    SearchAdvances(f, Passed(f, call));
  }

  // ---------- what the helper says ----------

  /** What the greeter is told of the helper's remarks. */
  function Remark(f: Flags, message: HelperMessage): seq<Output>
    requires message.Info? || message.Error?
  {
    if f.login.socket.None? then []
    else if !f.login.fingerprintLogin then [Information(f.login.socket.value, message.text)]
    else if message.Error? && message.kind.AuthenticationError? then
      [FingerprintRejected(f.login.socket.value, message.text)]
    else []
  }

  lemma RemarkRefines(f: Flags, message: HelperMessage)
    requires Inv(f) && f.auth.active && (message.Info? || message.Error?)
    ensures var f' := f.(log := f.log + Remark(f, message)); Inv(f') && Abs(f') == OnHelperSays(Abs(f), message)
  {
    hide Inv;
    Guards(f);
    NotedRefines(f, Remark(f, message));
  }

  lemma AnsweredRefines(f: Flags, prompts: seq<Prompt>, f': Flags)
    requires Inv(f) && f.auth.active
    requires var answers := Answers(prompts, f.auth.user, f.login.passPhrase);
      f' == if f.login.fingerprintLogin
          then f.(owed := f.owed.(promptCancels := f.owed.promptCancels + if prompts == [] then 0 else 1))
            else f.(log := f.log + if answers.Some? then [SendReply(PromptReply(answers.value))] else [])
    ensures Inv(f') && Abs(f') == OnPromptRequest(Abs(f), prompts)
  {
    Determined(f', OnPromptRequest(Abs(f), prompts));
  }

  function Unlocked(f: Flags, sid: string): Flags {
    var generation := f.reuse.activationGeneration + 1;
    f.(reuse := f.reuse.(activationGeneration := generation, activationPending := true, activationTimer := true),
       owed := f.owed.(calls := f.owed.calls + multiset{UnlockCall(generation, sid)}),
       log := f.log + [UnlockSession(sid)])
  }

  function Listed(f: Flags): Flags
    requires f.names.sessionName.Some?
  {
    f.(names := f.names.(registry := f.names.registry + [f.names.sessionName.value]),
       log := f.log + [SessionRegistered])
  }

  predicate Announces(f: Flags) {
    f.login.socket.Some? && f.login.socket.value.socket in f.frame.transitions
  }

  function TransitionBegun(f: Flags): Flags {
    if !Announces(f) then f else
    f.(auth := f.auth.(deferStart := true), login := f.login.(transitionTimer := true),
       log := f.log + [PrepareTransition(f.login.socket.value, f.login.sharedX11 && f.reuse.sessionId.None?)])
  }

  function Proceeded(f: Flags): Flags
    requires f.names.sessionName.Some?
  {
    if f.reuse.sessionId.None? then Listed(TransitionBegun(f))
    else if Announces(f) then TransitionBegun(f)
    else Unlocked(f, f.reuse.sessionId.value)
  }

  /** The display's slot for a successful authentication, up to the reply to the helper. */
  function Welcomed(f: Flags): Flags
    requires f.names.sessionName.Some?
  {
    Proceeded(f.(login := f.login.(authenticated := true)))
  }

  function Replied(f: Flags): Flags {
    f.(auth := f.auth.(deferStart := false, authenticationPending := false),
       log := f.log + [SendReply(AuthenticatedReply)])
  }

  /** PAM has accepted; the helper waits for the reply. */
  function PamSaysYes(f: Flags, user: string): Flags {
    f.(auth := f.auth.(user := user, authenticationPending := true),
       log := f.log + [PamAccepted(f.login.socket)])
  }

  lemma HeldRefines(f: Flags, user: string, registration: seq<Output>)
    requires Inv(f) && Abs(f).phase.Proving?
    requires f.login.socket.Some? && f.login.socket.value.socket in f.frame.transitions
    requires registration == if f.reuse.sessionId.None? then [SessionRegistered] else []
    ensures var f' := Welcomed(PamSaysYes(f, user));
      f'.auth.deferStart && Inv(f') && Abs(f') == OnAccepted(Abs(f), user)
  {
    hide CallsFit, Release;
    var f' := Welcomed(PamSaysYes(f, user));
    CallsForgotten(f, Abs(f).phase, f', Held(f.login.socket, f.reuse.sessionId));
    var prepare := PrepareTransition(f.login.socket.value, f.login.sharedX11 && f.reuse.sessionId.None?);
    var d' := Daemon(f.rootful, f.frame.started, f.ended, f.frame.serving, f.frame.greeterUp, f.auth.autologin,
                     Held(f.login.socket, f.reuse.sessionId), AttemptOf(f).(user := user),
                     f.frame.transitions, f.owed.promptCancels, f.issued,
                     f.log + [PamAccepted(f.login.socket)] + ([prepare] + registration));
    assert f'.log == d'.log;
    assert OnAccepted(Abs(f), user) == d';
    Determined(f', d');
  }

  lemma FreshSessionRefines(f: Flags, user: string)
    requires Inv(f) && Abs(f).phase.Proving? && f.reuse.sessionId.None?
    requires !(f.login.socket.Some? && f.login.socket.value.socket in f.frame.transitions)
    ensures var f' := Replied(Welcomed(PamSaysYes(f, user)));
      !Welcomed(PamSaysYes(f, user)).auth.deferStart && Inv(f') && Abs(f') == OnAccepted(Abs(f), user)
  {
    hide CallsFit;
    var f' := Replied(Welcomed(PamSaysYes(f, user)));
    CallsForgotten(f, Abs(f).phase, f', OnAccepted(Abs(f), user).phase);
    assert f'.log == OnAccepted(Abs(f), user).log;
    Determined(f', OnAccepted(Abs(f), user));
  }

  /** The call of an activation that has just begun. */
  lemma UnlockCallFits(f: Flags, p: Phase, f': Flags, owner: Option<Request>, sid: string)
    requires CallsFit(f, p)
    requires f'.reuse.activationGeneration == f.reuse.activationGeneration + 1
        && f'.reuse.lookupGeneration == f.reuse.lookupGeneration
    requires f'.owed.calls == f.owed.calls + multiset{UnlockCall(f'.reuse.activationGeneration, sid)}
    ensures CallsFit(f', Activating(owner, sid, true, Unlocking))
    ensures UnlockCall(f'.reuse.activationGeneration, sid) in f'.owed.calls
  {
    forall c <- f'.owed.calls | c != UnlockCall(f'.reuse.activationGeneration, sid) ensures c in f.owed.calls {}
  }

  lemma ReusedSessionRefines(f: Flags, user: string)
    requires Inv(f) && Abs(f).phase.Proving? && f.reuse.sessionId.Some?
    requires !(f.login.socket.Some? && f.login.socket.value.socket in f.frame.transitions)
    ensures var f' := Replied(Welcomed(PamSaysYes(f, user)));
      !Welcomed(PamSaysYes(f, user)).auth.deferStart && Inv(f') && Abs(f') == OnAccepted(Abs(f), user)
  {
    hide CallsFit;
    var f' := Replied(Welcomed(PamSaysYes(f, user)));
    UnlockCallFits(f, Abs(f).phase, f', f.login.socket, f.reuse.sessionId.value);
    assert f'.log == OnAccepted(Abs(f), user).log;
    Determined(f', OnAccepted(Abs(f), user));
  }

  lemma AcceptedRefines(f: Flags, user: string)
    requires Inv(f) && Abs(f).phase.Proving?
    ensures var welcomed := Welcomed(PamSaysYes(f, user));
      var f' := if welcomed.auth.deferStart then welcomed else Replied(welcomed);
      Inv(f') && Abs(f') == OnAccepted(Abs(f), user)
  {
    hide WellFormed, OnAccepted;
    if f.login.socket.Some? && f.login.socket.value.socket in f.frame.transitions {
      HeldRefines(f, user, if f.reuse.sessionId.None? then [SessionRegistered] else []);
    } else if f.reuse.sessionId.None? {
      FreshSessionRefines(f, user);
    } else {
      ReusedSessionRefines(f, user);
    }
  }

  /** The display's slot for a refused authentication. */
  function Dismissed(f: Flags): Flags {
    var f := f.(login := f.login.(authenticated := false));
    if f.auth.autologin && f.rootful then
      f.(auth := f.auth.(autologin := false),
         frame := f.frame.(started := true, serving := true, greeterUp := true),
         log := f.log + [GreeterStarted])
    else if f.auth.autologin then
      f.(auth := f.auth.(autologin := false),
         frame := f.frame.(started := false),
         log := f.log + [StartDisplayServer])
    else
      Finished(f, false)
  }

  lemma RefusedRefines(f: Flags)
    requires Inv(f) && Abs(f).phase.Proving?
    ensures Inv(Dismissed(f)) && Abs(Dismissed(f)) == OnRefused(Abs(f))
  {
    VerdictFits(f, Abs(f).phase);
    Determined(Dismissed(f), OnRefused(Abs(f)));
  }

  /** The display's slot for the session status; the reply has been sent. */
  function Opened(f: Flags, ok: bool): Flags {
    var f1 := Finished(f, ok);
    if ok then f1.(frame := f1.frame.(greeterUp := false),
      log := f1.log + if f1.frame.greeterUp then [GreeterStopped] else [])
    else Unlisted(f1)
  }

  lemma SessionOpenRefines(f: Flags)
    requires Inv(f) && (Abs(f).phase.Opening? || Abs(f).phase == Detached(true))
    ensures var f' := Opened(f.(log := f.log + [SendReply(SessionStatusReply)]), true);
      Inv(f') && Abs(f') == OnSessionStatus(Abs(f), true)
  {
    hide CallsFit;
    var f' := Opened(f.(log := f.log + [SendReply(SessionStatusReply)]), true);
    VerdictFits(f, Abs(f).phase);
    CallsForgotten(f, Abs(f).phase, f', Detached(true));
    assert f'.log == OnSessionStatus(Abs(f), true).log;
    Determined(f', OnSessionStatus(Abs(f), true));
  }

  lemma SessionFailedRefines(f: Flags)
    requires Inv(f) && (Abs(f).phase.Opening? || Abs(f).phase == Detached(true))
    ensures var f' := Opened(f.(log := f.log + [SendReply(SessionStatusReply)]), false);
      Inv(f') && Abs(f') == OnSessionStatus(Abs(f), false)
  {
    hide CallsFit;
    var f' := Opened(f.(log := f.log + [SendReply(SessionStatusReply)]), false);
    VerdictFits(f, Abs(f).phase);
    CallsForgotten(f, Abs(f).phase, f', Detached(false));
    assert f'.log == OnSessionStatus(Abs(f), false).log;
    Determined(f', OnSessionStatus(Abs(f), false));
  }

  // ---------- the transition and the activation ----------

  lemma TransitionRefines(f: Flags)
    requires Inv(f) && f.auth.authenticationPending
    ensures var over := f.(login := f.login.(transitionTimer := false),
                           log := f.log + [TransitionOver]);
      var f' := Replied(if f.reuse.sessionId.Some? then Unlocked(over, f.reuse.sessionId.value) else over);
      Inv(f') && Abs(f') == CompleteTransition(Abs(f))
  {
    hide CallsFit;
    var over := f.(login := f.login.(transitionTimer := false),
                   log := f.log + [TransitionOver]);
    var f' := Replied(if f.reuse.sessionId.Some? then Unlocked(over, f.reuse.sessionId.value) else over);
    if f.reuse.sessionId.Some? {
      UnlockCallFits(f, Abs(f).phase, f', f.login.socket, f.reuse.sessionId.value);
    } else {
      CallsForgotten(f, Abs(f).phase, f', Opening(f.login.socket));
    }
    assert f'.log == CompleteTransition(Abs(f)).log;
    Determined(f', CompleteTransition(Abs(f)));
  }

  lemma UnlockedRefines(f: Flags, call: Call, f': Flags)
    requires Inv(f) && f.reuse.activationPending && call in f.owed.calls && call.UnlockCall?
        && call.generation == f.reuse.activationGeneration
    requires f.reuse.sessionId == Some(call.sid)
    requires var answered := f.owed.calls - multiset{call};
      f' == f.(owed := f.owed.(calls := answered + multiset{SwitchCall(f.reuse.activationGeneration, call.sid)}),
                      log := f.log + [ActivateSession(call.sid)])
    ensures Inv(f') && Abs(f') == OnUnlockAnswered(Abs(f), true)
  {
    Determined(f', OnUnlockAnswered(Abs(f), true));
  }

  /** The end of an activation, up to the stop that follows when the helper is gone. */
  function Activated(f: Flags, success: bool): Flags {
    Finished(f.(reuse := f.reuse.(activationPending := false, activationTimer := false,
                                  sessionId := if success then f.reuse.sessionId else None)), success)
  }

  lemma ActivationOverRefines(f: Flags, success: bool, g: Flags)
    requires Inv(f) && f.reuse.activationPending && g.owed.calls <= f.owed.calls
        && g == f.(owed := f.owed.(calls := g.owed.calls))
    ensures Inv(Activated(g, success))
    ensures (if f.reuse.helperFinished then StopDisplay(Abs(Activated(g, success))) else Abs(Activated(g, success)))
         == FinishActivation(Abs(f), success)
  {
    hide CallsFit, StopDisplay;
    var d := Abs(f);
    VerdictFits(f, d.phase);
    CallsForgotten(f, d.phase, Activated(g, success), Idle);
    CallsForgotten(f, d.phase, Activated(g, success), Detached(false));
    var result := if success then Success(d.phase) else Failure(d.phase);
    if f.reuse.helperFinished {
      Determined(Activated(g, success), Rest(Emit(d, result)));
    } else {
      Determined(Activated(g, success), Emit(d.(phase := Detached(false)), result));
    }
  }
}
